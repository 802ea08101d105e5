/** The release store of updates/store.go: one track's directory, the staged
    release and its promotion. A file is its content; sha is the hash function. */
module StoreSpec {
  import opened Wrappers
  import Text

  const MANIFEST: string := "manifest.json"
  const SIDECAR: string := "pending.json"
  const TMP: string := ".tmp"

  type Bytes = seq<bv8>
  type Hash = Bytes -> string

  datatype Build = Build(variant: string, filename: string, size: nat, sha256: string, contentType: string)

  datatype Meta = Meta(versionName: string, versionCode: int, mandatory: bool, releaseNotes: string)

  datatype Manifest = Manifest(meta: Meta, uploadedAt: int, builds: seq<Build>)

  datatype Active = Active(meta: Meta, builds: seq<Build>, updatedAt: int)

  /** files are the plain files of the track directory besides its two sidecars,
      pending those of the staging directory. */
  datatype Disk = Disk(files: map<string, Bytes>, pending: map<string, Bytes>, manifest: Option<Manifest>,
      sidecar: Option<Active>)

  datatype Store = Store(disk: Disk, active: Option<Active>)

  predicate HasSuffix(s: string, suffix: string) {
    |suffix| <= |s| && s[|s| - |suffix|..] == suffix
  }

  predicate DotDot(s: string) {
    exists k | 0 <= k < |s| - 1 :: s[k] == '.' && s[k + 1] == '.'
  }

  predicate Plain(name: string) {
    && name != "" && '/' !in name && '\\' !in name && '\0' !in name && !DotDot(name)
    && name != MANIFEST && name != SIDECAR && !HasSuffix(name, TMP)
  }

  /** SanitizeBuildFilename. */
  function Sanitize(name: string): (safe: Option<string>)
    ensures safe.Some? ==> Plain(safe.value) && safe.value == Text.TrimSpace(name)
    ensures safe.None? <==> !Plain(Text.TrimSpace(name))
  {
    var trimmed := Text.TrimSpace(name);
    if Plain(trimmed) then Some(trimmed) else None
  }

  /** Ensure, on a directory that can be read. */
  function Ensure(s: Store): Store {
    s.(active := s.disk.sidecar)
  }

  function Without(files: map<string, Bytes>, builds: seq<Build>): map<string, Bytes> {
    map name | name in files && (forall b | b in builds :: b.filename != name) :: files[name]
  }

  /** startActiveLocked; saved says whether pending.json could be written. */
  function Start(s: Store, meta: Meta, now: int, saved: bool): Store {
    var was := if s.active.Some? then s.active.value.builds else [];
    var disk := s.disk.(pending := Without(s.disk.pending, was));
    var ar := Active(meta, [], now);
    if saved then Store(disk.(sidecar := Some(ar)), Some(ar)) else s.(disk := disk)
  }

  function EnsureActive(s: Store, meta: Meta, now: int, saved: bool): Store {
    if s.active.Some? && s.active.value.meta.versionCode == meta.versionCode then s else Start(s, meta, now, saved)
  }

  /** How far an append gets: the staging directory or the file fails, the sidecar
      fails, the process dies in between, or all is written. */
  datatype Io = WriteFails | SaveFails | DiesBeforeSave | Writes

  function OfVariant(builds: seq<Build>, variant: string): seq<Build> {
    if builds == [] then []
    else
      OfVariant(builds[..|builds| - 1], variant) + if Last(builds).variant == variant then [Last(builds)] else []
  }

  function Others(builds: seq<Build>, variant: string): seq<Build> {
    if builds == [] then []
    else
      Others(builds[..|builds| - 1], variant) + if Last(builds).variant == variant then [] else [Last(builds)]
  }

  /** AppendBuild, with a valid file name. */
  function Append(sha: Hash, s: Store, meta: Meta, variant: string, name: string, contentType: string,
                  content: Bytes, now: int, io: Io): (Store, bool)
  {
    if s.active.None? || s.active.value.meta.versionCode != meta.versionCode then (s, false)
    else
      var ar := s.active.value.(meta := meta);
      var staged := Without(s.disk.pending, OfVariant(ar.builds, variant));
      var b := Build(variant, name, |content|, sha(content), contentType);
      var ar1 := ar.(builds := Others(ar.builds, variant) + [b], updatedAt := now);
      match io
      case WriteFails => (Store(s.disk.(pending := staged), Some(ar)), false)
      case SaveFails => (Store(s.disk.(pending := staged - {name}), Some(ar1)), false)
      case DiesBeforeSave => (Ensure(Store(s.disk.(pending := staged[name := content]), None)), false)
      case Writes => (Store(s.disk.(pending := staged[name := content], sidecar := Some(ar1)), Some(ar1)), true)
  }

  function Discard(s: Store): Store {
    match s.active
    case None => s.(disk := s.disk.(sidecar := None))
    case Some(ar) => Store(s.disk.(pending := Without(s.disk.pending, ar.builds), sidecar := None), None)
  }

  // ----- commit -----

  function Promote(d: Disk, name: string): (Disk, bool) {
    if name in d.pending then (d.(files := d.files[name := d.pending[name]], pending := d.pending - {name}), true)
    else (d, name in d.files)
  }

  /** The renames, in order, up to the first that fails. */
  function PromoteAll(d: Disk, builds: seq<Build>): (Disk, bool) {
    if builds == [] then (d, true)
    else
      var (d1, ok) := PromoteAll(d, builds[..|builds| - 1]);
      if ok then Promote(d1, Last(builds).filename) else (d1, false)
  }

  predicate Keep(name: string, builds: seq<Build>) {
    HasSuffix(name, TMP) || exists b | b in builds :: b.filename == name
  }

  /** deleteOrphanedBuildsLocked; undeleted are the files whose removal fails. */
  function DeleteOrphans(d: Disk, builds: seq<Build>, undeleted: set<string>): Disk {
    d.(files := map name | name in d.files && (Keep(name, builds) || name in undeleted) :: d.files[name])
  }

  /** CommitActive up to the point where pending.json is removed: cut says after
      how many renames it stops, or None when all are done and the manifest is
      written too. */
  function Promotion(d: Disk, ar: Active, now: int, cut: Option<nat>): (Disk, bool) {
    match cut
    case Some(k) => (PromoteAll(d, if k < |ar.builds| then ar.builds[..k] else ar.builds).0, false)
    case None =>
      var (d1, ok) := PromoteAll(d, ar.builds);
      if ok then (d1.(manifest := Some(Manifest(ar.meta, now, ar.builds))), true) else (d1, false)
  }

  /** A whole CommitActive. */
  function Commit(s: Store, now: int, undeleted: set<string>): (Store, bool) {
    if s.active.None? then (s, false)
    else
      var ar := s.active.value;
      var (d, ok) := Promotion(s.disk, ar, now, None);
      if ok then (Store(DeleteOrphans(d.(sidecar := None), ar.builds, undeleted), None), true)
        else (Store(d, s.active), false)
  }

  /** A CommitActive the process does not survive, and the next start. */
  function Interrupted(s: Store, now: int, cut: Option<nat>): Store {
    if s.active.None? then Ensure(s) else Ensure(Store(Promotion(s.disk, s.active.value, now, cut).0, None))
  }

  /** A CommitActive that gives up on an I/O error. */
  function Failed(s: Store, now: int, cut: nat): Store {
    if s.active.None? then s else s.(disk := Promotion(s.disk, s.active.value, now, Some(cut)).0)
  }
}

module StoreProofs {
  import opened Wrappers
  import opened StoreSpec

  /** What a name holds once promoted. */
  function Effective(d: Disk, name: string): Option<Bytes> {
    if name in d.pending then Some(d.pending[name])
    else if name in d.files then Some(d.files[name])
    else None
  }

  predicate Matches(sha: Hash, content: Option<Bytes>, b: Build) {
    content.Some? && |content.value| == b.size && sha(content.value) == b.sha256
  }

  function File(d: Disk, name: string): Option<Bytes> {
    if name in d.files then Some(d.files[name]) else None
  }

  predicate Present(d: Disk, builds: seq<Build>) {
    forall b | b in builds :: Effective(d, b.filename).Some?
  }

  function Names(builds: seq<Build>): set<string> {
    set b | b in builds :: b.filename
  }

  // ----- what a commit does, whatever happened before -----

  /** d1 is d with the names of some of the builds promoted. */
  ghost predicate Advanced(d: Disk, d1: Disk, builds: seq<Build>) {
    && d1.manifest == d.manifest && d1.sidecar == d.sidecar
    && (forall name :: Effective(d1, name) == Effective(d, name))
    && (forall name | name !in Names(builds) ::
          File(d1, name) == File(d, name) && (name in d1.pending <==> name in d.pending))
    && d1.pending.Keys <= d.pending.Keys
  }

  lemma {:induction false} PromoteAdvances(d: Disk, builds: seq<Build>)
    ensures var (d1, ok) := PromoteAll(d, builds);
      && Advanced(d, d1, builds)
      && (ok <==> Present(d, builds))
      && (ok ==> forall b | b in builds :: b.filename !in d1.pending && b.filename in d1.files)
  {
    if builds != [] {
      var init, b := builds[..|builds| - 1], Last(builds);
      PromoteAdvances(d, init);
      assert builds == init + [b];
      assert forall c :: c in builds <==> c in init || c == b;
      var (d1, ok1) := PromoteAll(d, init);
      assert b.filename in Names(builds);
      if ok1 {
        var (d2, ok) := Promote(d1, b.filename);
        assert Effective(d2, b.filename) == Effective(d1, b.filename);
        assert forall name | name != b.filename :: Effective(d2, name) == Effective(d1, name);
      } else {
        assert !Present(d, builds) by {
          var c :| c in init && Effective(d, c.filename).None?;
          assert c in builds;
        }
      }
    }
  }

  /** The directory after the release ar is committed, told from the contents its
      names stand for: all the served state there is. */
  ghost function Settled(d: Disk, ar: Active, now: int, undeleted: set<string>): Disk {
    Disk(
      map name |
        name in d.files.Keys + d.pending.Keys
        && (name in Names(ar.builds) || (name in d.files && (HasSuffix(name, TMP) || name in undeleted)))
        :: if name in Names(ar.builds) then Effective(d, name).value else d.files[name],
      d.pending - Names(ar.builds), Some(Manifest(ar.meta, now, ar.builds)), None)
  }

  lemma KeepsNames(name: string, builds: seq<Build>)
    ensures Keep(name, builds) <==> HasSuffix(name, TMP) || name in Names(builds)
  {
  }

  lemma CommitSettles(s: Store, now: int, undeleted: set<string>)
    requires s.active.Some?
    ensures var ar := s.active.value;
      && (Commit(s, now, undeleted).1 <==> Present(s.disk, ar.builds))
      && (Present(s.disk, ar.builds) ==>
            Commit(s, now, undeleted).0 == Store(Settled(s.disk, ar, now, undeleted), None))
  {
    var ar := s.active.value;
    PromoteAdvances(s.disk, ar.builds);
    if Present(s.disk, ar.builds) {
      var d1 := PromoteAll(s.disk, ar.builds).0;
      var d2 := Commit(s, now, undeleted).0.disk;
      var want := Settled(s.disk, ar, now, undeleted);
      forall name ensures name in d2.files <==> name in want.files
                  ensures name in d2.files ==> d2.files[name] == want.files[name] {
        KeepsNames(name, ar.builds);
        assert Effective(d1, name) == Effective(s.disk, name);
        if name !in Names(ar.builds) { assert File(d1, name) == File(s.disk, name); }
      }
      assert d2.files == want.files;
      forall name ensures name in d2.pending <==> name in want.pending
                  ensures name in d2.pending ==> d2.pending[name] == want.pending[name] {
        assert Effective(d1, name) == Effective(s.disk, name);
      }
      assert d2.pending == want.pending;
    }
  }

  /** A commit that did not finish: the process died and started again, or it gave
      up; before pending.json was removed. */
  datatype Setback = Died(now: int, cut: Option<nat>) | GaveUp(now: int, after: nat)

  function SetBack(s: Store, b: Setback): Store {
    match b
    case Died(now, cut) => Interrupted(s, now, cut)
    case GaveUp(now, after) => Failed(s, now, after)
  }

  function SetBacks(s: Store, list: seq<Setback>): Store
    decreases |list|
  {
    if list == [] then s else SetBacks(SetBack(s, list[0]), list[1..])
  }

  /** The staged release is what the next start will load. */
  predicate Saved(s: Store) {
    s.active.Some? && s.disk.sidecar == s.active
  }

  lemma PrefixAdvances(d: Disk, builds: seq<Build>, k: nat)
    requires k <= |builds|
    ensures Advanced(d, PromoteAll(d, builds[..k]).0, builds)
  {
    PromoteAdvances(d, builds[..k]);
    assert Names(builds[..k]) <= Names(builds) by {
      forall b | b in builds[..k] ensures b in builds {}
    }
  }

  lemma AdvancedSettles(d: Disk, d1: Disk, ar: Active, now: int, undeleted: set<string>)
    requires Advanced(d, d1.(manifest := d.manifest), ar.builds)
    ensures Present(d1, ar.builds) <==> Present(d, ar.builds)
    ensures Settled(d1, ar, now, undeleted) == Settled(d, ar, now, undeleted)
  {
    var e := d1.(manifest := d.manifest);
    forall name ensures Effective(d1, name) == Effective(d, name) { assert Effective(e, name) == Effective(d, name); }
    var a, b := Settled(d1, ar, now, undeleted), Settled(d, ar, now, undeleted);
    forall name ensures name in a.files <==> name in b.files
                ensures name in a.files ==> a.files[name] == b.files[name] {
      assert Effective(d1, name) == Effective(d, name);
      if name !in Names(ar.builds) { assert File(e, name) == File(d, name); }
    }
    assert a.files == b.files;
    forall name ensures name in a.pending <==> name in b.pending
                ensures name in a.pending ==> a.pending[name] == b.pending[name] {
      assert Effective(d1, name) == Effective(d, name);
      if name !in Names(ar.builds) { assert File(e, name) == File(d, name); }
    }
    assert a.pending == b.pending;
  }

  /** A commit of s1 ends as one of s does: it fails, or succeeds with the same store. */
  ghost predicate CommitsAs(s1: Store, s: Store, now: int, undeleted: set<string>) {
    && (Commit(s1, now, undeleted).1 <==> Commit(s, now, undeleted).1)
    && (Commit(s, now, undeleted).1 ==> Commit(s1, now, undeleted).0 == Commit(s, now, undeleted).0)
  }

  /** No interruptions before a commit show after it. */
  ghost predicate NeverShows(s: Store) {
    forall list, now, undeleted :: CommitsAs(SetBacks(s, list), s, now, undeleted)
  }

  /** The sidecar stages the release the store has in memory. */
  predicate Agrees(s: Store) {
    && s.active.Some? && s.disk.sidecar.Some?
    && s.disk.sidecar.value.meta == s.active.value.meta && s.disk.sidecar.value.builds == s.active.value.builds
  }

  /** Neither the release in memory nor the one a restart would load has all its files. */
  predicate Stuck(s: Store) {
    && (s.active.Some? ==> !Present(s.disk, s.active.value.builds))
    && (s.disk.sidecar.Some? ==> !Present(s.disk, s.disk.sidecar.value.builds))
  }

  /** A setback promotes some of the active release's names and leaves the sidecar;
      the release in memory afterwards is the one before or the sidecar's. */
  lemma SetBackAdvances(s: Store, b: Setback)
    requires s.active.Some?
    ensures var s1 := SetBack(s, b);
      && s1.disk.sidecar == s.disk.sidecar && (s1.active == s.active || s1.active == s.disk.sidecar)
      && Advanced(s.disk, s1.disk.(manifest := s.disk.manifest), s.active.value.builds)
  {
    var builds := s.active.value.builds;
    PrefixAdvances(s.disk, builds, |builds|);
    assert builds[..|builds|] == builds;
    var cut := if b.Died? then b.cut else Some(b.after);
    if cut.Some? && cut.value < |builds| { PrefixAdvances(s.disk, builds, cut.value); }
    hide Advanced;
    hide PromoteAll;
  }

  lemma {:induction false} AgreeingNeverShows(s: Store, list: seq<Setback>, now: int, undeleted: set<string>)
    requires Agrees(s)
    ensures CommitsAs(SetBacks(s, list), s, now, undeleted)
    decreases |list|
  {
    if list != [] {
      var s1 := SetBack(s, list[0]);
      SetBackAdvances(s, list[0]);
      AgreeingNeverShows(s1, list[1..], now, undeleted);
      AdvancedSettles(s.disk, s1.disk, s.active.value, now, undeleted);
      CommitSettles(s, now, undeleted);
      CommitSettles(s1, now, undeleted);
      hide Advanced;
      hide Commit;
    }
  }

  lemma SamePresent(d: Disk, d1: Disk, builds: seq<Build>)
    requires forall name :: Effective(d1, name) == Effective(d, name)
    ensures Present(d1, builds) <==> Present(d, builds)
  {
  }

  lemma StuckStays(s: Store, b: Setback)
    requires Stuck(s)
    ensures Stuck(SetBack(s, b))
  {
    if s.active.Some? {
      var s1 := SetBack(s, b);
      SetBackAdvances(s, b);
      hide SetBack;
      forall name ensures Effective(s1.disk, name) == Effective(s.disk, name) {
        assert Effective(s1.disk.(manifest := s.disk.manifest), name) == Effective(s.disk, name);
      }
      hide Advanced;
      if s1.active.Some? { SamePresent(s.disk, s1.disk, s1.active.value.builds); }
      if s.disk.sidecar.Some? { SamePresent(s.disk, s1.disk, s.disk.sidecar.value.builds); }
    }
  }

  lemma {:induction false} StuckFails(s: Store, list: seq<Setback>, now: int, undeleted: set<string>)
    requires Stuck(s)
    ensures !Commit(SetBacks(s, list), now, undeleted).1
    decreases |list|
  {
    if list == [] {
      if s.active.Some? { CommitSettles(s, now, undeleted); }
    } else {
      StuckStays(s, list[0]);
      StuckFails(SetBack(s, list[0]), list[1..], now, undeleted);
    }
  }

  /** A crash before the first rename shows unless the sidecar agrees or no commit
      can succeed either way. */
  lemma CrashShows(s: Store)
    requires s.active.Some? && !Agrees(s) && !Stuck(s)
    ensures !CommitsAs(SetBacks(s, [Died(0, Some(0))]), s, 0, {})
  {
    var list := [Died(0, Some(0))];
    var s1 := SetBack(s, list[0]);
    var builds := s.active.value.builds;
    assert (if 0 < |builds| then builds[..0] else builds) == [];
    assert s1 == Store(s.disk, s.disk.sidecar);
    assert list[1..] == [] && SetBacks(s1, []) == s1;
    CommitSettles(s, 0, {});
    if s1.active.Some? { CommitSettles(s1, 0, {}); }
    hide Commit;
    hide Present;
  }

  /** However often and wherever a commit is interrupted before pending.json is
      removed, by a crash and a restart or by an I/O error, committing again ends as
      an uninterrupted commit would, exactly when the sidecar stages what is in
      memory, or neither release has all its files. */
  lemma NeverShowsIff(s: Store)
    requires s.active.Some?
    ensures NeverShows(s) <==>
      || (s.disk.sidecar.Some? && s.disk.sidecar.value.meta == s.active.value.meta
          && s.disk.sidecar.value.builds == s.active.value.builds)
      || (!Present(s.disk, s.active.value.builds)
          && (s.disk.sidecar.None? || !Present(s.disk, s.disk.sidecar.value.builds)))
  {
    hide CommitsAs;
    if Agrees(s) {
      forall list, now, undeleted ensures CommitsAs(SetBacks(s, list), s, now, undeleted) {
        AgreeingNeverShows(s, list, now, undeleted);
      }
    } else if Stuck(s) {
      forall list, now, undeleted ensures CommitsAs(SetBacks(s, list), s, now, undeleted) {
        BothFail(s, list, now, undeleted);
      }
    } else {
      CrashShows(s);
    }
    hide Present;
    hide SetBacks;
  }

  lemma BothFail(s: Store, list: seq<Setback>, now: int, undeleted: set<string>)
    requires Stuck(s)
    ensures CommitsAs(SetBacks(s, list), s, now, undeleted)
  {
    StuckFails(s, list, now, undeleted);
    StuckFails(s, [], now, undeleted);
    hide Commit;
    hide Stuck;
  }

  /** With the staged release saved no interruption shows, and it stays saved. */
  lemma {:induction false} InterruptionsDoNotShow(s: Store, list: seq<Setback>, now: int, undeleted: set<string>)
    requires Saved(s)
    ensures Saved(SetBacks(s, list)) && SetBacks(s, list).active == s.active
    ensures Commit(SetBacks(s, list), now, undeleted).1 <==> Commit(s, now, undeleted).1
    ensures Commit(s, now, undeleted).1 ==> Commit(SetBacks(s, list), now, undeleted).0 == Commit(s, now, undeleted).0
    decreases |list|
  {
    NeverShowsIff(s);
    assert CommitsAs(SetBacks(s, list), s, now, undeleted);
    hide Commit;
    hide NeverShows;
    if list != [] {
      SetBackAdvances(s, list[0]);
      InterruptionsDoNotShow(SetBack(s, list[0]), list[1..], now, undeleted);
    }
  }

  // ----- staging -----

  lemma {:induction false} Filtered(builds: seq<Build>, variant: string, b: Build)
    ensures b in OfVariant(builds, variant) <==> b in builds && b.variant == variant
    ensures b in Others(builds, variant) <==> b in builds && b.variant != variant
  {
    if builds != [] {
      Filtered(builds[..|builds| - 1], variant, b);
      assert b in builds <==> b in builds[..|builds| - 1] || b == Last(builds);
    }
  }

  ghost predicate Staged(sha: Hash, d: Disk, builds: seq<Build>) {
    forall b | b in builds :: Matches(sha, Effective(d, b.filename), b)
  }

  /** No two builds share a file name or a variant. */
  ghost predicate Distinct(builds: seq<Build>) {
    forall b, c | b in builds && c in builds && (b.filename == c.filename || b.variant == c.variant) :: b == c
  }

  /** Starting, appending to and discarding a release leave the manifest and every
      served file as they are, whatever fails. */
  lemma StagingLeavesServedAlone(sha: Hash, s: Store, meta: Meta, variant: string, name: string, contentType: string,
                                 content: Bytes, now: int, saved: bool, io: Io)
    ensures EnsureActive(s, meta, now, saved).disk.files == s.disk.files
    ensures EnsureActive(s, meta, now, saved).disk.manifest == s.disk.manifest
    ensures Discard(s).disk.files == s.disk.files && Discard(s).disk.manifest == s.disk.manifest
    ensures var s1 := Append(sha, s, meta, variant, name, contentType, content, now, io).0;
      s1.disk.files == s.disk.files && s1.disk.manifest == s.disk.manifest
  {
  }

  /** An append that succeeds keeps the release staged exactly when no other variant
      uses its file name for other content. */
  lemma AppendStages(sha: Hash, s: Store, meta: Meta, variant: string, name: string, contentType: string,
                     content: Bytes, now: int)
    requires s.active.Some? && s.active.value.meta.versionCode == meta.versionCode
    requires Distinct(s.active.value.builds) && Staged(sha, s.disk, Others(s.active.value.builds, variant))
    ensures var (s1, ok) := Append(sha, s, meta, variant, name, contentType, content, now, Writes);
      var others := Others(s.active.value.builds, variant);
      && ok && Saved(s1)
      && (Staged(sha, s1.disk, s1.active.value.builds)
          <==> forall b | b in others && b.filename == name :: Matches(sha, Some(content), b))
      && (Distinct(s1.active.value.builds) <==> name !in Names(others))
  {
    var builds := s.active.value.builds;
    var s1 := Append(sha, s, meta, variant, name, contentType, content, now, Writes).0;
    var others, b := Others(builds, variant), Last(s1.active.value.builds);
    assert s1.active.value.builds == others + [b];
    forall c ensures c in others <==> c in builds && c.variant != variant { Filtered(builds, variant, c); }
    forall c | c in others
      ensures Effective(s1.disk, c.filename)
           == if c.filename == name then Some(content) else Effective(s.disk, c.filename)
    {
      forall e | e in OfVariant(builds, variant) ensures e.filename != c.filename { Filtered(builds, variant, e); }
    }
    assert b in s1.active.value.builds;
    if name in Names(others) {
      var c :| c in others && c.filename == name;
      assert c in s1.active.value.builds && c != b;
    }
  }

  /** A release is staged afresh unless it is the one staged already: without builds,
      saved, and without the files of the one before; discarding leaves nothing of it
      staged. */
  lemma StartsFresh(s: Store, meta: Meta, now: int)
    ensures var s1 := EnsureActive(s, meta, now, true);
      if s.active.Some? && s.active.value.meta.versionCode == meta.versionCode then s1 == s
      else s1.active == Some(Active(meta, [], now)) && Saved(s1) && Unstages(s1.disk, s)
    ensures Start(s, meta, now, true).active == Some(Active(meta, [], now)) && Saved(Start(s, meta, now, true))
    ensures Unstages(Start(s, meta, now, true).disk, s)
    ensures Start(s, meta, now, false).active == s.active && Unstages(Start(s, meta, now, false).disk, s)
    ensures Discard(s).active == None && Discard(s).disk.sidecar == None && Unstages(Discard(s).disk, s)
  {
  }

  /** The staged release's files are gone from the staging directory, no others. */
  ghost predicate Unstages(d1: Disk, s: Store) {
    var names := Names(if s.active.Some? then s.active.value.builds else []);
    forall name :: name in d1.pending <==> name in s.disk.pending && name !in names
  }

  /** An append succeeds exactly when it is to the staged release and everything could be
      written. Then the release has the new build, of the content's size and hash, in
      place of its variant's, and every other one; otherwise no new file is staged and
      what is saved stays. */
  lemma AppendAdds(sha: Hash, s: Store, meta: Meta, variant: string, name: string, contentType: string,
                   content: Bytes, now: int, io: Io, c: Build)
    requires s.active.Some?
    ensures var (s1, ok) := Append(sha, s, meta, variant, name, contentType, content, now, io);
      && (ok <==> s.active.value.meta.versionCode == meta.versionCode && io.Writes?)
      && (ok ==>
            && s1.active.Some? && s1.active.value.meta == meta && s1.active.value.updatedAt == now
            && (c in s1.active.value.builds
                <==> c == Build(variant, name, |content|, sha(content), contentType)
                     || (c in s.active.value.builds && c.variant != variant))
            && name in s1.disk.pending && s1.disk.pending[name] == content)
      && (!ok && !io.DiesBeforeSave? ==>
            s1.disk.sidecar == s.disk.sidecar && s1.disk.pending.Keys <= s.disk.pending.Keys)
  {
    Filtered(s.active.value.builds, variant, c);
    hide Others;
    hide OfVariant;
  }

  /** A commit stopped after k renames moved the first k names and no others; the rest
      is as it was. */
  lemma CutAfter(d: Disk, ar: Active, now: int, k: nat, name: string)
    requires Present(d, ar.builds) && k <= |ar.builds|
    ensures var d1 := Promotion(d, ar, now, Some(k)).0;
      && d1.manifest == d.manifest && d1.sidecar == d.sidecar
      && (name in Names(ar.builds[..k]) ==> name !in d1.pending && File(d1, name) == Effective(d, name))
      && (name !in Names(ar.builds[..k]) ==>
            File(d1, name) == File(d, name) && (name in d1.pending <==> name in d.pending))
  {
    var first := ar.builds[..k];
    assert ar.builds[..|ar.builds|] == ar.builds;
    forall b | b in first ensures Effective(d, b.filename).Some? { assert b in ar.builds; }
    PromoteAdvances(d, first);
    var d1 := PromoteAll(d, first).0;
    assert Effective(d1, name) == Effective(d, name);
    hide PromoteAll;
  }

  // ----- every run -----

  datatype Event =
    | Begin(meta: Meta, now: int, saved: bool)
    | Restart(meta: Meta, now: int, saved: bool)
    | Add(meta: Meta, variant: string, filename: string, contentType: string, content: Bytes, now: int, io: Io)
    | Drop
    | Finish(now: int, undeleted: set<string>)
    | Break(setback: Setback)

  /** damaged are the variants whose last append failed, dirty whether a commit began
      and none has completed since; suspect and leftover are what damaged was, and
      which removals failed, at the last one that did. */
  datatype Track = Track(s: Store, damaged: set<string>, dirty: bool, suspect: set<string>, leftover: set<string>)

  function BuildsOf(active: Option<Active>): seq<Build> {
    if active.Some? then active.value.builds else []
  }

  function Variants(builds: seq<Build>): set<string> {
    set b | b in builds :: b.variant
  }

  function AfterStart(t: Track, saved: bool): set<string> {
    if saved then {} else t.damaged + Variants(BuildsOf(t.s.active))
  }

  function Step(sha: Hash, t: Track, e: Event): Track {
    match e
    case Begin(meta, now, saved) =>
      var s1 := EnsureActive(t.s, meta, now, saved);
      if t.s.active.Some? && t.s.active.value.meta.versionCode == meta.versionCode then t
      else t.(s := s1, damaged := AfterStart(t, saved))
    case Restart(meta, now, saved) => t.(s := Start(t.s, meta, now, saved), damaged := AfterStart(t, saved))
    case Add(meta, variant, filename, contentType, content, now, io) =>
      var name := Sanitize(filename);
      if name.None? || t.s.active.None? || t.s.active.value.meta.versionCode != meta.versionCode then t
      else
        t.(s := Append(sha, t.s, meta, variant, name.value, contentType, content, now, io).0,
           damaged := if io.Writes? then t.damaged - {variant} else t.damaged + {variant})
    case Drop => t.(s := Discard(t.s), damaged := {})
    case Finish(now, undeleted) =>
      if t.s.active.None? then t
      else
        var (s1, ok) := Commit(t.s, now, undeleted);
        if ok then Track(s1, {}, false, t.damaged, undeleted) else t.(s := s1, dirty := true)
    case Break(setback) => t.(s := SetBack(t.s, setback), dirty := t.dirty || t.s.active.Some?)
  }

  /** What the publisher must see to: no two variants under one file name. */
  predicate Allowed(t: Track, e: Event) {
    e.Add? && t.s.active.Some? && Sanitize(e.filename).Some? ==>
      Sanitize(e.filename).value !in Names(Others(t.s.active.value.builds, e.variant))
  }

  /** Every build but a damaged one is staged. */
  ghost predicate StagedBut(sha: Hash, d: Disk, builds: seq<Build>, damaged: set<string>) {
    forall b | b in builds && b.variant !in damaged :: Matches(sha, Effective(d, b.filename), b)
  }

  ghost predicate SameBut(a: seq<Build>, b: seq<Build>, damaged: set<string>) {
    forall c: Build | c.variant !in damaged :: c in a <==> c in b
  }

  /** What clients are told and what they can fetch. */
  ghost predicate Served(sha: Hash, d: Disk, suspect: set<string>, leftover: set<string>) {
    d.manifest.Some? ==>
      var builds := d.manifest.value.builds;
      && (forall b | b in builds && b.variant !in suspect :: Matches(sha, File(d, b.filename), b))
      && (forall name | name in d.files :: HasSuffix(name, TMP) || name in Names(builds) || name in leftover)
  }

  ghost predicate Inv(sha: Hash, t: Track) {
    var mem, side := BuildsOf(t.s.active), BuildsOf(t.s.disk.sidecar);
    && Distinct(mem) && Distinct(side) && SameBut(mem, side, t.damaged)
    && StagedBut(sha, t.s.disk, mem, t.damaged)
    && (!t.dirty ==> Served(sha, t.s.disk, t.suspect, t.leftover))
  }

  lemma StartOk(sha: Hash, t: Track, meta: Meta, now: int, saved: bool)
    requires Inv(sha, t)
    ensures Inv(sha, t.(s := Start(t.s, meta, now, saved), damaged := AfterStart(t, saved)))
  {
    var t1 := t.(s := Start(t.s, meta, now, saved), damaged := AfterStart(t, saved));
    assert t1.s.disk.files == t.s.disk.files && t1.s.disk.manifest == t.s.disk.manifest;
    if !saved {
      forall b | b in BuildsOf(t.s.active) ensures b.variant in t1.damaged {}
    }
    hide Matches;
  }

  /** A build of another variant keeps its content through an append. */
  lemma AppendLeaves(sha: Hash, s: Store, meta: Meta, variant: string, name: string, contentType: string,
                     content: Bytes, now: int, io: Io, c: Build)
    requires Distinct(BuildsOf(s.active)) && c in BuildsOf(s.active) && c.variant != variant && c.filename != name
    ensures var s1 := Append(sha, s, meta, variant, name, contentType, content, now, io).0;
      Effective(s1.disk, c.filename) == Effective(s.disk, c.filename)
  {
    var mem := BuildsOf(s.active);
    forall b | b in OfVariant(mem, variant) ensures b.filename != c.filename { Filtered(mem, variant, b); }
    hide OfVariant;
    hide Others;
    hide Distinct;
    var staged := Without(s.disk.pending, OfVariant(mem, variant));
    assert c.filename in staged <==> c.filename in s.disk.pending;
    hide Without;
  }

  lemma AddLeaves(sha: Hash, t: Track, e: Event, c: Build)
    requires Inv(sha, t) && e.Add? && Allowed(t, e)
    requires c in BuildsOf(t.s.active) && c.variant != e.variant
    ensures Effective(Step(sha, t, e).s.disk, c.filename) == Effective(t.s.disk, c.filename)
  {
    Filtered(BuildsOf(t.s.active), e.variant, c);
    var name := Sanitize(e.filename);
    assert c.filename in Names(Others(BuildsOf(t.s.active), e.variant));
    if name.Some? {
      AppendLeaves(sha, t.s, e.meta, e.variant, name.value, e.contentType, e.content, e.now, e.io, c);
    }
    hide Append;
    hide Sanitize;
    hide Others;
    hide Inv;
    hide Effective;
  }

  /** Which undamaged builds an append leaves in memory. */
  lemma AddedBuilds(sha: Hash, t: Track, e: Event, c: Build)
    requires Inv(sha, t) && e.Add? && Allowed(t, e)
    requires c in BuildsOf(Step(sha, t, e).s.active) && c.variant !in Step(sha, t, e).damaged
    ensures var t1 := Step(sha, t, e);
      (c in BuildsOf(t.s.active) && c.variant != e.variant && c.variant !in t.damaged)
      || t1 == t
      || (c.variant == e.variant && Matches(sha, Effective(t1.s.disk, c.filename), c))
  {
    Filtered(BuildsOf(t.s.active), e.variant, c);
    hide Sanitize;
    hide OfVariant;
    hide Others;
    hide Without;
  }

  lemma AddStaged(sha: Hash, t: Track, e: Event)
    requires Inv(sha, t) && e.Add? && Allowed(t, e)
    ensures var t1 := Step(sha, t, e); StagedBut(sha, t1.s.disk, BuildsOf(t1.s.active), t1.damaged)
  {
    var t1 := Step(sha, t, e);
    forall c | c in BuildsOf(t1.s.active) && c.variant !in t1.damaged
      ensures Matches(sha, Effective(t1.s.disk, c.filename), c)
    {
      AddedBuilds(sha, t, e, c);
      if c in BuildsOf(t.s.active) && c.variant != e.variant { AddLeaves(sha, t, e, c); }
      hide Step;
      hide Matches;
      hide Effective;
      hide Distinct;
      hide Served;
      hide SameBut;
    }
  }

  lemma AddSame(sha: Hash, t: Track, e: Event)
    requires Inv(sha, t) && e.Add? && Allowed(t, e)
    ensures var t1 := Step(sha, t, e); SameBut(BuildsOf(t1.s.active), BuildsOf(t1.s.disk.sidecar), t1.damaged)
  {
    var t1 := Step(sha, t, e);
    forall c: Build | c.variant !in t1.damaged
      ensures c in BuildsOf(t1.s.active) <==> c in BuildsOf(t1.s.disk.sidecar)
    {
      Filtered(BuildsOf(t.s.active), e.variant, c);
      hide Sanitize;
      hide OfVariant;
      hide Others;
      hide Matches;
      hide Effective;
    }
  }

  lemma AddOk(sha: Hash, t: Track, e: Event)
    requires Inv(sha, t) && e.Add? && Allowed(t, e)
    ensures Inv(sha, Step(sha, t, e))
  {
    var t1 := Step(sha, t, e);
    assert t1.s.disk.files == t.s.disk.files && t1.s.disk.manifest == t.s.disk.manifest;
    assert t1.dirty == t.dirty && t1.suspect == t.suspect && t1.leftover == t.leftover;
    AddedDistinct(sha, t, e);
    AddStaged(sha, t, e);
    AddSame(sha, t, e);
    hide Step;
    hide Distinct;
    hide SameBut;
    hide StagedBut;
  }

  lemma AddedDistinct(sha: Hash, t: Track, e: Event)
    requires Inv(sha, t) && e.Add? && Allowed(t, e)
    ensures var t1 := Step(sha, t, e); Distinct(BuildsOf(t1.s.active)) && Distinct(BuildsOf(t1.s.disk.sidecar))
  {
    var t1 := Step(sha, t, e);
    var mem, mem1 := BuildsOf(t.s.active), BuildsOf(t1.s.active);
    forall c ensures c in Others(mem, e.variant) <==> c in mem && c.variant != e.variant {
      Filtered(mem, e.variant, c);
    }
    hide Sanitize;
    hide OfVariant;
    hide Others;
    if t1 != t && (e.io.Writes? || e.io.SaveFails?) {
      forall b, c | b in mem1 && c in mem1 && (b.filename == c.filename || b.variant == c.variant) ensures b == c {
        assert b == Last(mem1) || b in Others(mem, e.variant);
        assert c == Last(mem1) || c in Others(mem, e.variant);
        if b in Others(mem, e.variant) { assert b.filename in Names(Others(mem, e.variant)); }
        if c in Others(mem, e.variant) { assert c.filename in Names(Others(mem, e.variant)); }
      }
    }
  }

  lemma FinishOk(sha: Hash, t: Track, now: int, undeleted: set<string>)
    requires Inv(sha, t) && t.s.active.Some?
    ensures Inv(sha, Step(sha, t, Finish(now, undeleted)))
  {
    var t1 := Step(sha, t, Finish(now, undeleted));
    var ar := t.s.active.value;
    CommitSettles(t.s, now, undeleted);
    PromoteAdvances(t.s.disk, ar.builds);
    if Commit(t.s, now, undeleted).1 {
      var d1 := t1.s.disk;
      forall b | b in ar.builds
        ensures b.filename in Names(ar.builds) && File(d1, b.filename) == Effective(t.s.disk, b.filename)
      {
        assert Effective(t.s.disk, b.filename).Some?;
      }
      assert Served(sha, d1, t1.suspect, t1.leftover);
    } else {
      forall b | b in ar.builds ensures Effective(t1.s.disk, b.filename) == Effective(t.s.disk, b.filename) {}
    }
  }

  lemma BreakOk(sha: Hash, t: Track, b: Setback)
    requires Inv(sha, t)
    ensures Inv(sha, Step(sha, t, Break(b)))
  {
    if t.s.active.Some? {
      var builds := t.s.active.value.builds;
      PrefixAdvances(t.s.disk, builds, |builds|);
      assert builds[..|builds|] == builds;
      var cut := if b.Died? then b.cut else Some(b.after);
      if cut.Some? && cut.value < |builds| { PrefixAdvances(t.s.disk, builds, cut.value); }
      var d, d1 := t.s.disk, Step(sha, t, Break(b)).s.disk;
      assert Advanced(d, d1.(manifest := d.manifest), builds);
      hide PromoteAll;
      forall name ensures Effective(d1, name) == Effective(d, name) {
        assert Effective(d1.(manifest := d.manifest), name) == Effective(d, name);
      }
      hide Advanced;
    }
  }

  lemma StepOk(sha: Hash, t: Track, e: Event)
    requires Inv(sha, t) && Allowed(t, e)
    ensures Inv(sha, Step(sha, t, e))
  {
    match e
    case Begin(meta, now, saved) => StartOk(sha, t, meta, now, saved);
    case Restart(meta, now, saved) => StartOk(sha, t, meta, now, saved);
    case Add(_, _, _, _, _, _, _) => AddOk(sha, t, e);
    case Drop =>
    case Finish(now, undeleted) => if t.s.active.Some? { FinishOk(sha, t, now, undeleted); }
    case Break(b) => BreakOk(sha, t, b);
  }

  ghost predicate AllAllowed(sha: Hash, t: Track, events: seq<Event>)
    decreases |events|
  {
    events != [] ==> Allowed(t, events[0]) && AllAllowed(sha, Step(sha, t, events[0]), events[1..])
  }

  function Run(sha: Hash, t: Track, events: seq<Event>): Track
    decreases |events|
  {
    if events == [] then t else Run(sha, Step(sha, t, events[0]), events[1..])
  }

  lemma {:induction false} RunOk(sha: Hash, t: Track, events: seq<Event>)
    requires Inv(sha, t) && AllAllowed(sha, t, events)
    ensures Inv(sha, Run(sha, t, events))
    decreases |events|
  {
    if events != [] {
      StepOk(sha, t, events[0]);
      hide Inv;
      RunOk(sha, Step(sha, t, events[0]), events[1..]);
    }
  }

  const EMPTY: Track := Track(Store(Disk(map[], map[], None, None), None), {}, false, {}, {})

  // ----- both exceptions occur -----

  const NOTES: Meta := Meta("1.0", 1, false, "")

  function Upload(variant: string, filename: string, content: Bytes, io: Io): Event {
    Add(NOTES, variant, filename, "", content, 0, io)
  }

  /** A release with one build, then another append. */
  function TwoAppends(second: Event): seq<Event> {
    [Begin(NOTES, 0, true), Upload("arm", "a.apk", [], Writes), second]
  }

  lemma PlainName()
    ensures Sanitize("a.apk") == Some("a.apk") && Sanitize("b.apk") == Some("b.apk")
  {
    Text.TrimmedStays("a.apk");
    Text.TrimmedStays("b.apk");
    NoDots("a.apk");
    NoDots("b.apk");
  }

  lemma NoDots(s: string)
    requires |s| == 5 && s[1] == '.' && s[0] != '.' && s[2] != '.' && s[3] != '.' && s[4] == 'k'
    ensures !DotDot(s) && !HasSuffix(s, TMP)
  {
    assert s[1..][3] == 'k' && TMP[3] == 'p';
  }

  /** The first two events: one build staged and saved. */
  lemma OneAppend(sha: Hash, second: Event)
    ensures var b := Build("arm", "a.apk", 0, sha([]), "");
      var ar := Active(NOTES, [b], 0);
      Run(sha, EMPTY, TwoAppends(second))
      == Step(sha, Track(Store(Disk(map[], map["a.apk" := []], None, Some(ar)), Some(ar)), {}, false, {}, {}), second)
  {
    var events := TwoAppends(second);
    var t1 := Step(sha, EMPTY, events[0]);
    assert t1.s.disk == Disk(map[], map[], None, Some(Active(NOTES, [], 0)));
    assert t1.damaged == {};
    PlainName();
    var t2 := Step(sha, t1, events[1]);
    assert t2.s.active.value.builds == [Build("arm", "a.apk", 0, sha([]), "")];
    assert t2.s.disk.pending == map["a.apk" := []];
    assert t2.damaged == {};
    assert events[1..][1..] == [second] && [second][1..] == [];
    assert events[1..][0] == events[1];
    hide Step;
    assert Run(sha, EMPTY, events) == Run(sha, t1, events[1..]);
    assert Run(sha, t1, events[1..]) == Run(sha, t2, [second]);
    assert Run(sha, t2, [second]) == Run(sha, Step(sha, t2, second), []);
  }

  /** Two variants uploaded under one file name: the second upload takes the file the
      first variant's record is about. */
  lemma SharedNameUnstages(sha: Hash)
    ensures var t := Run(sha, EMPTY, TwoAppends(Upload("x86", "a.apk", [1], Writes)));
      t.damaged == {} && Saved(t.s) && !Staged(sha, t.s.disk, t.s.active.value.builds)
  {
    OneAppend(sha, Upload("x86", "a.apk", [1], Writes));
    hide Run;
    PlainName();
    var t := Run(sha, EMPTY, TwoAppends(Upload("x86", "a.apk", [1], Writes)));
    var arm := Build("arm", "a.apk", 0, sha([]), "");
    Filtered([arm], "x86", arm);
    assert arm in t.s.active.value.builds;
    assert !Matches(sha, Effective(t.s.disk, "a.apk"), arm);
  }

  /** A second append whose sidecar could not be written is in memory only: a commit
      fails on its missing file, but after a crash and a restart it succeeds without
      that build. */
  lemma UnsavedAppendShows(sha: Hash)
    ensures var t := Run(sha, EMPTY, TwoAppends(Upload("x86", "b.apk", [], SaveFails)));
      && !Saved(t.s) && !Commit(t.s, 0, {}).1
      && Commit(SetBack(t.s, Died(0, Some(0))), 0, {}).1 && !NeverShows(t.s)
  {
    UnsavedState(sha);
    hide Run;
    hide Commit;
    hide Settled;
    var s := Run(sha, EMPTY, TwoAppends(Upload("x86", "b.apk", [], SaveFails))).s;
    var x86 := Build("x86", "b.apk", 0, sha([]), "");
    assert x86 in s.active.value.builds && Effective(s.disk, "b.apk").None?;
    CommitSettles(s, 0, {});
    var s1 := SetBack(s, Died(0, Some(0)));
    assert s.active.value.builds[..0] == [];
    CommitSettles(s1, 0, {});
    NeverShowsIff(s);
    hide NeverShows;
  }

  lemma UnsavedState(sha: Hash)
    ensures var arm, x86 := Build("arm", "a.apk", 0, sha([]), ""), Build("x86", "b.apk", 0, sha([]), "");
      Run(sha, EMPTY, TwoAppends(Upload("x86", "b.apk", [], SaveFails))).s
      == Store(Disk(map[], map["a.apk" := []], None, Some(Active(NOTES, [arm], 0))), Some(Active(NOTES, [arm, x86], 0)))
  {
    OneAppend(sha, Upload("x86", "b.apk", [], SaveFails));
    hide Run;
    PlainName();
    hide Sanitize;
    var arm := Build("arm", "a.apk", 0, sha([]), "");
    OneOther(arm, "x86");
    KeepsAll(map["a.apk" := []], "b.apk");
    hide OfVariant;
    hide Others;
    hide Without;
    var ar := Active(NOTES, [arm], 0);
    var s := Store(Disk(map[], map["a.apk" := []], None, Some(ar)), Some(ar));
    assert ar.(meta := NOTES) == ar;
    var s1 := Append(sha, s, NOTES, "x86", "b.apk", "", [], 0, SaveFails).0;
    var x86 := Build("x86", "b.apk", 0, sha([]), "");
    assert [arm] + [x86] == [arm, x86];
    assert s1.active == Some(Active(NOTES, [arm, x86], 0));
    assert s1.disk.pending == map["a.apk" := []];
  }

  lemma KeepsAll(files: map<string, Bytes>, name: string)
    requires name !in files
    ensures Without(files, []) - {name} == files
  {
  }

  lemma OneOther(b: Build, variant: string)
    requires b.variant != variant
    ensures OfVariant([b], variant) == [] && Others([b], variant) == [b]
  {
    assert [b][..0] == [];
  }

  // ----- what is served -----

  /** Over every run: unless a commit is under way, each build the manifest lists is
      there with its recorded size and hash, and nothing else is, but builds whose
      last append had failed when the release was committed, and files that could not
      be removed. */
  lemma ServedFilesMatch(sha: Hash, events: seq<Event>)
    requires AllAllowed(sha, EMPTY, events)
    ensures var t := Run(sha, EMPTY, events);
      !t.dirty && t.s.disk.manifest.Some? ==>
        var builds := t.s.disk.manifest.value.builds;
        && (forall b | b in builds && b.variant !in t.suspect ::
              b.filename in t.s.disk.files && |t.s.disk.files[b.filename]| == b.size
              && sha(t.s.disk.files[b.filename]) == b.sha256)
        && (forall name | name in t.s.disk.files ::
              HasSuffix(name, TMP) || (exists b | b in builds :: b.filename == name) || name in t.leftover)
  {
    RunOk(sha, EMPTY, events);
    var t := Run(sha, EMPTY, events);
    hide Run;
    hide Step;
    if !t.dirty && t.s.disk.manifest.Some? {
      forall b | b in t.s.disk.manifest.value.builds && b.variant !in t.suspect
        ensures b.filename in t.s.disk.files && |t.s.disk.files[b.filename]| == b.size
                && sha(t.s.disk.files[b.filename]) == b.sha256
      {
        assert Matches(sha, File(t.s.disk, b.filename), b);
      }
    }
  }

  /** A commit serves exactly what its names held: a listed build matches its record
      afterwards exactly when its staged file, or without one the file already served
      under that name, did. It succeeds exactly when each name has one of the two. */
  lemma CommitServes(sha: Hash, s: Store, now: int, undeleted: set<string>, b: Build)
    requires s.active.Some? && b in s.active.value.builds
    ensures var (s1, ok) := Commit(s, now, undeleted);
      && (ok <==> forall c | c in s.active.value.builds :: c.filename in s.disk.pending || c.filename in s.disk.files)
      && (ok ==>
            && s1.disk.manifest == Some(Manifest(s.active.value.meta, now, s.active.value.builds))
            && (Matches(sha, File(s1.disk, b.filename), b) <==> Matches(sha, Effective(s.disk, b.filename), b)))
  {
    CommitSettles(s, now, undeleted);
    if Commit(s, now, undeleted).1 {
      assert b.filename in Names(s.active.value.builds) && Effective(s.disk, b.filename).Some?;
    } else {
      var c :| c in s.active.value.builds && Effective(s.disk, c.filename).None?;
    }
  }
}

/** The store in its own form; the disk is its fields. */
module Store {
  import opened Wrappers
  import opened StoreSpec

  lemma WithoutNone(files: map<string, Bytes>)
    ensures Without(files, []) == files
  {
  }

  /** One more file removed. */
  lemma WithoutMore(files: map<string, Bytes>, builds: seq<Build>, b: Build)
    ensures Without(files, builds + [b]) == Without(files, builds) - {b.filename}
  {
    assert forall c :: c in builds + [b] <==> c in builds || c == b;
  }

  /** Promotion stops at the first name that is nowhere. */
  lemma {:induction false} StopsThere(d: Disk, builds: seq<Build>, k: nat)
    requires k <= |builds| && !PromoteAll(d, builds[..k]).1
    ensures PromoteAll(d, builds) == PromoteAll(d, builds[..k])
  {
    if k < |builds| {
      assert builds[..|builds| - 1][..k] == builds[..k];
      StopsThere(d, builds[..|builds| - 1], k);
    } else {
      assert builds[..k] == builds;
    }
  }

  class TrackStore {
    const sha: Hash
    var files: map<string, Bytes>
    var pending: map<string, Bytes>
    var manifest: Option<Manifest>
    var sidecar: Option<Active>
    var active: Option<Active>

    constructor (sha: Hash, disk: Disk)
      ensures this.sha == sha && State() == StoreSpec.Store(disk, None)
    {
      this.sha := sha;
      files, pending, manifest, sidecar, active := disk.files, disk.pending, disk.manifest, disk.sidecar, None;
    }

    function OnDisk(): Disk
      reads this
    {
      Disk(files, pending, manifest, sidecar)
    }

    function State(): StoreSpec.Store
      reads this
    {
      StoreSpec.Store(OnDisk(), active)
    }

    /** Loads what a previous run staged. */
    method Ensure()
      modifies `active
      ensures State() == StoreSpec.Ensure(old(State()))
    {
      active := sidecar;
    }

    /** Removes the builds' files from the staging directory. */
    method RemovePending(builds: seq<Build>)
      modifies `pending
      ensures pending == Without(old(pending), builds)
    {
      WithoutNone(pending);
      for k := 0 to |builds|
        invariant pending == Without(old(pending), builds[..k])
      {
        WithoutMore(old(pending), builds[..k], builds[k]);
        assert builds[..k + 1] == builds[..k] + [builds[k]];
        pending := pending - {builds[k].filename};
      }
      assert builds[..|builds|] == builds;
    }

    /** startActiveLocked. */
    method StartActive(meta: Meta, now: int, saved: bool) returns (ok: bool)
      modifies this
      ensures ok == saved && State() == Start(old(State()), meta, now, saved)
    {
      if active.Some? { RemovePending(active.value.builds); } else { WithoutNone(pending); }
      if !saved { return false; }
      var ar := Active(meta, [], now);
      sidecar, active := Some(ar), Some(ar);
      ok := true;
    }

    method EnsureActive(meta: Meta, now: int, saved: bool) returns (ok: bool)
      modifies this
      ensures State() == StoreSpec.EnsureActive(old(State()), meta, now, saved)
      ensures ok <==>
        active.Some? && active.value.meta.versionCode == meta.versionCode && (saved || old(active) == active)
    {
      if active.Some? && active.value.meta.versionCode == meta.versionCode { return true; }
      ok := StartActive(meta, now, saved);
    }

    /** The list without a variant, filtered in one pass. */
    method Filter(builds: seq<Build>, variant: string) returns (same: seq<Build>, others: seq<Build>)
      ensures same == OfVariant(builds, variant) && others == Others(builds, variant)
    {
      same, others := [], [];
      for k := 0 to |builds|
        invariant same == OfVariant(builds[..k], variant) && others == Others(builds[..k], variant)
      {
        assert builds[..k + 1][..k] == builds[..k];
        if builds[k].variant == variant { same := same + [builds[k]]; } else { others := others + [builds[k]]; }
      }
      assert builds[..|builds|] == builds;
    }

    /** AppendBuild, with a valid file name, in a process that survives it. */
    method AppendBuild(meta: Meta, variant: string, name: string, contentType: string, content: Bytes, now: int, io: Io)
      returns (ok: bool)
      requires !io.DiesBeforeSave?
      modifies this
      ensures (State(), ok) == Append(sha, old(State()), meta, variant, name, contentType, content, now, io)
    {
      if active.None? || active.value.meta.versionCode != meta.versionCode { return false; }
      active := Some(active.value.(meta := meta));
      var same, others := Filter(active.value.builds, variant);
      RemovePending(same);
      if io.WriteFails? { return false; }
      pending := pending[name := content];
      var b := Build(variant, name, |content|, sha(content), contentType);
      active := Some(active.value.(builds := others + [b], updatedAt := now));
      if io.SaveFails? {
        pending := pending - {name};
        assert pending == Without(old(pending), same) - {name};
        return false;
      }
      sidecar := active;
      ok := true;
    }

    method DiscardActive()
      modifies this
      ensures State() == Discard(old(State()))
    {
      if active.Some? { RemovePending(active.value.builds); }
      active, sidecar := None, None;
    }

    /** The first step of CommitActive: the renames. */
    method MoveStaged(builds: seq<Build>) returns (ok: bool)
      modifies `files, `pending
      ensures (OnDisk(), ok) == PromoteAll(old(OnDisk()), builds)
    {
      for k := 0 to |builds|
        invariant (OnDisk(), true) == PromoteAll(old(OnDisk()), builds[..k])
      {
        assert builds[..k + 1][..k] == builds[..k];
        var name := builds[k].filename;
        if name in pending {
          files, pending := files[name := pending[name]], pending - {name};
        } else if name !in files {
          StopsThere(old(OnDisk()), builds, k + 1);
          return false;
        }
      }
      assert builds[..|builds|] == builds;
      ok := true;
    }

    /** deleteOrphanedBuildsLocked, in the directory's own order. */
    method DeleteOrphans(builds: seq<Build>, undeleted: set<string>)
      modifies `files
      ensures OnDisk() == StoreSpec.DeleteOrphans(old(OnDisk()), builds, undeleted)
    {
      var todo := files.Keys;
      while todo != {}
        invariant todo <= files.Keys <= old(files).Keys
        invariant forall name | name in old(files) ::
          name in files <==> name in todo || Keep(name, builds) || name in undeleted
        invariant forall name | name in files :: files[name] == old(files)[name]
        decreases |todo|
      {
        var name :| name in todo;
        todo := todo - {name};
        var kept := false;
        for k := 0 to |builds|
          invariant kept <==> exists j | 0 <= j < k :: builds[j].filename == name
        {
          if builds[k].filename == name { kept := true; }
        }
        assert kept <==> exists b | b in builds :: b.filename == name;
        if !HasSuffix(name, TMP) && !kept && name !in undeleted { files := files - {name}; }
      }
    }

    method CommitActive(now: int, undeleted: set<string>) returns (ok: bool)
      modifies this
      ensures (State(), ok) == Commit(old(State()), now, undeleted)
    {
      if active.None? { return false; }
      var ar := active.value;
      ok := MoveStaged(ar.builds);
      if !ok { return; }
      manifest := Some(Manifest(ar.meta, now, ar.builds));
      active, sidecar := None, None;
      DeleteOrphans(ar.builds, undeleted);
    }
  }
}
