/** What the camera's privacy and off-hours states are, told from what was asked. */
module PauseLaws {
  import opened Wrappers
  import opened PauseServer

  // ----- the states over every run -----

  /** What the actions so far asked for: the toggle and the edit under way, the
      readings fetched and the one in hand, whether the camera is enabled, and the two
      states they amount to. */
  datatype Told = Told(
    asked: bool, newEnabled: bool, newCap: bool, carried: bool, readings: map<nat, bool>, inHand: bool,
    enabled: bool, privacy: bool, off: bool)

  function First(enabled: bool): Told {
    Told(false, false, false, false, map[], false, enabled, false, false)
  }

  function Reading(t: Told, id: nat): bool {
    if id in t.readings then t.readings[id] else false
  }

  /** A toggle's value counts once it is recorded. */
  function TellToggle(t: Told, s: State, a: Action): Told {
    if a.ToggleStart? && s.op.Free? then t.(asked := a.enable)
    else if a.ToggleRecord? && s.op.ToggleIn? then t.(privacy := t.asked)
    else t
  }

  /** An evaluation's counts while the camera is enabled. */
  function TellSchedule(t: Told, s: State, a: Action): Told {
    if a.Evaluate? && s.admin.Evaluating? && t.enabled then t.(off := a.off) else t
  }

  /** An edit carries privacy over to a camera that is enabled and has it, and drops
      everything else. */
  function TellEdit(t: Told, s: State): Told {
    if s.admin.EditRead? then t.(carried := t.privacy)
    else if s.admin.EditUpdate? then t.(enabled := t.newEnabled)
    else if s.admin.EditDrop? then t.(privacy := false, off := false)
    else if s.admin.EditRestore? && t.carried && t.newEnabled && t.newCap then t.(privacy := true)
    else t
  }

  /** A heartbeat's reading counts if neither generation moved since it read them. */
  function TellBeat(t: Told, s: State, a: Action): Told {
    match a
    case BeatStep(id, on) =>
      if id in s.beats && s.beats[id].Started? then t.(readings := t.readings[id := on]) else t
    case BeatLock(id) => if s.op.Free? && id in s.beats && s.beats[id].Cached? then t.(inHand := Reading(t, id)) else t
    case BeatCheck =>
      if s.op.BeatIn? && s.op.beat.Cached? && s.op.beat.gen == s.privacyGen && s.op.beat.cfgGen == s.cfgGen
      then t.(privacy := t.inHand) else t
    case _ => t
  }

  /** One more action in state s, which only tells whose turn it is. */
  function Tell(t: Told, s: State, a: Action): Told {
    match a
    case EditStart(enabled, privacyCap) =>
      if s.admin.Idle? then t.(newEnabled := enabled, newCap := privacyCap) else t
    case EditStep(_, _) => TellEdit(t, s)
    case Evaluate(_) => TellSchedule(t, s, a)
    case ToggleStart(_) => TellToggle(t, s, a)
    case ToggleRecord => TellToggle(t, s, a)
    case _ => TellBeat(t, s, a)
  }

  function TellAll(t: Told, s: State, actions: seq<Action>): Told
    decreases |actions|
  {
    if actions == [] then t else TellAll(Tell(t, s, actions[0]), Step(s, actions[0]), actions[1..])
  }

  /** Every reading fetched is the one asked for. */
  ghost predicate BeatsAs(beats: map<nat, Beat>, t: Told) {
    forall id | id in beats && (beats[id].Fetched? || beats[id].Cached?) :: beats[id].on == Reading(t, id)
  }

  predicate OpAs(op: Op, t: Told) {
    (op.ToggleIn? ==> op.enable == t.asked) && (op.BeatIn? && op.beat.Cached? ==> op.beat.on == t.inHand)
  }

  predicate PlanAs(c: Config, t: Told) {
    c.enabled == t.newEnabled && c.privacyCap == t.newCap
  }

  /** An edit under way brings the configuration asked for and the privacy it read. */
  predicate AdminAs(a: Admin, t: Told) {
    match a
    case EditWait(c) => PlanAs(c, t)
    case EditRead(c) => PlanAs(c, t)
    case EditRemove(c, was) => PlanAs(c, t) && was == t.carried
    case EditAdd(c, was) => PlanAs(c, t) && was == t.carried
    case EditUpdate(c, was) => PlanAs(c, t) && was == t.carried
    case EditBump(c, was) => PlanAs(c, t) && was == t.carried
    case EditDrop(c, was) => PlanAs(c, t) && was == t.carried
    case EditRestore(c, was) => PlanAs(c, t) && was == t.carried
    case _ => true
  }

  /** The camera's states are what was told. */
  ghost predicate AsTold(s: State, t: Told) {
    && s.privacy == t.privacy && s.schedOff == t.off && s.config.enabled == t.enabled
    && OpAs(s.op, t) && AdminAs(s.admin, t) && BeatsAs(s.beats, t)
  }

  /** Time alone changes nothing. */
  lemma LaterAsTold(s: State, t: Told)
    requires AsTold(s, t)
    ensures forall now :: AsTold(s.(now := now), t)
  {
  }

  lemma SameBeats(beats: map<nat, Beat>, t: Told, t1: Told)
    requires BeatsAs(beats, t) && t1.readings == t.readings
    ensures BeatsAs(beats, t1)
  {
  }

  /** A change to the op lock's holder and to what is asked or in hand. */
  lemma OpTold(s: State, t: Told, s1: State, t1: Told)
    requires AsTold(s, t) && s1 == s.(op := s1.op, engine := s1.engine)
    requires t1 == t.(asked := t1.asked, inHand := t1.inHand)
    requires OpAs(s1.op, t1)
    ensures AsTold(s1, t1)
  {
    SameBeats(s.beats, t, t1);
    SameAdmin(s.admin, t, t1);
    hide BeatsAs;
    hide AdminAs;
    hide OpAs;
  }

  /** A change of the privacy state to the one told. */
  lemma PrivacyTold(s: State, t: Told, s1: State, t1: Told)
    requires AsTold(s, t) && t1 == t.(privacy := t1.privacy) && s1.privacy == t1.privacy && OpAs(s1.op, t1)
    requires s1 == s.(privacy := s1.privacy, privacyGen := s1.privacyGen, toggledAt := s1.toggledAt, op := s1.op,
                      accepted := s1.accepted)
    ensures AsTold(s1, t1)
  {
    SameBeats(s.beats, t, t1);
    SameAdmin(s.admin, t, t1);
    hide BeatsAs;
    hide AdminAs;
    hide OpAs;
  }

  lemma StartTold(s: State, t: Told, enable: bool)
    requires AsTold(s, t) && s.op.Free?
    ensures AsTold(s.(op := ToggleIn(enable)), t.(asked := enable))
  {
    OpTold(s, t, s.(op := ToggleIn(enable)), t.(asked := enable));
  }

  lemma RecordTold(s: State, t: Told)
    requires AsTold(s, t) && s.op.ToggleIn?
    ensures AsTold(s.(privacy := s.op.enable, privacyGen := s.privacyGen + 1, toggledAt := s.now,
                      op := ToggleRecorded(s.op.enable, s.schedOff)), t.(privacy := t.asked))
  {
    PrivacyTold(s, t, s.(privacy := s.op.enable, privacyGen := s.privacyGen + 1, toggledAt := s.now,
                         op := ToggleRecorded(s.op.enable, s.schedOff)), t.(privacy := t.asked));
  }

  lemma FreedTold(s: State, t: Told, engine: Option<bool>)
    requires AsTold(s, t)
    ensures AsTold(s.(op := Free, engine := engine), t)
  {
    OpTold(s, t, s.(op := Free, engine := engine), t);
  }

  lemma ToggleTold(s: State, t: Told, a: Action)
    requires AsTold(s, t) && (a.ToggleStart? || a.ToggleFail? || a.ToggleRecord? || a.ToggleApply?)
    ensures AsTold(Toggle(s, a), TellToggle(t, s, a))
  {
    hide AsTold;
    match a
    case ToggleStart(enable) => if s.op.Free? { StartTold(s, t, enable); }
    case ToggleFail => if s.op.ToggleIn? { FreedTold(s, t, s.engine); }
    case ToggleRecord => if s.op.ToggleIn? { RecordTold(s, t); }
    case ToggleApply =>
      if s.op.ToggleRecorded? { FreedTold(s, t, SetEngine(s, s.op.enable || s.op.off).engine); }
  }

  lemma AskedNow(s: State, t: Told)
    requires AsTold(s, t)
    ensures s.op.ToggleIn? ==> s.op.enable == t.asked
    ensures s.op.BeatIn? && s.op.beat.Cached? ==> s.op.beat.on == t.inHand
    ensures OpAs(s.op, t)
    ensures s.config.enabled == t.enabled
  {
    hide BeatsAs;
    hide AdminAs;
  }

  lemma ScheduleTold(s: State, t: Told, a: Action)
    requires AsTold(s, t) && (a.Tick? || a.Evaluate? || a.ApplyStep?)
    ensures AsTold(Schedule(s, a), TellSchedule(t, s, a))
  {
    AskedNow(s, t);
    hide AsTold;
    hide OpAs;
    OffTold(s, t, Schedule(s, a), TellSchedule(t, s, a));
  }

  lemma OffTold(s: State, t: Told, s1: State, t1: Told)
    requires AsTold(s, t)
    requires s1 == s.(schedOff := s1.schedOff, admin := s1.admin, op := s1.op, engine := s1.engine)
    requires t1 == t.(off := t1.off)
    requires s1.schedOff == t1.off || (s1.schedOff == s.schedOff && t1.off == t.off)
    requires (s1.op == s.op || s1.op.AdminHolds? || s1.op.Free?) && (s1.admin == s.admin || !AdminEdits(s1.admin))
    ensures AsTold(s1, t1)
  {
    SameBeats(s.beats, t, t1);
    SameAdmin(s.admin, t, t1);
    hide BeatsAs;
    if s1.admin == s.admin { hide AdminAs; }
  }

  lemma EditStartTold(s: State, t: Told, enabled: bool, privacyCap: bool)
    requires AsTold(s, t)
    ensures AsTold(Act(s, EditStart(enabled, privacyCap)), Tell(t, s, EditStart(enabled, privacyCap)))
  {
    var t1 := Tell(t, s, EditStart(enabled, privacyCap));
    SameBeats(s.beats, t, t1);
    SameOp(s.op, t, t1);
    if !s.admin.Idle? { SameAdmin(s.admin, t, t1); }
    hide BeatsAs;
    hide OpAs;
    hide Step;
    hide Toggle;
    hide Schedule;
    hide Edit;
    hide Heartbeat;
    hide Apply;
    if !s.admin.Idle? { hide AdminAs; }
  }

  lemma SameOp(op: Op, t: Told, t1: Told)
    requires OpAs(op, t) && t1.asked == t.asked && t1.inHand == t.inHand
    ensures OpAs(op, t1)
  {
  }

  /** Up to the new configuration. */
  lemma EditFirstTold(s: State, t: Told, supervised: bool, id: nat)
    requires AsTold(s, t)
    requires s.admin.EditWait? || s.admin.EditRead? || s.admin.EditRemove?
    ensures AsTold(Edit(s, supervised, id), TellEdit(t, s))
  {
    SameBeats(s.beats, t, TellEdit(t, s));
    SameOp(s.op, t, TellEdit(t, s));
    hide BeatsAs;
    hide Step;
  }

  lemma EditNextTold(s: State, t: Told, supervised: bool, id: nat)
    requires AsTold(s, t) && (s.admin.EditAdd? || s.admin.EditUpdate? || s.admin.EditBump?)
    ensures AsTold(Edit(s, supervised, id), TellEdit(t, s))
  {
    SameBeats(s.beats, t, TellEdit(t, s));
    SameOp(s.op, t, TellEdit(t, s));
    hide BeatsAs;
    hide OpAs;
    hide Step;
  }

  lemma EditLastTold(s: State, t: Told, supervised: bool, id: nat)
    requires AsTold(s, t) && (s.admin.EditDrop? || s.admin.EditRestore? || s.admin.EditPause?)
    ensures AsTold(Edit(s, supervised, id), TellEdit(t, s))
  {
    SameBeats(s.beats, t, TellEdit(t, s));
    SameOp(s.op, t, TellEdit(t, s));
    hide BeatsAs;
    hide Step;
  }

  lemma EditOtherTold(s: State, t: Told, supervised: bool, id: nat)
    requires AsTold(s, t) && !AdminEdits(s.admin)
    ensures AsTold(Edit(s, supervised, id), TellEdit(t, s))
  {
    hide Step;
    hide OpAs;
    hide PlanAs;
    hide Reading;
  }

  predicate AdminEdits(a: Admin) {
    a.EditWait? || a.EditRead? || a.EditRemove? || a.EditAdd? || a.EditUpdate? || a.EditBump? || a.EditDrop?
    || a.EditRestore? || a.EditPause?
  }

  lemma HeartbeatTold(s: State, t: Told, id: nat, on: bool)
    requires AsTold(s, t)
    ensures AsTold(Heartbeat(s, id, on), TellBeat(t, s, BeatStep(id, on)))
  {
    if id in s.beats && s.beats[id].Fetched? { FetchedTold(s, t, id, on); }
    else if id in s.beats { EarlyTold(s, t, id, on); }
  }

  lemma EarlyTold(s: State, t: Told, id: nat, on: bool)
    requires AsTold(s, t) && id in s.beats && !s.beats[id].Fetched?
    ensures AsTold(Heartbeat(s, id, on), TellBeat(t, s, BeatStep(id, on)))
  {
    hide AsTold;
    hide Reading;
    match s.beats[id]
    case Listed(v) => BeatTold(s, t, id, Snapped(v, s.cfgGen, s.config.version, s.now), t.readings);
    case Snapped(v, c, a, ca) => BeatTold(s, t, id, Started(v, c, a, ca, s.privacyGen, s.now), t.readings);
    case Started(v, c, a, ca, g, ga) => FetchTold(s, t, id, Fetched(v, c, a, ca, g, ga, on, s.now));
    case _ =>
  }

  lemma FetchedTold(s: State, t: Told, id: nat, on: bool)
    requires AsTold(s, t) && id in s.beats && s.beats[id].Fetched?
    ensures AsTold(Heartbeat(s, id, on), TellBeat(t, s, BeatStep(id, on)))
  {
    hide AsTold;
    hide Reading;
    var b := s.beats[id];
    CachedReads(s, t, id);
    if b.cfgGen != s.cfgGen { DropTold(s, t, id); }
    else {
      BeatTold(s, t, id, Cached(b.used, b.cfgGen, b.atSnap, b.cfgAt, b.gen, b.genAt, b.on, b.readAt), t.readings);
    }
  }

  lemma BeatTold(s: State, t: Told, id: nat, b: Beat, readings: map<nat, bool>)
    requires AsTold(s, t) && (readings == t.readings || (id in readings && readings == t.readings[id := readings[id]]))
    requires b.Fetched? || b.Cached? ==> b.on == Reading(t.(readings := readings), id)
    ensures AsTold(s.(beats := s.beats[id := b]), t.(readings := readings))
  {
    var t1 := t.(readings := readings);
    OneRead(s.beats, t, id, b, t1);
    SameAdmin(s.admin, t, t1);
    hide BeatsAs;
    hide AdminAs;
  }

  lemma FetchTold(s: State, t: Told, id: nat, b: Beat)
    requires AsTold(s, t) && b.Fetched?
    ensures AsTold(s.(beats := s.beats[id := b]), t.(readings := t.readings[id := b.on]))
  {
    BeatTold(s, t, id, b, t.readings[id := b.on]);
    hide AsTold;
  }

  lemma DropTold(s: State, t: Told, id: nat)
    requires AsTold(s, t)
    ensures AsTold(s.(beats := s.beats - {id}), t)
  {
    FewerBeats(s.beats, s.beats - {id}, t);
    hide BeatsAs;
    hide AdminAs;
    hide OpAs;
  }

  /** One heartbeat moves on with the reading told. */
  lemma OneRead(beats: map<nat, Beat>, t: Told, id: nat, b: Beat, t1: Told)
    requires BeatsAs(beats, t)
    requires t1.readings == t.readings || (id in t1.readings && t1.readings == t.readings[id := t1.readings[id]])
    requires b.Fetched? || b.Cached? ==> b.on == Reading(t1, id)
    ensures BeatsAs(beats[id := b], t1)
  {
  }

  lemma LockTold(s: State, t: Told, id: nat)
    requires AsTold(s, t)
    ensures AsTold(Apply(s, BeatLock(id)), TellBeat(t, s, BeatLock(id)))
  {
    if s.op.Free? && id in s.beats && s.beats[id].Cached? {
      CachedReads(s, t, id);
      DropTold(s, t, id);
      hide AsTold;
      hide Reading;
      InTold(s.(beats := s.beats - {id}), t, s.beats[id]);
    }
  }

  lemma InTold(s: State, t: Told, b: Beat)
    requires AsTold(s, t) && b.Cached? && s.op.Free?
    ensures AsTold(s.(op := BeatIn(b)), t.(inHand := b.on))
  {
    OpTold(s, t, s.(op := BeatIn(b)), t.(inHand := b.on));
    hide AsTold;
  }

  lemma CheckTold(s: State, t: Told)
    requires AsTold(s, t)
    ensures AsTold(Apply(s, BeatCheck), TellBeat(t, s, BeatCheck))
  {
    AskedNow(s, t);
    hide AsTold;
    hide Reading;
    if s.op.BeatIn? && s.op.beat.Cached? {
      var b := s.op.beat;
      if b.gen != s.privacyGen || b.cfgGen != s.cfgGen { FreedTold(s, t, s.engine); }
      else { ReadTold(s, t, Accepted(b.readAt, s.toggledAt, s.bumpedAt, b.used, b.atSnap, s.config.version)); }
    }
  }

  lemma ReadTold(s: State, t: Told, a: Accepted)
    requires AsTold(s, t) && s.op.BeatIn? && s.op.beat.Cached?
    ensures AsTold(s.(privacy := s.op.beat.on, op := BeatSet(s.op.beat.on, s.schedOff), accepted := s.accepted + [a]),
                   t.(privacy := t.inHand))
  {
    AskedNow(s, t);
    PrivacyTold(s, t, s.(privacy := s.op.beat.on, op := BeatSet(s.op.beat.on, s.schedOff),
                         accepted := s.accepted + [a]), t.(privacy := t.inHand));
    hide AsTold;
  }

  lemma AppliedTold(s: State, t: Told)
    requires AsTold(s, t)
    ensures AsTold(Apply(s, BeatApply), TellBeat(t, s, BeatApply))
  {
    hide Step;
    hide AsTold;
    AskedNow(s, t);
    OpTold(s, t, Apply(s, BeatApply), TellBeat(t, s, BeatApply));
  }

  lemma CachedReads(s: State, t: Told, id: nat)
    requires AsTold(s, t) && id in s.beats && (s.beats[id].Fetched? || s.beats[id].Cached?)
    ensures s.beats[id].on == Reading(t, id)
  {
  }

  lemma SameAdmin(a: Admin, t: Told, t1: Told)
    requires AdminAs(a, t) && t1.newEnabled == t.newEnabled && t1.newCap == t.newCap && t1.carried == t.carried
    ensures AdminAs(a, t1)
  {
  }

  lemma FewerBeats(beats: map<nat, Beat>, beats1: map<nat, Beat>, t: Told)
    requires BeatsAs(beats, t) && beats1.Keys <= beats.Keys && forall id | id in beats1 :: beats1[id] == beats[id]
    ensures BeatsAs(beats1, t)
  {
  }

  lemma OtherBeatTold(s: State, t: Told, a: Action)
    requires AsTold(s, t) && (a.BeatList? || a.BeatFail?)
    ensures AsTold(Act(s, a), TellBeat(t, s, a))
  {
    hide Step;
    hide AdminAs;
    hide OpAs;
  }

  lemma StepTold(s: State, t: Told, a: Action)
    requires AsTold(s, t)
    ensures AsTold(Step(s, a), Tell(t, s, a))
  {
    ActTold(s, t, a);
    hide Tell;
    hide Act;
    LaterAsTold(Act(s, a), Tell(t, s, a));
    hide AsTold;
  }

  lemma ActTold(s: State, t: Told, a: Action)
    requires AsTold(s, t)
    ensures AsTold(Act(s, a), Tell(t, s, a))
  {
    hide AsTold;
    hide Toggle;
    hide Schedule;
    hide Edit;
    hide Heartbeat;
    hide Apply;
    hide TellToggle;
    hide TellSchedule;
    hide TellEdit;
    hide TellBeat;
    match a
    case EditStep(supervised, id) => EditTold(s, t, supervised, id);
    case EditStart(enabled, privacyCap) => EditStartTold(s, t, enabled, privacyCap);
    case BeatStep(id, on) => HeartbeatTold(s, t, id, on);
    case BeatLock(id) => LockTold(s, t, id);
    case BeatCheck => CheckTold(s, t);
    case BeatApply => AppliedTold(s, t);
    case BeatList(_) => OtherBeatTold(s, t, a);
    case BeatFail(_) => OtherBeatTold(s, t, a);
    case Tick => ScheduleTold(s, t, a); NothingTold(s, t, a);
    case Evaluate(_) => ScheduleTold(s, t, a);
    case ApplyStep => ScheduleTold(s, t, a); NothingTold(s, t, a);
    case _ => ToggleTold(s, t, a); NothingTold(s, t, a);
  }

  lemma NothingTold(s: State, t: Told, a: Action)
    ensures a.Tick? || a.ApplyStep? ==> TellSchedule(t, s, a) == TellBeat(t, s, a) == t
    ensures a.ToggleFail? || a.ToggleApply? ==> TellToggle(t, s, a) == TellBeat(t, s, a) == t
  {
  }

  lemma EditTold(s: State, t: Told, supervised: bool, id: nat)
    requires AsTold(s, t)
    ensures AsTold(Act(s, EditStep(supervised, id)), TellEdit(t, s))
  {
    hide AsTold;
    hide Edit;
    if s.admin.EditWait? || s.admin.EditRead? || s.admin.EditRemove? { EditFirstTold(s, t, supervised, id); }
    else if s.admin.EditAdd? || s.admin.EditUpdate? || s.admin.EditBump? { EditNextTold(s, t, supervised, id); }
    else if AdminEdits(s.admin) { EditLastTold(s, t, supervised, id); }
    else { EditOtherTold(s, t, supervised, id); }
  }

  lemma {:induction false} RunTold(s: State, t: Told, actions: seq<Action>)
    requires AsTold(s, t)
    ensures AsTold(Run(s, actions), TellAll(t, s, actions))
    decreases |actions|
  {
    hide AsTold;
    hide Step;
    hide Tell;
    if actions != [] {
      StepTold(s, t, actions[0]);
      RunTold(Step(s, actions[0]), Tell(t, s, actions[0]), actions[1..]);
    }
  }

  /** Over every interleaving the camera's privacy and off-hours states are the ones
      last asked for, and with the op lock free and no schedule change waiting it is
      paused exactly when one of them is. */
  lemma StatesAreAsked(enabled: bool, privacyCap: bool, supervised: bool, actions: seq<Action>)
    ensures var s0 := Initial(enabled, privacyCap, supervised);
      var s, t := Run(s0, actions), TellAll(First(enabled), s0, actions);
      && s.privacy == t.privacy && s.schedOff == t.off
      && (s.op.Free? && !s.admin.Pending? && s.engine.Some? ==> s.engine.value == (t.privacy || t.off))
  {
    RunTold(Initial(enabled, privacyCap, supervised), First(enabled), actions);
    PauseIsPrivacyOrOffHours(enabled, privacyCap, supervised, actions);
    hide Run;
    hide TellAll;
    hide Initial;
  }

  // ----- what each thread does when it is left alone -----

  /** A manual toggle. */
  lemma ToggleTakesEffect(s: State, enable: bool)
    requires s.op.Free?
    ensures Step(Step(Step(s, ToggleStart(enable)), ToggleRecord), ToggleApply)
         == s.(privacy := enable, privacyGen := s.privacyGen + 1, toggledAt := s.now + 1, now := s.now + 3,
               engine := if s.engine.Some? then Some(enable || s.schedOff) else None)
  {
    ToggleSteps(s, enable);
    hide Step;
  }

  /** A toggle the camera refuses, and a heartbeat it does not answer, leave everything
      as it was. */
  lemma FailuresLeaveNothing(s: State, enable: bool, id: nat)
    ensures s.op.Free? ==> Step(Step(s, ToggleStart(enable)), ToggleFail) == s.(now := s.now + 2)
    ensures id !in s.beats ==> Step(Step(s, BeatList(id)), BeatFail(id)) == s.(now := s.now + 2)
    ensures id !in Step(s, BeatFail(id)).beats
  {
    hide Schedule;
    hide Heartbeat;
    hide Edit;
    hide Apply;
    var v := s.config.version;
    assert id !in s.beats ==> s.beats[id := Listed(v)] - {id} == s.beats;
  }

  /** A tick of the schedule whose evaluation finds the camera off-hours or not. */
  lemma EvaluationTakesEffect(s: State, off: bool)
    requires s.admin.Idle? && s.op.Free? && s.config.enabled && off != s.schedOff
    ensures var s2 := Step(Step(s, Tick), Evaluate(off));
      Step(Step(Step(s2, ApplyStep), ApplyStep), ApplyStep)
      == s.(schedOff := off, now := s.now + 5, engine := if s.engine.Some? then Some(s.privacy || off) else None)
  {
    EvaluateSteps(s, off);
    PauseSteps(Step(Step(s, Tick), Evaluate(off)));
    hide Step;
  }

  lemma EvaluateSteps(s: State, off: bool)
    requires s.admin.Idle?
    ensures Step(Step(s, Tick), Evaluate(off))
         == if s.config.enabled && off != s.schedOff then s.(schedOff := off, admin := Pending, now := s.now + 2)
            else s.(now := s.now + 2)
  {
    hide Toggle;
    hide Heartbeat;
    hide Edit;
    hide Apply;
  }

  /** A heartbeat left alone from its list to its end sets the privacy state. */
  lemma ReadingTakesEffect(s: State, id: nat, on: bool)
    requires s.op.Free? && id !in s.beats
    ensures var s1 := ReadingApplied(FiveBeats(s, id, on), id);
      && s1.privacy == on && s1.schedOff == s.schedOff && s1.op.Free? && s1.beats == s.beats
      && s1.engine == (if s.engine.Some? then Some(on || s.schedOff) else None)
      && |s1.accepted| == |s.accepted| + 1
  {
    var b := Cached(s.config.version, s.cfgGen, s.config.version, s.now + 1, s.privacyGen, s.now + 2, on, s.now + 3);
    BeatFetched(s, id, on);
    ReadingSteps(FiveBeats(s, id, on), id);
    hide ReadingApplied;
    hide FiveBeats;
    assert s.beats[id := b] - {id} == s.beats;
  }

  function FiveBeats(s: State, id: nat, on: bool): State {
    var b := BeatStep(id, on);
    Step(Step(Step(Step(Step(s, BeatList(id)), b), b), b), b)
  }

  lemma BeatFetched(s: State, id: nat, on: bool)
    requires id !in s.beats
    ensures var v, c, n := s.config.version, s.cfgGen, s.now;
      FiveBeats(s, id, on)
      == s.(beats := s.beats[id := Cached(v, c, v, n + 1, s.privacyGen, n + 2, on, n + 3)], now := n + 5)
  {
    BeatStarted(s, id, on);
    var v, c, n, g := s.config.version, s.cfgGen, s.now, s.privacyGen;
    var s3 := s.(beats := s.beats[id := Started(v, c, v, n + 1, g, n + 2)], now := n + 3);
    var s4 := s.(beats := s.beats[id := Fetched(v, c, v, n + 1, g, n + 2, on, n + 3)], now := n + 4);
    OneBeat(s3, id, on);
    OneBeat(s4, id, on);
    hide Step;
  }

  lemma BeatStarted(s: State, id: nat, on: bool)
    requires id !in s.beats
    ensures var v, c, n := s.config.version, s.cfgGen, s.now;
      Step(Step(Step(s, BeatList(id)), BeatStep(id, on)), BeatStep(id, on))
      == s.(beats := s.beats[id := Started(v, c, v, n + 1, s.privacyGen, n + 2)], now := n + 3)
  {
    var v, c, n := s.config.version, s.cfgGen, s.now;
    var s1 := s.(beats := s.beats[id := Listed(v)], now := n + 1);
    var s2 := s.(beats := s.beats[id := Snapped(v, c, v, n + 1)], now := n + 2);
    OneBeat(s, id, on);
    OneBeat(s1, id, on);
    OneBeat(s2, id, on);
    hide Step;
  }

  /** A heartbeat's next step: it notes the config generation, then the privacy one,
      fetches, and keeps the reading unless the camera was edited meanwhile. */
  lemma OneBeat(s: State, id: nat, on: bool)
    ensures id !in s.beats ==>
      Step(s, BeatList(id)) == s.(beats := s.beats[id := Listed(s.config.version)], now := s.now + 1)
    ensures id in s.beats ==>
      var s1, b := Step(s, BeatStep(id, on)), s.beats[id];
      && (b.Listed? ==>
            s1 == s.(beats := s.beats[id := Snapped(b.used, s.cfgGen, s.config.version, s.now)], now := s.now + 1))
      && (b.Snapped? ==>
            s1 == s.(beats := s.beats[id := Started(b.used, b.cfgGen, b.atSnap, b.cfgAt, s.privacyGen, s.now)],
                     now := s.now + 1))
      && (b.Started? ==>
            s1 == s.(beats := s.beats[id := Fetched(b.used, b.cfgGen, b.atSnap, b.cfgAt, b.gen, b.genAt, on, s.now)],
                     now := s.now + 1))
      && (b.Fetched? && b.cfgGen == s.cfgGen ==>
            s1 == s.(beats := s.beats[id := Cached(b.used, b.cfgGen, b.atSnap, b.cfgAt, b.gen, b.genAt, b.on,
                                                   b.readAt)], now := s.now + 1))
      && (b.Fetched? && b.cfgGen != s.cfgGen ==> s1 == s.(beats := s.beats - {id}, now := s.now + 1))
  {
    hide Toggle;
    hide Schedule;
    hide Edit;
    hide Apply;
  }
}
