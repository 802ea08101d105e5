/** Manual privacy, schedule ticks, heartbeat readings and camera edits of one
    camera: server/server.go, handlers_schedules.go and handlers_cameras.go as
    atomic steps. The camera's op lock and the admin lock (camMutateMu) are each
    held by one thread at a time, so the state records what their holder is doing;
    heartbeats in flight are as many as there are. The media engine is attached
    and the camera is not deleted meanwhile. */
module PauseServer {
  import opened Wrappers

  datatype Config = Config(version: nat, enabled: bool, privacyCap: bool)

  /** A heartbeat on its way: the version of the camera entry it works from, then
      the generations it read and when, then its reading. atSnap is the entry's
      version in the camera list when the config generation was read. */
  datatype Beat =
    | Listed(used: nat)
    | Snapped(used: nat, cfgGen: nat, atSnap: nat, cfgAt: nat)
    | Started(used: nat, cfgGen: nat, atSnap: nat, cfgAt: nat, gen: nat, genAt: nat)
    | Fetched(used: nat, cfgGen: nat, atSnap: nat, cfgAt: nat, gen: nat, genAt: nat, on: bool, readAt: nat)
    | Cached(used: nat, cfgGen: nat, atSnap: nat, cfgAt: nat, gen: nat, genAt: nat, on: bool, readAt: nat)

  /** What the holder of the camera's op lock is doing. */
  datatype Op =
    | Free
    | ToggleIn(enable: bool)
    | ToggleRecorded(enable: bool, off: bool)
    | BeatIn(beat: Beat)
    | BeatSet(on: bool, off: bool)
    | AdminHolds

  /** What the holder of the admin lock is doing: a schedule evaluation, or an edit. */
  datatype Admin =
    | Idle
    | Evaluating
    | Pending                       // off-hours changed, pause not applied yet
    | ApplyRead
    | Applying(manual: bool, off: bool)
    | EditWait(new_: Config)
    | EditRead(new_: Config)
    | EditRemove(new_: Config, was: bool)
    | EditAdd(new_: Config, was: bool)
    | EditUpdate(new_: Config, was: bool)
    | EditBump(new_: Config, was: bool)
    | EditDrop(new_: Config, was: bool)
    | EditRestore(new_: Config, was: bool)
    | EditPause
    | EditSeed

  /** A heartbeat that set the privacy state. */
  datatype Accepted = Accepted(readAt: nat, toggledAt: nat, bumpedAt: nat, used: nat, atSnap: nat, current: nat)

  /** engine is the pause flag, None while the camera is not supervised. now counts
      steps; toggledAt and bumpedAt are the last manual write and the last edit. */
  datatype State = State(
    config: Config, cfgGen: nat, privacy: bool, privacyGen: nat, schedOff: bool, engine: Option<bool>,
    admin: Admin, op: Op, beats: map<nat, Beat>,
    now: nat, toggledAt: nat, bumpedAt: nat, accepted: seq<Accepted>)

  function Initial(enabled: bool, privacyCap: bool, supervised: bool): State {
    State(Config(0, enabled, privacyCap), 0, false, 0, false, if supervised then Some(false) else None,
          Idle, Free, map[], 1, 0, 0, [])
  }

  datatype Action =
    | ToggleStart(enable: bool) | ToggleFail | ToggleRecord | ToggleApply
    | Tick | Evaluate(off: bool) | ApplyStep
    | EditStart(enabled: bool, privacyCap: bool) | EditStep(supervised: bool, id: nat)
    | BeatList(id: nat) | BeatStep(id: nat, on: bool) | BeatFail(id: nat) | BeatLock(id: nat)
    | BeatCheck | BeatApply

  function SetEngine(s: State, paused: bool): State {
    if s.engine.Some? then s.(engine := Some(paused)) else s
  }

  function Toggle(s: State, a: Action): State {
    match a
    case ToggleStart(enable) => if s.op.Free? then s.(op := ToggleIn(enable)) else s
    case ToggleFail => if s.op.ToggleIn? then s.(op := Free) else s
    case ToggleRecord =>
      if s.op.ToggleIn? then
        s.(privacy := s.op.enable, privacyGen := s.privacyGen + 1, toggledAt := s.now,
           op := ToggleRecorded(s.op.enable, s.schedOff))
      else s
    case ToggleApply =>
      if s.op.ToggleRecorded? then SetEngine(s, s.op.enable || s.op.off).(op := Free) else s
    case _ => s
  }

  function Schedule(s: State, a: Action): State {
    match a
    case Tick => if s.admin.Idle? then s.(admin := Evaluating) else s
    case Evaluate(off) =>
      if !s.admin.Evaluating? then s
      else if !s.config.enabled || off == s.schedOff then s.(admin := Idle)
      else s.(schedOff := off, admin := Pending)
    case ApplyStep =>
      (match s.admin
       case Pending => if s.op.Free? then s.(op := AdminHolds, admin := ApplyRead) else s
       case ApplyRead => s.(admin := Applying(s.privacy, s.schedOff))
       case Applying(manual, off) => SetEngine(s, manual || off).(op := Free, admin := Idle)
       case _ => s)
    case _ => s
  }

  /** The reconfigure section of an edit, one step at a time. */
  function Edit(s: State, supervised: bool, id: nat): State {
    match s.admin
    case EditWait(c) => if s.op.Free? then s.(op := AdminHolds, admin := EditRead(c)) else s
    case EditRead(c) => s.(admin := EditRemove(c, s.privacy))
    case EditRemove(c, was) => s.(engine := None, admin := EditAdd(c, was))
    case EditAdd(c, was) =>
      s.(engine := if c.enabled && supervised then Some(false) else None, admin := EditUpdate(c, was))
    case EditUpdate(c, was) => s.(config := c, admin := EditBump(c, was))
    case EditBump(c, was) => s.(cfgGen := s.cfgGen + 1, bumpedAt := s.now, admin := EditDrop(c, was))
    case EditDrop(c, was) => s.(privacy := false, schedOff := false, admin := EditRestore(c, was))
    case EditRestore(c, was) =>
      if was && c.enabled && c.privacyCap then
        s.(privacy := true, privacyGen := s.privacyGen + 1, toggledAt := s.now, admin := EditPause)
      else s.(op := Free, admin := EditSeed)
    case EditPause => SetEngine(s, true).(op := Free, admin := EditSeed)
    case EditSeed =>
      s.(beats := s.beats[id := Snapped(s.config.version, s.cfgGen, s.config.version, s.now)], admin := Evaluating)
    case _ => s
  }

  function Heartbeat(s: State, id: nat, on: bool): State {
    if id !in s.beats then s
    else match s.beats[id]
      case Listed(v) => s.(beats := s.beats[id := Snapped(v, s.cfgGen, s.config.version, s.now)])
      case Snapped(v, c, a, ca) => s.(beats := s.beats[id := Started(v, c, a, ca, s.privacyGen, s.now)])
      case Started(v, c, a, ca, g, ga) => s.(beats := s.beats[id := Fetched(v, c, a, ca, g, ga, on, s.now)])
      case Fetched(v, c, a, ca, g, ga, o, r) =>
        if c != s.cfgGen then s.(beats := s.beats - {id})
        else s.(beats := s.beats[id := Cached(v, c, a, ca, g, ga, o, r)])
      case Cached(_, _, _, _, _, _, _, _) => s
  }

  /** The last part of a heartbeat, under the op lock. */
  function Apply(s: State, a: Action): State {
    match a
    case BeatLock(id) =>
      if s.op.Free? && id in s.beats && s.beats[id].Cached? then
        s.(op := BeatIn(s.beats[id]), beats := s.beats - {id})
      else s
    case BeatCheck =>
      if !(s.op.BeatIn? && s.op.beat.Cached?) then s
      else
        var b := s.op.beat;
        if b.gen != s.privacyGen || b.cfgGen != s.cfgGen then s.(op := Free)
        else s.(privacy := b.on, op := BeatSet(b.on, s.schedOff),
                accepted := s.accepted + [Accepted(b.readAt, s.toggledAt, s.bumpedAt, b.used, b.atSnap,
                  s.config.version)])
    case BeatApply => if s.op.BeatSet? then SetEngine(s, s.op.on || s.op.off).(op := Free) else s
    case _ => s
  }

  function Act(s: State, a: Action): State {
    match a
    case ToggleStart(_) => Toggle(s, a)
    case ToggleFail => Toggle(s, a)
    case ToggleRecord => Toggle(s, a)
    case ToggleApply => Toggle(s, a)
    case Tick => Schedule(s, a)
    case Evaluate(_) => Schedule(s, a)
    case ApplyStep => Schedule(s, a)
    case EditStart(enabled, privacyCap) =>
      if s.admin.Idle? then s.(admin := EditWait(Config(s.config.version + 1, enabled, privacyCap))) else s
    case EditStep(supervised, id) => if s.admin.EditSeed? && id in s.beats then s else Edit(s, supervised, id)
    case BeatList(id) => if id in s.beats then s else s.(beats := s.beats[id := Listed(s.config.version)])
    case BeatStep(id, on) => Heartbeat(s, id, on)
    case BeatFail(id) => s.(beats := s.beats - {id})
    case _ => Apply(s, a)
  }

  function Step(s: State, a: Action): State {
    var s1 := Act(s, a);
    s1.(now := s.now + 1)
  }

  function Run(s: State, actions: seq<Action>): State
    decreases |actions|
  {
    if actions == [] then s else Run(Step(s, actions[0]), actions[1..])
  }

  // ----- the pause flag -----

  predicate Consistent(s: State) {
    s.engine.Some? ==> s.engine.value == (s.privacy || s.schedOff)
  }

  predicate InEdit(a: Admin) {
    a.EditRead? || a.EditRemove? || a.EditAdd? || a.EditUpdate? || a.EditBump? || a.EditDrop? || a.EditRestore?
      || a.EditPause?
  }

  /** The engine's flag is right, or whoever will set it already read the values
      that make it right. */
  predicate EngineOk(s: State) {
    && (s.op.AdminHolds? <==> InEdit(s.admin) || s.admin.ApplyRead? || s.admin.Applying?)
    && (match s.op
        case ToggleRecorded(enable, off) => s.privacy == enable && (s.admin.Pending? || off == s.schedOff)
        case BeatSet(on, off) => s.privacy == on && (s.admin.Pending? || off == s.schedOff)
        case AdminHolds =>
          && (s.admin.Applying? ==> s.admin.manual == s.privacy && s.admin.off == s.schedOff)
          && (s.admin.EditUpdate? || s.admin.EditBump? || s.admin.EditDrop? || s.admin.EditRestore?
              ==> s.engine != Some(true))
          && (s.admin.EditRestore? ==> !s.privacy && !s.schedOff)
          && (s.admin.EditPause? ==> s.privacy)
        case _ => s.admin.Pending? || Consistent(s))
  }

  // ----- heartbeats -----

  /** What a heartbeat's snapshots still tell while they match. */
  predicate BeatOk(s: State, b: Beat) {
    && (!b.Listed? ==>
          && b.cfgGen <= s.cfgGen && b.cfgAt < s.now
          && (b.cfgGen == s.cfgGen ==> s.bumpedAt < b.cfgAt && (s.config.version == b.atSnap || s.admin.EditBump?)))
    && (b.Started? || b.Fetched? || b.Cached? ==>
          b.gen <= s.privacyGen && b.cfgAt <= b.genAt < s.now && (b.gen == s.privacyGen ==> s.toggledAt < b.genAt))
    && (b.Fetched? || b.Cached? ==> b.genAt <= b.readAt < s.now)
  }

  ghost predicate BeatsOk(s: State) {
    && s.toggledAt < s.now && s.bumpedAt < s.now
    && (forall id | id in s.beats :: BeatOk(s, s.beats[id]))
    && (s.op.BeatIn? ==> s.op.beat.Cached? && BeatOk(s, s.op.beat))
  }

  /** An accepted reading was fetched after the last manual write and after the
      last edit; the camera entry it used is the current one exactly when it still
      was when the config generation was read. */
  predicate AcceptedOk(a: Accepted) {
    && a.toggledAt < a.readAt && a.bumpedAt < a.readAt
    && (a.used == a.current <==> a.used == a.atSnap)
  }

  ghost predicate Inv(s: State) {
    EngineOk(s) && BeatsOk(s) && forall k | 0 <= k < |s.accepted| :: AcceptedOk(s.accepted[k])
  }

  // ----- every step keeps it -----

  /** Time went on, and a generation moved wherever what it guards did. */
  predicate Later(s1: State, s: State) {
    && s.now < s1.now
    && (s1.cfgGen > s.cfgGen
        || (s1.cfgGen == s.cfgGen && s1.bumpedAt == s.bumpedAt
            && (s1.admin.EditBump? || (s1.config.version == s.config.version && !s.admin.EditBump?))))
    && (s1.privacyGen > s.privacyGen || (s1.privacyGen == s.privacyGen && s1.toggledAt == s.toggledAt))
  }

  lemma BeatLater(s1: State, s: State, b: Beat)
    requires BeatOk(s, b) && Later(s1, s)
    ensures BeatOk(s1, b)
  {
  }

  lemma ToggleOk(s: State, a: Action)
    requires EngineOk(s) && (a.ToggleStart? || a.ToggleFail? || a.ToggleRecord? || a.ToggleApply?)
    ensures EngineOk(Step(s, a))
    ensures s.toggledAt < s.now ==> Later(Step(s, a), s)
    ensures Step(s, a).beats == s.beats && Step(s, a).accepted == s.accepted
    ensures Step(s, a).op.BeatIn? ==> Step(s, a).op == s.op
  {
    hide Edit;
    hide Heartbeat;
    hide Apply;
    hide Schedule;
  }

  lemma ScheduleOk(s: State, a: Action)
    requires EngineOk(s) && (a.Tick? || a.Evaluate? || a.ApplyStep? || a.EditStart?)
    ensures EngineOk(Step(s, a)) && Later(Step(s, a), s)
    ensures Step(s, a).beats == s.beats && Step(s, a).accepted == s.accepted
    ensures Step(s, a).op.BeatIn? ==> Step(s, a).op == s.op
  {
    ScheduleEngineOk(s, a);
    hide Edit;
    hide Heartbeat;
    hide Apply;
    hide Toggle;
    hide EngineOk;
  }

  lemma ScheduleEngineOk(s: State, a: Action)
    requires EngineOk(s) && (a.Tick? || a.Evaluate? || a.ApplyStep? || a.EditStart?)
    ensures EngineOk(Step(s, a))
  {
    hide Edit;
    hide Heartbeat;
    hide Apply;
    hide Toggle;
  }

  lemma EditEngineOk(s: State, supervised: bool, id: nat)
    requires EngineOk(s)
    ensures EngineOk(Edit(s, supervised, id))
  {
  }

  /** What an edit's steps do besides. */
  ghost predicate EditEffect(s1: State, s: State, id: nat) {
    && s1.accepted == s.accepted && (s1.op.BeatIn? ==> s1.op == s.op) && s1.now == s.now
    && (s1.toggledAt == s.toggledAt || s1.toggledAt == s.now) && (s1.bumpedAt == s.bumpedAt || s1.bumpedAt == s.now)
    && Later(s1.(now := s.now + 1), s)
    && (s1.beats == s.beats
        || (s1.config == s.config && s1.cfgGen == s.cfgGen && s1.bumpedAt == s.bumpedAt
            && s1.beats == s.beats[id := Snapped(s.config.version, s.cfgGen, s.config.version, s.now)]))
  }

  /** Up to the new configuration. */
  lemma EditEffectsFirst(s: State, supervised: bool, id: nat)
    requires s.admin.EditWait? || s.admin.EditRead? || s.admin.EditRemove? || s.admin.EditAdd? || s.admin.EditUpdate?
    ensures EditEffect(Edit(s, supervised, id), s, id)
  {
  }

  lemma EditEffectsLast(s: State, supervised: bool, id: nat)
    requires s.admin.EditBump? || s.admin.EditDrop? || s.admin.EditRestore?
    ensures EditEffect(Edit(s, supervised, id), s, id)
  {
  }

  lemma EditEffectsOther(s: State, supervised: bool, id: nat)
    requires !(s.admin.EditWait? || s.admin.EditRead? || s.admin.EditRemove? || s.admin.EditAdd? || s.admin.EditUpdate?)
    requires !(s.admin.EditBump? || s.admin.EditDrop? || s.admin.EditRestore?)
    ensures EditEffect(Edit(s, supervised, id), s, id)
  {
  }

  lemma EditEffects(s: State, supervised: bool, id: nat)
    ensures EditEffect(Edit(s, supervised, id), s, id)
  {
    hide Edit;
    hide EditEffect;
    if s.admin.EditWait? || s.admin.EditRead? || s.admin.EditRemove? || s.admin.EditAdd? || s.admin.EditUpdate? {
      EditEffectsFirst(s, supervised, id);
    } else if s.admin.EditBump? || s.admin.EditDrop? || s.admin.EditRestore? {
      EditEffectsLast(s, supervised, id);
    } else {
      EditEffectsOther(s, supervised, id);
    }
  }

  lemma EditOk(s: State, supervised: bool, id: nat)
    requires EngineOk(s)
    ensures EngineOk(Step(s, EditStep(supervised, id)))
    ensures var s1 := Step(s, EditStep(supervised, id)); EditEffect(s1.(now := s.now), s, id)
  {
    EditEngineOk(s, supervised, id);
    EditEffects(s, supervised, id);
    NoEffect(s, id);
    EngineOkLater(s);
    EngineOkLater(Edit(s, supervised, id));
    hide Edit;
    hide Schedule;
    hide Heartbeat;
    hide Apply;
    hide Toggle;
    hide EngineOk;
    hide Later;
  }

  lemma NoEffect(s: State, id: nat)
    ensures EditEffect(s, s, id)
  {
  }

  lemma EngineOkLater(s: State)
    requires EngineOk(s)
    ensures forall now :: EngineOk(s.(now := now))
  {
  }

  lemma BeatsLater(s1: State, s: State)
    requires BeatsOk(s) && Later(s1, s) && s1.beats.Keys <= s.beats.Keys
    requires forall id | id in s1.beats :: s1.beats[id] == s.beats[id]
    requires s1.toggledAt < s1.now && s1.bumpedAt < s1.now && (s1.op.BeatIn? ==> s1.op == s.op)
    ensures BeatsOk(s1)
  {
    forall id | id in s1.beats ensures BeatOk(s1, s1.beats[id]) { BeatLater(s1, s, s.beats[id]); }
    if s1.op.BeatIn? { BeatLater(s1, s, s.op.beat); }
    hide BeatOk;
    hide Later;
  }

  /** One heartbeat moves on, the others wait. */
  lemma BeatMoves(s1: State, s: State, id: nat, b: Beat)
    requires BeatsOk(s) && Later(s1, s) && s1.beats == s.beats[id := b] && BeatOk(s1, b)
    requires s1.toggledAt < s1.now && s1.bumpedAt < s1.now && (s1.op.BeatIn? ==> s1.op == s.op)
    ensures BeatsOk(s1)
  {
    forall k | k in s1.beats ensures BeatOk(s1, s1.beats[k]) {
      if k != id { BeatLater(s1, s, s.beats[k]); }
    }
    if s1.op.BeatIn? { BeatLater(s1, s, s.op.beat); }
    hide BeatOk;
    hide Later;
  }

  lemma HeartbeatOk(s: State, id: nat, on: bool)
    requires Inv(s) && id in s.beats
    ensures Inv(Step(s, BeatStep(id, on)))
  {
    hide Edit;
    hide Schedule;
    hide Apply;
    hide Toggle;
    var s1 := Step(s, BeatStep(id, on));
    assert BeatOk(s, s.beats[id]);
    assert s1 == s.(now := s1.now, beats := s1.beats) && Later(s1, s);
    if id in s1.beats {
      assert BeatOk(s1, s1.beats[id]);
      assert s1.beats == s.beats[id := s1.beats[id]];
      hide Heartbeat;
      BeatMoves(s1, s, id, s1.beats[id]);
    } else {
      hide Heartbeat;
      BeatsLater(s1, s);
    }
    hide BeatsOk;
  }

  lemma ApplyEngineOk(s: State, a: Action)
    requires EngineOk(s) && s.toggledAt < s.now && (a.BeatLock? || a.BeatCheck? || a.BeatApply?)
    ensures EngineOk(Step(s, a)) && Later(Step(s, a), s)
  {
    hide Edit;
    hide Schedule;
    hide Heartbeat;
    hide Toggle;
  }

  lemma ApplyOk(s: State, a: Action)
    requires Inv(s) && (a.BeatLock? || a.BeatCheck? || a.BeatApply?)
    ensures Inv(Step(s, a))
  {
    hide Edit;
    hide Schedule;
    hide Heartbeat;
    hide Toggle;
    assert s.op.BeatIn? ==> !s.admin.EditBump?;
    hide EngineOk;
    var s1 := Step(s, a);
    ApplyEngineOk(s, a);
    if a.BeatLock? && s.op.Free? && a.id in s.beats && s.beats[a.id].Cached? {
      BeatsLater(s1.(op := Free), s);
      BeatLater(s1, s, s.beats[a.id]);
      assert BeatsOk(s1);
    } else {
      BeatsLater(s1, s);
      if |s1.accepted| > |s.accepted| { assert AcceptedOk(s1.accepted[|s.accepted|]); }
    }
  }

  /** Any step of any thread keeps the invariant. */
  lemma StepOk(s: State, a: Action)
    requires Inv(s)
    ensures Inv(Step(s, a))
  {
    var s1 := Step(s, a);
    match a
    case BeatStep(id, on) => if id in s.beats { HeartbeatOk(s, id, on); } else { BeatsLater(s1, s); }
    case BeatLock(_) => ApplyOk(s, a);
    case BeatCheck => ApplyOk(s, a);
    case BeatApply => ApplyOk(s, a);
    case BeatList(id) =>
      if id in s.beats { BeatsLater(s1, s); } else { BeatMoves(s1, s, id, Listed(s.config.version)); }
    case BeatFail(id) => BeatsLater(s1, s);
    case EditStep(supervised, id) =>
      EditOk(s, supervised, id);
      if s1.beats == s.beats { hide Step; BeatsLater(s1, s); }
      else {
        hide Step;
        var b := Snapped(s.config.version, s.cfgGen, s.config.version, s.now);
        assert BeatOk(s1, b);
        BeatMoves(s1, s, id, b);
      }
    case _ =>
      if a.Tick? || a.Evaluate? || a.ApplyStep? || a.EditStart? { ScheduleOk(s, a); } else { ToggleOk(s, a); }
      BeatsLater(s1, s);
  }

  lemma {:induction false} RunOk(s: State, actions: seq<Action>)
    requires Inv(s)
    ensures Inv(Run(s, actions))
    decreases |actions|
  {
    if actions != [] {
      StepOk(s, actions[0]);
      RunOk(Step(s, actions[0]), actions[1..]);
    }
  }

  /** Over every interleaving: whenever the op lock is free and no schedule change
      waits to be applied, a supervised camera is paused exactly when it is in
      manual privacy or outside its schedule. */
  lemma PauseIsPrivacyOrOffHours(enabled: bool, privacyCap: bool, supervised: bool, actions: seq<Action>)
    ensures var s := Run(Initial(enabled, privacyCap, supervised), actions);
      s.op.Free? && !s.admin.Pending? && s.engine.Some? ==> s.engine.value == (s.privacy || s.schedOff)
  {
    RunOk(Initial(enabled, privacyCap, supervised), actions);
  }

  /** Every heartbeat that set the privacy state carried a reading fetched after
      the last manual write and after the last edit. It was a reading of the
      camera as configured now exactly when the camera entry it worked from was
      still current when it read the configuration generation. */
  lemma HeartbeatsAreFresh(enabled: bool, privacyCap: bool, supervised: bool, actions: seq<Action>, k: nat)
    ensures var s := Run(Initial(enabled, privacyCap, supervised), actions);
      k < |s.accepted| ==>
        var a := s.accepted[k];
        && a.toggledAt < a.readAt && a.bumpedAt < a.readAt
        && (a.used == a.current <==> a.used == a.atSnap)
  {
    RunOk(Initial(enabled, privacyCap, supervised), actions);
  }

  /** The other case happens: heartbeatLoop lists the cameras, an edit completes,
      and only then is the configuration generation read; the reading of the old
      device is accepted. */
  lemma StaleListAccepted()
    ensures exists actions :: var s := Run(Initial(true, true, true), actions);
      s.accepted != [] && s.accepted[0].used != s.accepted[0].current
  {
    var s0, e, b := Initial(true, true, true), EditStep(true, 9), BeatStep(1, true);
    var half, rest := [BeatList(1), EditStart(true, true), e, e, e, e, e, e, e, e],
        [b, b, b, b, BeatLock(1), BeatCheck];
    StaleEdit();
    hide Step;
    hide Initial;
    StaleBeat(Run(s0, half));
    RunSplit(s0, half, rest);
    hide Run;
    assert Run(s0, half + rest).accepted != [];
  }

  /** The rest of that heartbeat, after the edit. */
  lemma StaleBeat(s1: State)
    requires s1.op == Free && s1.config.version == 1 && s1.cfgGen == 1 && s1.privacyGen == 0 && s1.now == 11
    requires s1.beats == map[1 := Listed(0)] && s1.accepted == []
    ensures var b := BeatStep(1, true);
      var s := Run(s1, [b, b, b, b, BeatLock(1), BeatCheck]);
      s.accepted != [] && s.accepted[0].used == 0 && s.accepted[0].current == 1
  {
    var b := BeatStep(1, true);
    ListedBeat(s1);
    var s3 := s1.(beats := map[1 := Started(0, 1, 1, 11, 0, 12)], now := 13);
    StartedBeat(s3);
    var s5 := s1.(beats := map[1 := Cached(0, 1, 1, 11, 0, 12, true, 13)], now := 15);
    CachedBeat(s5);
    hide Step;
    RunTwo(s1, b, b, [b, b, BeatLock(1), BeatCheck]);
    RunTwo(s3, b, b, [BeatLock(1), BeatCheck]);
    RunTwo(s5, BeatLock(1), BeatCheck, []);
  }

  lemma ListedBeat(s: State)
    requires s.config.version == 1 && s.cfgGen == 1 && s.privacyGen == 0 && s.now == 11
    requires s.beats == map[1 := Listed(0)]
    ensures var b := BeatStep(1, true);
      Step(Step(s, b), b) == s.(beats := map[1 := Started(0, 1, 1, 11, 0, 12)], now := 13)
  {
    hide Toggle;
    hide Schedule;
    hide Edit;
    hide Apply;
    assert Step(s, BeatStep(1, true)) == s.(beats := map[1 := Snapped(0, 1, 1, 11)], now := 12);
  }

  lemma StartedBeat(s: State)
    requires s.cfgGen == 1 && s.now == 13 && s.beats == map[1 := Started(0, 1, 1, 11, 0, 12)]
    ensures var b := BeatStep(1, true);
      Step(Step(s, b), b) == s.(beats := map[1 := Cached(0, 1, 1, 11, 0, 12, true, 13)], now := 15)
  {
    hide Toggle;
    hide Schedule;
    hide Edit;
    hide Apply;
    assert Step(s, BeatStep(1, true)) == s.(beats := map[1 := Fetched(0, 1, 1, 11, 0, 12, true, 13)], now := 14);
  }

  lemma CachedBeat(s: State)
    requires s.op == Free && s.config.version == 1 && s.cfgGen == 1 && s.privacyGen == 0 && s.accepted == []
    requires s.beats == map[1 := Cached(0, 1, 1, 11, 0, 12, true, 13)]
    ensures var s1 := Step(Step(s, BeatLock(1)), BeatCheck);
      s1.accepted != [] && s1.accepted[0].used == 0 && s1.accepted[0].current == 1
  {
    hide Toggle;
    hide Schedule;
    hide Edit;
    hide Heartbeat;
    var s1 := Step(s, BeatLock(1));
    assert s1 == s.(op := BeatIn(Cached(0, 1, 1, 11, 0, 12, true, 13)), beats := s1.beats, now := s1.now);
  }

  /** The list is read, then an edit runs up to the point where its lock is free. */
  lemma StaleEdit()
    ensures var e := EditStep(true, 9);
      var s := Run(Initial(true, true, true), [BeatList(1), EditStart(true, true), e, e, e, e, e, e, e, e]);
      && s.op == Free && s.config.version == 1 && s.cfgGen == 1 && s.privacyGen == 0 && s.now == 11
      && s.beats == map[1 := Listed(0)] && s.accepted == []
  {
    var s0, e, c := Initial(true, true, true), EditStep(true, 9), Config(1, true, true);
    var s2 := s0.(beats := map[1 := Listed(0)], admin := EditWait(c), now := 3);
    ListAndEdit();
    EditFirstHalf(s2, c);
    var s6 := s2.(op := AdminHolds, engine := Some(false), admin := EditUpdate(c, false), now := 7);
    EditSecondHalf(s6, c);
    hide Step;
    RunTwo(s0, BeatList(1), EditStart(true, true), [e, e, e, e, e, e, e, e]);
    RunTwo(s2, e, e, [e, e, e, e, e, e]);
    RunTwo(Step(Step(s2, e), e), e, e, [e, e, e, e]);
    RunTwo(s6, e, e, [e, e]);
    RunTwo(Step(Step(s6, e), e), e, e, []);
  }

  lemma ListAndEdit()
    ensures var s0 := Initial(true, true, true);
      Step(Step(s0, BeatList(1)), EditStart(true, true))
      == s0.(beats := map[1 := Listed(0)], admin := EditWait(Config(1, true, true)), now := 3)
  {
    hide Toggle;
    hide Schedule;
    hide Heartbeat;
    hide Apply;
    hide Edit;
  }

  lemma EditFirstHalf(s: State, c: Config)
    requires s.admin == EditWait(c) && s.op.Free? && !s.privacy && c.enabled
    ensures var e := EditStep(true, 9);
      Step(Step(Step(Step(s, e), e), e), e)
      == s.(op := AdminHolds, engine := Some(false), admin := EditUpdate(c, false), now := s.now + 4)
  {
    hide Toggle;
    hide Schedule;
    hide Heartbeat;
    hide Apply;
    var e := EditStep(true, 9);
    var s2 := Step(Step(s, e), e);
    assert s2 == s.(op := AdminHolds, admin := EditRemove(c, false), now := s.now + 2);
  }

  lemma EditSecondHalf(s: State, c: Config)
    requires s.admin == EditUpdate(c, false) && s.op.AdminHolds?
    ensures var e := EditStep(true, 9);
      Step(Step(Step(Step(s, e), e), e), e)
      == s.(op := Free, config := c, cfgGen := s.cfgGen + 1, bumpedAt := s.now + 1, privacy := false, schedOff := false,
            admin := EditSeed, now := s.now + 4)
  {
    hide Toggle;
    hide Schedule;
    hide Heartbeat;
    hide Apply;
    var e := EditStep(true, 9);
    var s2 := Step(Step(s, e), e);
    assert s2 == s.(config := c, cfgGen := s.cfgGen + 1, bumpedAt := s.now + 1,
                    admin := EditDrop(c, false), now := s.now + 2);
  }

  lemma RunSplit(s: State, first: seq<Action>, rest: seq<Action>)
    ensures Run(s, first + rest) == Run(Run(s, first), rest)
    decreases |first|
  {
    hide Step;
    if first == [] {
      assert first + rest == rest;
    } else {
      assert (first + rest)[1..] == first[1..] + rest;
      RunSplit(Step(s, first[0]), first[1..], rest);
    }
  }

  lemma RunTwo(s: State, a: Action, b: Action, rest: seq<Action>)
    ensures Run(s, [a, b] + rest) == Run(Step(Step(s, a), b), rest)
  {
    hide Step;
    assert ([a, b] + rest)[1..] == [b] + rest && ([b] + rest)[1..] == rest;
  }

  // ----- the sections in their own form -----

  /** What a section the op lock protects does when no other thread's step falls
      inside it; steps are the atomic steps it consists of. */
  class Server {
    var config: Config
    var cfgGen: nat
    var privacy: bool
    var privacyGen: nat
    var schedOff: bool
    var engine: Option<bool>
    ghost var admin: Admin
    ghost var op: Op
    ghost var beats: map<nat, Beat>
    ghost var now: nat
    ghost var toggledAt: nat
    ghost var bumpedAt: nat
    ghost var accepted: seq<Accepted>

    ghost function Whole(): State
      reads this
    {
      State(config, cfgGen, privacy, privacyGen, schedOff, engine, admin, op, beats,
            now, toggledAt, bumpedAt, accepted)
    }

    method SetEnginePrivacy(on: bool)
      modifies `engine
      ensures Whole() == SetEngine(old(Whole()), on)
    {
      if engine.Some? { engine := Some(on); }
    }

    method SetManualPrivacyLocked(on: bool, ghost at: nat)
      modifies `privacy, `privacyGen, `toggledAt
      ensures Whole() == old(Whole()).(privacy := on, privacyGen := old(privacyGen) + 1, toggledAt := at)
    {
      privacy, privacyGen := on, privacyGen + 1;
      toggledAt := at;
    }

    /** handlePrivacy under the op lock, once the camera's firmware agreed. */
    method HandlePrivacy(enable: bool)
      requires op.Free?
      modifies this
      ensures Whole() == Step(Step(Step(old(Whole()), ToggleStart(enable)), ToggleRecord), ToggleApply)
      ensures privacy == enable && schedOff == old(schedOff) && engine.Some? == old(engine.Some?)
      ensures engine.Some? ==> engine.value == (enable || old(schedOff))
    {
      ToggleSteps(Whole(), enable);
      hide Step;
      SetManualPrivacyLocked(enable, now + 1);
      var off := schedOff;
      SetEnginePrivacy(enable || off);
      now := now + 3;
    }

    /** applyPause, after an evaluation that changed schedOff. */
    method ApplyPause()
      requires op.Free? && admin.Pending?
      modifies this
      ensures Whole() == Step(Step(Step(old(Whole()), ApplyStep), ApplyStep), ApplyStep)
    {
      PauseSteps(Whole());
      hide Step;
      var manual, off := privacy, schedOff;
      SetEnginePrivacy(manual || off);
      admin, now := Idle, now + 3;
    }

    /** The end of a heartbeat: the reading of generation gen is taken unless a
        toggle or an edit landed since. */
    method ApplyReading(ghost id: nat, gen: nat, gotCfgGen: nat, on: bool)
      requires op.Free? && id in beats && beats[id].Cached?
      requires beats[id].gen == gen && beats[id].cfgGen == gotCfgGen && beats[id].on == on
      modifies this
      ensures Whole() == ReadingApplied(old(Whole()), id)
    {
      ReadingSteps(Whole(), id);
      hide ReadingApplied;
      ghost var b := beats[id];
      if privacyGen != gen || cfgGen != gotCfgGen {
        beats, now := beats - {id}, now + 2;
        return;
      }
      privacy := on;
      var off := schedOff;
      SetEnginePrivacy(on || off);
      accepted := accepted + [Accepted(b.readAt, toggledAt, bumpedAt, b.used, b.atSnap, config.version)];
      beats, now := beats - {id}, now + 3;
    }

    /** dropCameraState: the generation first. */
    method DropCameraState(ghost at: nat)
      modifies `cfgGen, `bumpedAt, `privacy, `schedOff
      ensures Whole() == old(Whole()).(cfgGen := old(cfgGen) + 1, bumpedAt := at, privacy := false, schedOff := false)
    {
      cfgGen := cfgGen + 1;
      bumpedAt := at;
      privacy, schedOff := false, false;
    }

    /** The engine has no update in place: the old pipeline goes, a fresh one comes. */
    method ReplacePipeline(c: Config, supervised: bool)
      modifies `engine, `config
      ensures Whole() == old(Whole()).(config := c, engine := if c.enabled && supervised then Some(false) else None)
    {
      engine := None;
      if c.enabled && supervised { engine := Some(false); }
      config := c;
    }

    /** The reconfigure section of handleUpdateCamera, up to the unlock. */
    method Reconfigure(c: Config, supervised: bool)
      requires admin == EditWait(c) && op.Free?
      modifies this
      ensures Whole() == Reconfigured(old(Whole()), supervised)
    {
      ReconfigureSteps(Whole(), c, supervised);
      hide Reconfigured;
      var wasPrivate := privacy;
      ReplacePipeline(c, supervised);
      DropCameraState(now + 5);
      var back := wasPrivate && c.enabled && c.privacyCap;
      if back {
        SetManualPrivacyLocked(true, now + 7);
        SetEnginePrivacy(true);
      }
      admin, now := EditSeed, now + if back then 9 else 8;
    }
  }

  /** A manual toggle's steps. */
  lemma ToggleSteps(s: State, enable: bool)
    requires s.op.Free?
    ensures Step(Step(Step(s, ToggleStart(enable)), ToggleRecord), ToggleApply)
         == SetEngine(s, enable || s.schedOff).(privacy := enable, privacyGen := s.privacyGen + 1,
                                                toggledAt := s.now + 1, now := s.now + 3)
  {
    ToggleStep(s, enable);
    var s1 := s.(op := ToggleIn(enable), now := s.now + 1);
    ToggleStep(s1, enable);
    ToggleStep(s1.(privacy := enable, privacyGen := s.privacyGen + 1, toggledAt := s.now + 1,
                   op := ToggleRecorded(enable, s.schedOff), now := s.now + 2), enable);
    hide Step;
  }

  lemma ToggleStep(s: State, enable: bool)
    ensures s.op.Free? ==> Step(s, ToggleStart(enable)) == s.(op := ToggleIn(enable), now := s.now + 1)
    ensures s.op.ToggleIn? ==>
      Step(s, ToggleRecord) == s.(privacy := s.op.enable, privacyGen := s.privacyGen + 1, toggledAt := s.now,
                                  op := ToggleRecorded(s.op.enable, s.schedOff), now := s.now + 1)
    ensures s.op.ToggleRecorded? ==>
      Step(s, ToggleApply) == SetEngine(s, s.op.enable || s.op.off).(op := Free, now := s.now + 1)
  {
    hide Schedule;
    hide Heartbeat;
    hide Edit;
    hide Apply;
  }

  lemma PauseSteps(s: State)
    requires s.op.Free? && s.admin.Pending?
    ensures Step(Step(Step(s, ApplyStep), ApplyStep), ApplyStep)
         == SetEngine(s, s.privacy || s.schedOff).(admin := Idle, now := s.now + 3)
  {
    ReadStep(s);
    var s1 := s.(op := AdminHolds, admin := ApplyRead, now := s.now + 1);
    ReadStep(s1);
    ReadStep(s1.(admin := Applying(s.privacy, s.schedOff), now := s.now + 2));
    hide Step;
  }

  /** One step of the schedule's locked section. */
  lemma ReadStep(s: State)
    ensures s.op.Free? && s.admin.Pending? ==>
      Step(s, ApplyStep) == s.(op := AdminHolds, admin := ApplyRead, now := s.now + 1)
    ensures s.admin.ApplyRead? ==>
      Step(s, ApplyStep) == s.(admin := Applying(s.privacy, s.schedOff), now := s.now + 1)
    ensures s.admin.Applying? ==>
      Step(s, ApplyStep)
      == SetEngine(s, s.admin.manual || s.admin.off).(op := Free, admin := Idle, now := s.now + 1)
  {
    hide Toggle;
    hide Heartbeat;
    hide Edit;
    hide Apply;
  }

  /** A cached heartbeat's steps under the op lock. */
  function ReadingApplied(s: State, id: nat): State {
    var s2 := Step(Step(s, BeatLock(id)), BeatCheck);
    if s2.op.BeatSet? then Step(s2, BeatApply) else s2
  }

  lemma ReadingSteps(s: State, id: nat)
    requires s.op.Free? && id in s.beats && s.beats[id].Cached?
    ensures var b := s.beats[id];
      var kept := s.(beats := s.beats - {id});
      ReadingApplied(s, id) ==
        if b.gen != s.privacyGen || b.cfgGen != s.cfgGen then kept.(now := s.now + 2)
        else
          SetEngine(kept, b.on || s.schedOff).(
            privacy := b.on, now := s.now + 3,
            accepted := s.accepted + [Accepted(b.readAt, s.toggledAt, s.bumpedAt, b.used, b.atSnap, s.config.version)])
  {
    hide Toggle;
    hide Heartbeat;
    hide Edit;
    hide Schedule;
    assert Step(s, BeatLock(id)) == s.(op := BeatIn(s.beats[id]), beats := s.beats - {id}, now := s.now + 1);
  }

  /** The edit's steps from its lock to its unlock. */
  function Reconfigured(s: State, supervised: bool): State {
    var s4 := FourEdits(s, supervised);
    var s8 := FourEdits(s4, supervised);
    if s8.admin.EditPause? then Step(s8, EditStep(supervised, 0)) else s8
  }

  function FourEdits(s: State, supervised: bool): State {
    var e := EditStep(supervised, 0);
    Step(Step(Step(Step(s, e), e), e), e)
  }

  lemma FirstFour(s: State, c: Config, supervised: bool)
    requires s.admin == EditWait(c) && s.op.Free?
    ensures FourEdits(s, supervised) ==
      s.(op := AdminHolds, engine := if c.enabled && supervised then Some(false) else None,
         admin := EditUpdate(c, s.privacy), now := s.now + 4)
  {
    hide Toggle;
    hide Schedule;
    hide Heartbeat;
    hide Apply;
    var e := EditStep(supervised, 0);
    var s2 := s.(op := AdminHolds, admin := EditRemove(c, s.privacy), now := s.now + 2);
    assert Step(Step(s, e), e) == s2;
    RemoveSteps(s2, c, s.privacy, supervised);
    hide Step;
  }

  lemma RemoveSteps(s: State, c: Config, was: bool, supervised: bool)
    requires s.admin == EditRemove(c, was)
    ensures var e := EditStep(supervised, 0);
      Step(Step(s, e), e) ==
      s.(engine := if c.enabled && supervised then Some(false) else None, admin := EditUpdate(c, was), now := s.now + 2)
  {
    hide Toggle;
    hide Schedule;
    hide Heartbeat;
    hide Apply;
    var e := EditStep(supervised, 0);
    assert Step(s, e) == s.(engine := None, admin := EditAdd(c, was), now := s.now + 1);
  }

  lemma LastFour(s: State, c: Config, was: bool, supervised: bool)
    requires s.admin == EditUpdate(c, was) && s.op.AdminHolds?
    ensures var back := was && c.enabled && c.privacyCap;
      FourEdits(s, supervised) ==
      s.(config := c, cfgGen := s.cfgGen + 1, bumpedAt := s.now + 1, privacy := back, schedOff := false,
         privacyGen := if back then s.privacyGen + 1 else s.privacyGen,
         toggledAt := if back then s.now + 3 else s.toggledAt,
         op := if back then AdminHolds else Free, admin := if back then EditPause else EditSeed, now := s.now + 4)
  {
    hide Toggle;
    hide Schedule;
    hide Heartbeat;
    hide Apply;
    var e := EditStep(supervised, 0);
    var s2 := s.(config := c, cfgGen := s.cfgGen + 1, bumpedAt := s.now + 1,
                 admin := EditDrop(c, was), now := s.now + 2);
    assert Step(Step(s, e), e) == s2;
    DropSteps(s2, c, was, supervised);
    hide Step;
  }

  lemma DropSteps(s: State, c: Config, was: bool, supervised: bool)
    requires s.admin == EditDrop(c, was) && s.op.AdminHolds?
    ensures var e := EditStep(supervised, 0);
      var back := was && c.enabled && c.privacyCap;
      Step(Step(s, e), e) ==
      s.(privacy := back, schedOff := false,
         privacyGen := if back then s.privacyGen + 1 else s.privacyGen,
         toggledAt := if back then s.now + 1 else s.toggledAt,
         op := if back then AdminHolds else Free, admin := if back then EditPause else EditSeed, now := s.now + 2)
  {
    hide Toggle;
    hide Schedule;
    hide Heartbeat;
    hide Apply;
    var e := EditStep(supervised, 0);
    assert Step(s, e) == s.(privacy := false, schedOff := false, admin := EditRestore(c, was), now := s.now + 1);
  }

  /** dropCameraState step by step: the config generation moves while the old flags
      still stand, and they are dropped in a later step that leaves it alone. */
  lemma GenerationMovesFirst(s: State, c: Config, was: bool, supervised: bool)
    requires s.admin == EditBump(c, was)
    ensures var e := EditStep(supervised, 0);
      var s1 := Step(s, e);
      var s2 := Step(s1, e);
      && s1.cfgGen == s.cfgGen + 1 && s1.bumpedAt == s.now && s1.privacy == s.privacy && s1.schedOff == s.schedOff
      && s2.cfgGen == s1.cfgGen && s2.bumpedAt == s1.bumpedAt && !s2.privacy && !s2.schedOff
      && s2.admin == EditRestore(c, was) && s2.op == s.op && s2.engine == s.engine
  {
    hide Toggle;
    hide Schedule;
    hide Heartbeat;
    hide Apply;
  }

  lemma ReconfigureSteps(s: State, c: Config, supervised: bool)
    requires s.admin == EditWait(c) && s.op.Free?
    ensures var back := s.privacy && c.enabled && c.privacyCap;
      var up := c.enabled && supervised;
      Reconfigured(s, supervised) ==
      s.(config := c, cfgGen := s.cfgGen + 1, bumpedAt := s.now + 5, privacy := back, schedOff := false,
         privacyGen := if back then s.privacyGen + 1 else s.privacyGen,
         toggledAt := if back then s.now + 7 else s.toggledAt,
         engine := if up then Some(back) else None,
         admin := EditSeed, now := s.now + if back then 9 else 8)
  {
    hide Step;
    hide FourEdits;
    FirstFour(s, c, supervised);
    var s4 := FourEdits(s, supervised);
    LastFour(s4, c, s.privacy, supervised);
    var s8 := FourEdits(s4, supervised);
    if s8.admin.EditPause? { PauseStep(s8, supervised); }
  }

  lemma PauseStep(s: State, supervised: bool)
    requires s.admin.EditPause?
    ensures Step(s, EditStep(supervised, 0)) == SetEngine(s, true).(op := Free, admin := EditSeed, now := s.now + 1)
  {
    hide Toggle;
    hide Schedule;
    hide Heartbeat;
    hide Apply;
  }
}
