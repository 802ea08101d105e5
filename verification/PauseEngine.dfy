/** The engine's retry loop against pause, resume and removal: media/engine.go and
    the connect steps of recorder.go's Start, as atomic steps over shared state. */
module PauseEngine {
  import opened Wrappers

  /** An RTSP client: created and published, dialled, playing, or closed. */
  datatype Status = Published | Dialled | Live | Closed

  /** A session's way through Start: dial; DESCRIBE and SETUP; ShouldStop, which
      reads the pause flag and then the context; PLAY; client.Wait; the segment
      finalized; the deferred Close. */
  datatype Phase = Dialling | Preparing | AskPaused | AskCancelled | Playing | Streaming | Ended | Returning

  /** Where the retry loop is: about to read the pause flag, parked on a resume
      channel, about to read the context, about to create session n, inside it,
      past it, backing off, or gone. */
  datatype Loop =
    | Park
    | Waiting(ch: nat)
    | Check
    | Connect
    | In(phase: Phase, n: nat)
    | AfterStart
    | Backoff
    | Exited

  /** Why a Close is running: the pause of that epoch, or the removal. */
  datatype Reason = Pausing(epoch: nat) | Removing

  /** Progress of a Close: flag set, client read, client closed. */
  datatype Stage = Flagged | Holding(client: Option<nat>) | Closing

  datatype Stopper = Stopper(reason: Reason, stage: Stage)

  /** resumeCh numbers the open resume channel; every lower one is closed. epoch
      counts the pauses that took effect; settled and removed say that the current
      pause, or the removal, has returned. */
  datatype State = State(
    paused: bool, cancelled: bool, resumeCh: nat,
    loop: Loop, sessions: seq<Status>, client: Option<nat>, writing: bool,
    stoppers: map<nat, Stopper>, epoch: nat, settled: bool, removed: bool)

  const INITIAL: State := State(false, false, 0, Park, [], None, false, map[], 0, false, false)

  /** One atomic step. The loop's carries the environment's answer (a dial or a
      request that succeeds, a context that wins a select). */
  datatype Action =
    | Advance(ok: bool)
    | Packet
    | Pause(id: nat)
    | Resume
    | Remove(id: nat)
    | Stop(id: nat)

  function SetStatus(s: State, n: nat, to: Status): State {
    if n < |s.sessions| then s.(sessions := s.sessions[n := to]) else s
  }

  function StatusOf(s: State, n: nat): Status {
    if n < |s.sessions| then s.sessions[n] else Closed
  }

  function AdvanceSession(s: State, phase: Phase, n: nat, ok: bool): State {
    match phase
    case Dialling =>
      if ok then SetStatus(s, n, Dialled).(loop := In(Preparing, n))
      else SetStatus(s, n, Closed).(client := None, loop := AfterStart)
    case Preparing => s.(loop := In(if ok && StatusOf(s, n) == Dialled then AskPaused else Returning, n))
    case AskPaused => s.(loop := In(if s.paused then Returning else AskCancelled, n))
    case AskCancelled => s.(loop := In(if s.cancelled then Returning else Playing, n))
    case Playing =>
      if ok && StatusOf(s, n) == Dialled then SetStatus(s, n, Live).(loop := In(Streaming, n))
      else s.(loop := In(Returning, n))
    case Streaming =>
      if !ok || StatusOf(s, n) == Closed then SetStatus(s, n, Closed).(loop := In(Ended, n)) else s
    case Ended => s.(writing := false, loop := In(Returning, n))
    case Returning => SetStatus(s, n, Closed).(loop := AfterStart)
  }

  function AdvanceLoop(s: State, ok: bool): State {
    match s.loop
    case Park => s.(loop := if s.paused then Waiting(s.resumeCh) else Check)
    case Waiting(ch) =>
      if ch < s.resumeCh then s.(loop := Park)
      else if s.cancelled then s.(loop := Check)
      else s
    case Check => s.(loop := if s.cancelled then Exited else Connect)
    case Connect =>
      if !ok then s.(writing := false, loop := AfterStart)
      else
        var n := |s.sessions|;
        s.(writing := false, sessions := s.sessions + [Published], client := Some(n), loop := In(Dialling, n))
    case In(phase, n) => AdvanceSession(s, phase, n, ok)
    case AfterStart => s.(loop := if s.paused then Park else Backoff)
    case Backoff => s.(loop := if s.cancelled && ok then Exited else Park)
    case Exited => s
  }

  /** Closing a client that was not dialled yet has no effect. */
  function CloseClient(s: State, c: Option<nat>): State {
    if c.Some? && StatusOf(s, c.value) in {Dialled, Live} then SetStatus(s, c.value, Closed) else s
  }

  function AdvanceStopper(s: State, id: nat): State {
    if id !in s.stoppers then s
    else
      var st := s.stoppers[id];
      match st.stage
      case Flagged => s.(stoppers := s.stoppers[id := st.(stage := Holding(s.client))])
      case Holding(c) => CloseClient(s, c).(stoppers := s.stoppers[id := st.(stage := Closing)])
      case Closing =>
        s.(writing := false, stoppers := s.stoppers - {id},
           settled := s.settled || (s.paused && st.reason == Pausing(s.epoch)),
           removed := s.removed || st.reason == Removing)
  }

  function Step(s: State, a: Action): State {
    match a
    case Advance(ok) => AdvanceLoop(s, ok)
    case Packet => if exists n :: 0 <= n < |s.sessions| && s.sessions[n] == Live then s.(writing := true) else s
    case Pause(id) =>
      if s.paused || id in s.stoppers then s
      else s.(paused := true, epoch := s.epoch + 1, settled := false,
              stoppers := s.stoppers[id := Stopper(Pausing(s.epoch + 1), Flagged)])
    case Resume => if s.paused then s.(paused := false, resumeCh := s.resumeCh + 1, settled := false) else s
    case Remove(id) =>
      if s.cancelled || id in s.stoppers then s
      else s.(cancelled := true, stoppers := s.stoppers[id := Stopper(Removing, Flagged)])
    case Stop(id) => AdvanceStopper(s, id)
  }

  function Run(s: State, actions: seq<Action>): State
    decreases |actions|
  {
    if actions == [] then s else Run(Step(s, actions[0]), actions[1..])
  }

  // ----- the invariant -----

  predicate StatusFits(phase: Phase, st: Status) {
    match phase
    case Dialling => st == Published
    case Ended => st == Closed
    case Streaming => st == Live || st == Closed
    case _ => st == Dialled || st == Closed
  }

  /** Only the session the loop works on may be open, and the published client is
      that one. */
  ghost predicate LoopOk(s: State) {
    && (s.client.Some? ==> s.client.value < |s.sessions|)
    && (forall m | 0 <= m < |s.sessions| && !(s.loop.In? && s.loop.n == m) :: s.sessions[m] == Closed)
    && (s.loop.In? ==>
          s.loop.n < |s.sessions| && s.client == Some(s.loop.n) && StatusFits(s.loop.phase, s.sessions[s.loop.n]))
  }

  /** The session goes on to PLAY whatever the pause flag becomes. */
  predicate PastPause(l: Loop) {
    l.In? && l.phase in {AskCancelled, Playing, Streaming}
  }

  predicate PastCancel(l: Loop) {
    l.In? && l.phase in {Playing, Streaming}
  }

  predicate Past(l: Loop, cancel: bool) {
    if cancel then PastCancel(l) else PastPause(l)
  }

  /** What a Close in progress already guarantees about a session past its check. */
  ghost predicate StageOk(s: State, cancel: bool, stage: Stage) {
    Past(s.loop, cancel) ==>
      match stage
      case Flagged => true
      case Holding(c) => c == Some(s.loop.n)
      case Closing => StatusOf(s, s.loop.n) == Closed
  }

  /** The stop a Close serves is still wanted: the camera is still in the pause it
      is for, or was removed. */
  predicate Wanted(s: State, reason: Reason) {
    if reason.Removing? then s.cancelled else s.paused && reason.epoch == s.epoch
  }

  ghost predicate StoppersOk(s: State) {
    forall id | id in s.stoppers ::
      var st := s.stoppers[id];
      && (st.reason.Pausing? ==> st.reason.epoch <= s.epoch) && (st.reason.Removing? ==> s.cancelled)
      && (Wanted(s, st.reason) ==> StageOk(s, st.reason.Removing?, st.stage))
  }

  ghost predicate Quiet(s: State, cancel: bool) {
    !s.writing && (Past(s.loop, cancel) ==> StatusOf(s, s.loop.n) == Closed)
  }

  ghost predicate Inv(s: State) {
    && LoopOk(s) && StoppersOk(s)
    && (s.settled ==> s.paused && Quiet(s, false))
    && (s.removed ==> s.cancelled && Quiet(s, true))
    && (s.loop.Waiting? ==> s.loop.ch < s.resumeCh || (s.loop.ch == s.resumeCh && s.paused))
    && (s.loop.Exited? ==> s.cancelled)
    && (s.writing ==> s.loop.In? && s.loop.phase in {Streaming, Ended})
  }

  /** What the loop's steps leave alone, and what they may do to its session. */
  ghost predicate LoopStep(s1: State, s: State) {
    && s1 == s.(loop := s1.loop, sessions := s1.sessions, client := s1.client, writing := s1.writing)
    && (s1.writing ==> s.writing)
    && (s1.writing && s.loop.In? && s.loop.phase in {Streaming, Ended} ==>
          s1.loop.In? && s1.loop.phase in {Streaming, Ended})
    && (s1.loop.Waiting? ==> s1.loop == s.loop || (s.paused && s1.loop.ch == s.resumeCh))
    && (s1.loop.Exited? ==> s.loop.Exited? || s.cancelled)
    && (forall cancel | Past(s1.loop, cancel) && (if cancel then s.cancelled else s.paused) ::
          Past(s.loop, cancel) && s.loop.n == s1.loop.n
          && (StatusOf(s, s.loop.n) == Closed ==> StatusOf(s1, s.loop.n) == Closed))
  }

  /** Session n, and only it, moves to another status. */
  lemma SetStatusOk(s: State, n: nat, to: Status)
    requires n < |s.sessions|
    ensures var s1 := SetStatus(s, n, to);
      && s1 == s.(sessions := s1.sessions) && |s1.sessions| == |s.sessions| && s1.sessions[n] == to
      && forall m | 0 <= m < |s.sessions| && m != n :: s1.sessions[m] == s.sessions[m]
  {
  }

  /** The phases before PLAY. */
  lemma ConnectingOk(s: State, ok: bool)
    requires LoopOk(s) && s.loop.In?
    requires s.loop.phase.Dialling? || s.loop.phase.Preparing? || s.loop.phase.AskPaused? || s.loop.phase.AskCancelled?
    ensures var s1 := AdvanceSession(s, s.loop.phase, s.loop.n, ok); LoopOk(s1) && LoopStep(s1, s)
  {
    SetStatusOk(s, s.loop.n, if ok then Dialled else Closed);
    hide SetStatus;
  }

  lemma PlayingOk(s: State, ok: bool)
    requires LoopOk(s) && s.loop.In? && s.loop.phase.Playing?
    ensures var s1 := AdvanceSession(s, s.loop.phase, s.loop.n, ok); LoopOk(s1) && LoopStep(s1, s)
  {
    SetStatusOk(s, s.loop.n, Live);
    hide SetStatus;
  }

  /** What follows PLAY. */
  lemma PlayedOk(s: State, ok: bool)
    requires LoopOk(s) && s.loop.In? && (s.loop.phase.Streaming? || s.loop.phase.Ended? || s.loop.phase.Returning?)
    ensures var s1 := AdvanceSession(s, s.loop.phase, s.loop.n, ok); LoopOk(s1) && LoopStep(s1, s)
  {
    SetStatusOk(s, s.loop.n, Closed);
    hide SetStatus;
  }

  /** Publishing a new client. */
  lemma ConnectOk(s: State, ok: bool)
    requires LoopOk(s) && s.loop.Connect?
    ensures LoopOk(AdvanceLoop(s, ok)) && LoopStep(AdvanceLoop(s, ok), s)
  {
    hide AdvanceSession;
  }

  lemma OutsideOk(s: State, ok: bool)
    requires LoopOk(s) && !s.loop.In? && !s.loop.Connect?
    ensures LoopOk(AdvanceLoop(s, ok)) && LoopStep(AdvanceLoop(s, ok), s)
  {
    OutsideLoop(s, ok);
    hide AdvanceLoop;
    hide StatusOf;
    hide StatusFits;
  }

  lemma OutsideLoop(s: State, ok: bool)
    requires !s.loop.In? && !s.loop.Connect?
    ensures var s1 := AdvanceLoop(s, ok);
      && s1 == s.(loop := s1.loop) && !s1.loop.In?
      && (s1.loop.Waiting? ==> s1.loop == s.loop || (s.paused && s1.loop.ch == s.resumeCh))
      && (s1.loop.Exited? ==> s.loop.Exited? || s.cancelled)
  {
    hide AdvanceSession;
  }

  lemma AdvanceLoopOk(s: State, ok: bool)
    requires LoopOk(s)
    ensures LoopOk(AdvanceLoop(s, ok)) && LoopStep(AdvanceLoop(s, ok), s)
  {
    hide LoopOk;
    hide LoopStep;
    hide AdvanceSession;
    if s.loop.Connect? {
      ConnectOk(s, ok);
    } else if !s.loop.In? {
      OutsideOk(s, ok);
    } else if s.loop.phase.Playing? {
      PlayingOk(s, ok);
    } else if s.loop.phase.Streaming? || s.loop.phase.Ended? || s.loop.phase.Returning? {
      PlayedOk(s, ok);
    } else {
      ConnectingOk(s, ok);
    }
  }

  /** No step of the loop undoes what a Close relies on: a session passes a check
      only while the flag it read is clear. */
  lemma AdvanceOk(s: State, ok: bool)
    requires Inv(s)
    ensures Inv(AdvanceLoop(s, ok))
  {
    AdvanceLoopOk(s, ok);
    hide AdvanceLoop;
    hide LoopOk;
    hide Past;
    hide StatusOf;
  }

  /** Closing a client closes sessions and nothing else. */
  lemma CloseClientOk(s: State, c: Option<nat>)
    requires LoopOk(s)
    ensures var s1 := CloseClient(s, c);
      && LoopOk(s1) && s1 == s.(sessions := s1.sessions)
      && (forall m: nat :: StatusOf(s, m) == Closed ==> StatusOf(s1, m) == Closed)
      && (s.loop.In? && c == Some(s.loop.n) && PastPause(s.loop) ==> StatusOf(s1, s.loop.n) == Closed)
  {
  }

  lemma HoldingOk(s: State, id: nat)
    requires Inv(s) && id in s.stoppers && s.stoppers[id].stage.Holding?
    ensures Inv(AdvanceStopper(s, id))
  {
    CloseClientOk(s, s.stoppers[id].stage.client);
    hide CloseClient;
    hide LoopOk;
    hide StatusOf;
  }

  /** Reading the client: a session already past its check is the published one. */
  lemma FlaggedOk(s: State, id: nat)
    requires Inv(s) && id in s.stoppers && s.stoppers[id].stage.Flagged?
    ensures Inv(AdvanceStopper(s, id))
  {
    assert s.loop.In? ==> s.client == Some(s.loop.n);
    assert LoopOk(AdvanceStopper(s, id));
    hide LoopOk;
    hide StatusOf;
    hide CloseClient;
    hide PastCancel;
    hide PastPause;
    assert forall c :: Past(s.loop, c) ==> s.loop.In? by { PastIn(s.loop); }
  }

  /** Returning: the session past its check is closed, the segment finalized. */
  lemma ClosingOk(s: State, id: nat)
    requires Inv(s) && id in s.stoppers && s.stoppers[id].stage.Closing?
    ensures Inv(AdvanceStopper(s, id))
  {
    assert LoopOk(AdvanceStopper(s, id));
    hide LoopOk;
    hide StatusOf;
    hide CloseClient;
    hide Past;
  }

  lemma PastIn(l: Loop)
    ensures forall c :: Past(l, c) ==> l.In?
    ensures PastCancel(l) ==> PastPause(l)
  {
  }

  lemma StopOk(s: State, id: nat)
    requires Inv(s)
    ensures Inv(AdvanceStopper(s, id))
  {
    hide Inv;
    if id in s.stoppers {
      match s.stoppers[id].stage
      case Flagged => FlaggedOk(s, id);
      case Holding(_) => HoldingOk(s, id);
      case Closing => ClosingOk(s, id);
    }
    hide AdvanceStopper;
  }

  /** Every atomic step, in any interleaving, keeps the invariant. */
  lemma StepOk(s: State, a: Action)
    requires Inv(s)
    ensures Inv(Step(s, a))
  {
    match a
    case Advance(ok) => AdvanceOk(s, ok);
    case Stop(id) => StopOk(s, id);
    case Packet => PacketOk(s);
    case _ => FlagOk(s, a);
    hide Inv;
    hide Step;
  }

  /** Packets come from the session the loop streams. */
  lemma PacketOk(s: State)
    requires Inv(s)
    ensures Inv(Step(s, Packet))
  {
    if n :| 0 <= n < |s.sessions| && s.sessions[n] == Live {
      assert s.loop.In? && s.loop.n == n;
      assert LoopOk(s.(writing := true));
    }
    hide LoopOk;
    hide AdvanceLoop;
    hide AdvanceStopper;
  }

  /** A flag is set or cleared. */
  lemma FlagOk(s: State, a: Action)
    requires Inv(s) && (a.Pause? || a.Resume? || a.Remove?)
    ensures Inv(Step(s, a))
  {
    assert LoopOk(Step(s, a));
    hide LoopOk;
    hide AdvanceLoop;
    hide AdvanceStopper;
    hide Past;
  }

  lemma {:induction false} RunOk(s: State, actions: seq<Action>)
    requires Inv(s)
    ensures Inv(Run(s, actions))
    decreases |actions|
  {
    if actions != [] {
      StepOk(s, actions[0]);
      RunOk(Step(s, actions[0]), actions[1..]);
    }
  }

  /** Once the call that put the camera in pause, or removed it, has returned, no
      session plays and nothing is being written, until the next resume; a camera
      removed never plays again. */
  lemma NothingLiveOnceStopped(actions: seq<Action>)
    ensures var s := Run(INITIAL, actions);
      s.settled || s.removed ==> !s.writing && forall n | 0 <= n < |s.sessions| :: s.sessions[n] != Live
  {
    RunOk(INITIAL, actions);
  }

  /** A parked loop can go on at once, or waits on exactly the channel the next
      resume closes. */
  lemma NoWakeUpLost(actions: seq<Action>)
    ensures var s := Run(INITIAL, actions);
      s.loop.Waiting? && s.loop.ch >= s.resumeCh ==>
        s.paused && s.loop.ch < Step(s, Resume).resumeCh && Step(Step(s, Resume), Advance(true)).loop == Park
  {
    RunOk(INITIAL, actions);
  }

  /** A loop that exited left no session open. */
  lemma ExitedLeavesNothing(actions: seq<Action>, n: nat)
    ensures var s := Run(INITIAL, actions);
      s.loop == Exited && n < |s.sessions| ==> s.sessions[n] == Closed
  {
    RunOk(INITIAL, actions);
  }

  // ----- the loop gets on -----

  predicate Plays(s: State) {
    s.loop.In? && s.loop.phase.Streaming? && StatusOf(s, s.loop.n) == Live
  }

  /** How many steps of the loop are left until a session plays, when nothing fails
      and nobody pauses or removes the camera. */
  function StepsToPlay(s: State): nat {
    match s.loop
    case Waiting(_) => 9
    case Park => 8
    case Check => 7
    case Connect => 6
    case AfterStart => 10
    case Backoff => 9
    case Exited => 0
    case In(phase, n) =>
      var dead := StatusOf(s, n) == Closed;
      match phase
      case Dialling => 5
      case Preparing => if dead then 12 else 4
      case AskPaused => if dead then 14 else 3
      case AskCancelled => if dead then 13 else 2
      case Playing => if dead then 12 else 1
      case Streaming => if dead then 13 else 0
      case Ended => 12
      case Returning => 11
  }

  function Advances(s: State, oks: seq<bool>): State {
    if oks == [] then s else AdvanceLoop(Advances(s, oks[..|oks| - 1]), oks[|oks| - 1])
  }

  predicate Undisturbed(s: State) {
    !s.paused && !s.cancelled && s.stoppers == map[]
  }

  /** One step on the way. */
  lemma OneCloser(s: State)
    requires Inv(s) && Undisturbed(s) && !Plays(s)
    ensures var s1 := AdvanceLoop(s, true); Undisturbed(s1) && StepsToPlay(s1) < StepsToPlay(s)
  {
    hide StoppersOk;
    hide Quiet;
  }

  /** From any reachable state in which the camera is neither paused nor removed and no
      Close is under way, a loop that nothing fails gets a session to play, within 14
      steps. */
  lemma {:induction false} GetsToPlay(s: State) returns (k: nat)
    requires Inv(s) && Undisturbed(s)
    ensures k <= StepsToPlay(s) <= 14 && Plays(Advances(s, seq(k, _ => true)))
    decreases StepsToPlay(s)
  {
    if Plays(s) {
      k := 0;
    } else {
      OneCloser(s);
      AdvanceOk(s, true);
      hide Inv;
      hide Undisturbed;
      k := GetsToPlay(AdvanceLoop(s, true));
      FirstAdvance(s, true, seq(k, _ => true));
      assert seq(k + 1, _ => true) == [true] + seq(k, _ => true);
      k := k + 1;
    }
  }

  lemma {:induction false} FirstAdvance(s: State, ok: bool, oks: seq<bool>)
    ensures Advances(s, [ok] + oks) == Advances(AdvanceLoop(s, ok), oks)
    decreases |oks|
  {
    hide AdvanceLoop;
    if oks == [] {
      assert [ok] + oks == [ok] && [ok][..0] == [];
    } else {
      FirstAdvance(s, ok, oks[..|oks| - 1]);
      assert ([ok] + oks)[..|oks|] == [ok] + oks[..|oks| - 1];
    }
  }

  predicate Parked(s: State) {
    s.loop == Waiting(s.resumeCh)
  }

  /** How many steps at most are left until the loop parks, once a pause has returned. */
  function StepsToPark(s: State): nat {
    match s.loop
    case Waiting(ch) => if ch < s.resumeCh then 2 else 0
    case Park => 1
    case AfterStart => 2
    case Backoff => 2
    case Connect => 7
    case Check => 8
    case Exited => 0
    case In(phase, _) =>
      match phase
      case Dialling => 6
      case Preparing => 5
      case AskPaused => 4
      case AskCancelled => 5
      case Playing => 4
      case Streaming => 5
      case Ended => 4
      case Returning => 3
  }

  lemma OneCloserToPark(s: State, ok: bool)
    requires Inv(s) && s.settled && !s.cancelled
    ensures var s1 := AdvanceLoop(s, ok);
      s1.settled && !s1.cancelled && (if Parked(s) then s1 == s else StepsToPark(s1) < StepsToPark(s))
  {
    hide StoppersOk;
  }

  /** Once the call that paused the camera has returned the loop, whatever fails, parks
      within 8 steps and waits for the resume. */
  lemma {:induction false} GetsToPark(s: State, oks: seq<bool>)
    requires Inv(s) && s.settled && !s.cancelled
    ensures StepsToPark(s) <= 8
    ensures var s1 := Advances(s, oks);
      Inv(s1) && s1.settled && !s1.cancelled && (Parked(s1) || StepsToPark(s1) + |oks| <= StepsToPark(s))
    ensures |oks| >= 8 ==> Parked(Advances(s, oks))
  {
    if oks != [] {
      var init := oks[..|oks| - 1];
      GetsToPark(s, init);
      OneCloserToPark(Advances(s, init), oks[|oks| - 1]);
      AdvanceOk(Advances(s, init), oks[|oks| - 1]);
      hide AdvanceLoop;
    }
    NoneLeft(Advances(s, oks));
    hide Inv;
  }

  lemma NoneLeft(s: State)
    requires Inv(s) && s.settled && !s.cancelled
    ensures StepsToPark(s) == 0 ==> Parked(s)
  {
  }

  /** How many steps at most are left until the loop of a removed camera is gone. */
  function StepsToExit(s: State): nat {
    match s.loop
    case Exited => 0
    case Check => 1
    case Waiting(ch) => if ch < s.resumeCh then 4 else 2
    case Park => 3
    case Backoff => 4
    case AfterStart => 5
    case Connect => 11
    case In(phase, _) =>
      match phase
      case Dialling => 10
      case Preparing => 9
      case AskPaused => 8
      case AskCancelled => 7
      case Playing => 7
      case Streaming => 8
      case Ended => 7
      case Returning => 6
  }

  lemma OneCloserToExit(s: State, ok: bool)
    requires Inv(s) && s.removed
    ensures var s1 := AdvanceLoop(s, ok);
      s1.removed && (if s.loop.Exited? then s1 == s else StepsToExit(s1) < StepsToExit(s))
  {
    hide StoppersOk;
  }

  /** Once the call that removed the camera has returned its loop, paused or not and
      whatever fails, is gone within 11 steps; a backoff is cut short. */
  lemma {:induction false} GetsToExit(s: State, oks: seq<bool>)
    requires Inv(s) && s.removed
    ensures StepsToExit(s) <= 11
    ensures var s1 := Advances(s, oks);
      Inv(s1) && s1.removed && (s1.loop.Exited? || StepsToExit(s1) + |oks| <= StepsToExit(s))
    ensures |oks| >= 11 ==> Advances(s, oks).loop.Exited?
    ensures s.loop.Backoff? ==> AdvanceLoop(s, true).loop.Exited?
  {
    if oks != [] {
      var init := oks[..|oks| - 1];
      GetsToExit(s, init);
      OneCloserToExit(Advances(s, init), oks[|oks| - 1]);
      AdvanceOk(Advances(s, init), oks[|oks| - 1]);
      hide AdvanceLoop;
    }
    NoneLeftToExit(Advances(s, oks));
    NoneLeftToExit(s);
    hide Inv;
  }

  lemma NoneLeftToExit(s: State)
    requires Inv(s) && s.removed
    ensures StepsToExit(s) == 0 ==> s.loop.Exited?
    ensures s.loop.Backoff? ==> AdvanceLoop(s, true).loop.Exited?
  {
  }

  /** A step that fails starts nothing: no session plays that did not, and without a dial
      none is dialled. */
  lemma FailureStartsNothing(s: State, n: nat)
    ensures var s1 := AdvanceLoop(s, false);
      && (StatusOf(s1, n) == Live ==> StatusOf(s, n) == Live)
      && (StatusOf(s1, n) == Dialled ==> StatusOf(s, n) == Dialled)
  {
    if s.loop.In? { FailedPhase(s, s.loop.phase, s.loop.n, n); }
    hide AdvanceSession;
  }

  lemma FailedPhase(s: State, phase: Phase, m: nat, n: nat)
    ensures var s1 := AdvanceSession(s, phase, m, false);
      && (StatusOf(s1, n) == Live ==> StatusOf(s, n) == Live)
      && (StatusOf(s1, n) == Dialled ==> StatusOf(s, n) == Dialled)
  {
    assert forall s0: State | s0.sessions == s.sessions :: StatusOf(s0, n) == StatusOf(s, n);
  }

  /** Packets are written while a session plays, and only until it ended. */
  lemma WrittenWhileLive(actions: seq<Action>)
    ensures var s := Run(INITIAL, actions);
      && (Plays(s) ==> Step(s, Packet).writing)
      && (s.writing ==> s.loop.In? && s.loop.phase in {Streaming, Ended})
  {
    RunOk(INITIAL, actions);
    hide Run;
  }

  /** A Close left alone returns after its three steps, and leaves nothing behind. */
  lemma CloseReturns(s: State, id: nat)
    requires id in s.stoppers && s.stoppers[id].stage.Flagged?
    ensures var s1 := Closed3(s, id);
      && s1.stoppers == s.stoppers - {id} && !s1.writing && s1.loop == s.loop
      && s1.paused == s.paused && s1.cancelled == s.cancelled && s1.epoch == s.epoch
      && (s1.settled <==> s.settled || (s.paused && s.stoppers[id].reason == Pausing(s.epoch)))
      && (s1.removed <==> s.removed || s.stoppers[id].reason.Removing?)
      && ClientClosed(s1, s)
  {
    var st := s.stoppers[id];
    CloserSteps(s, id);
    var s1 := s.(stoppers := s.stoppers[id := st.(stage := Holding(s.client))]);
    CloserSteps(s1, id);
    CloserSteps(AdvanceStopper(s1, id), id);
    ClientCloses(s1);
    hide AdvanceStopper;
    hide CloseClient;
    hide StatusOf;
  }

  lemma CloserSteps(s: State, id: nat)
    requires id in s.stoppers
    ensures var s1, st := AdvanceStopper(s, id), s.stoppers[id];
      && (st.stage.Flagged? ==> s1 == s.(stoppers := s.stoppers[id := st.(stage := Holding(s.client))]))
      && (st.stage.Holding? ==>
            s1 == s.(sessions := CloseClient(s, st.stage.client).sessions,
                     stoppers := s.stoppers[id := st.(stage := Closing)]))
      && (st.stage.Closing? ==>
            s1 == s.(writing := false, stoppers := s.stoppers - {id},
                     settled := s.settled || (s.paused && st.reason == Pausing(s.epoch)),
                     removed := s.removed || st.reason == Removing))
  {
  }

  lemma ClientCloses(s: State)
    ensures s.client.Some? && StatusOf(s, s.client.value) in {Dialled, Live} ==>
      forall s1: State | s1.sessions == CloseClient(s, s.client).sessions :: StatusOf(s1, s.client.value) == Closed
  {
  }

  /** A pause, or a removal, left alone: it has returned, and its client is closed. */
  lemma StopReturns(s: State, id: nat)
    requires id !in s.stoppers
    ensures !s.paused ==>
      var s1 := Closed3(Step(s, Pause(id)), id);
      s1.paused && s1.settled && s1.epoch == s.epoch + 1 && ClientClosed(s1, s) && s1.stoppers == s.stoppers
    ensures !s.cancelled ==>
      var s1 := Closed3(Step(s, Remove(id)), id);
      s1.cancelled && s1.removed && ClientClosed(s1, s) && s1.stoppers == s.stoppers
  {
    hide AdvanceStopper;
    hide AdvanceLoop;
    hide Closed3;
    if !s.paused {
      CloseReturns(Step(s, Pause(id)), id);
      assert s.stoppers[id := Stopper(Pausing(s.epoch + 1), Flagged)] - {id} == s.stoppers;
    }
    if !s.cancelled {
      CloseReturns(Step(s, Remove(id)), id);
      assert s.stoppers[id := Stopper(Removing, Flagged)] - {id} == s.stoppers;
    }
  }

  function Closed3(s: State, id: nat): State {
    AdvanceStopper(AdvanceStopper(AdvanceStopper(s, id), id), id)
  }

  predicate ClientClosed(s1: State, s: State) {
    s.client.Some? && StatusOf(s, s.client.value) in {Dialled, Live} ==> StatusOf(s1, s.client.value) == Closed
  }

  /** camCtrl's flag and channel. */
  class CamCtrl {
    var paused: bool
    var resumeCh: nat

    /** setPaused: resuming closes the channel waiters hold and opens a new one. */
    method SetPaused(p: bool) returns (changed: bool)
      modifies this
      ensures changed == (old(paused) != p) && paused == p
      ensures resumeCh == old(resumeCh) + (if changed && !p then 1 else 0)
      ensures forall s: State | s.paused == old(paused) && s.resumeCh == old(resumeCh) && !p ::
        Step(s, Resume).paused == paused && Step(s, Resume).resumeCh == resumeCh
    {
      if paused == p { return false; }
      paused := p;
      if !p { resumeCh := resumeCh + 1; }
      changed := true;
    }
  }
}
