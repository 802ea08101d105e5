/** What muxParts hands to the muxer, told from the fragments alone: which samples,
    when, and where each trun ends. */
module MuxTurns {
  import opened Wrappers
  import opened Clock
  import opened FillSpec
  import opened FillProofs
  import opened MuxPartsSpec
  import opened MuxPartsProofs
  import M = MuxerSpec
  import P = MuxerProofs

  /** One thing a segment brings: a fragment begins; a sample, which ends at `until`
      on the clock; a trun's samples end. */
  datatype Turn =
    | Moof
    | Given(track: nat, frame: M.Frame, duration: nat, until: int)
    | Closed(track: nat, dts: int)

  /** Where the k-th sample of a trun decodes: after the ones before it. */
  function Place(tr: Trun, shift: int, k: nat): int
    requires k <= |tr.entries|
  {
    tr.base + shift + Span(tr.entries, k)
  }

  /** How many of the first k samples come before one at or past the limit. */
  function Before(tr: Trun, shift: int, limit: int, k: nat): (n: nat)
    requires k <= |tr.entries|
    ensures n <= k
  {
    if k == 0 then 0
    else
      var n := Before(tr, shift, limit, k - 1);
      if n == k - 1 && Place(tr, shift, n) < limit then k else n
  }

  /** The turn of a trun's k-th sample. */
  function SampleTurn(tr: Trun, scale: int, shift: int, k: nat): Turn
    requires k < |tr.entries| && 0 < scale
  {
    var dts, e := Place(tr, shift, k), tr.entries[k];
    Given(tr.track, M.Frame(dts, e.offset, e.nonSync, e.payload), e.duration, ToNanos(dts + e.duration, scale))
  }

  function SampleTurns(tr: Trun, scale: int, shift: int, n: nat): seq<Turn>
    requires n <= |tr.entries| && 0 < scale
  {
    seq(n, k requires 0 <= k < n => SampleTurn(tr, scale, shift, k))
  }

  function TrunTurns(tr: Trun, scale: int, start: int, duration: int): seq<Turn>
    requires 0 < scale
  {
    var shift := ToTicks(start, scale);
    var n := Before(tr, shift, ToTicks(duration, scale), |tr.entries|);
    SampleTurns(tr, scale, shift, n) + [Closed(tr.track, Place(tr, shift, n))]
  }

  function FragmentTurns(scales: seq<int>, frag: Fragment, start: int, duration: int, k: nat): seq<Turn>
    requires k <= |frag| && FragmentKnown(scales, frag)
  {
    if k == 0 then []
    else FragmentTurns(scales, frag, start, duration, k - 1)
         + TrunTurns(frag[k - 1], scales[frag[k - 1].track], start, duration)
  }

  /** Some sample lies at or past the limit. */
  ghost predicate TrunPasses(tr: Trun, scale: int, start: int, duration: int)
    requires 0 < scale
  {
    exists k | 0 <= k < |tr.entries| :: Place(tr, ToTicks(start, scale), k) >= ToTicks(duration, scale)
  }

  ghost predicate Passes(scales: seq<int>, frag: Fragment, start: int, duration: int, k: nat)
    requires k <= |frag| && FragmentKnown(scales, frag)
  {
    exists i | 0 <= i < k :: TrunPasses(frag[i], scales[frag[i].track], start, duration)
  }

  /** Some fragment of the first n does. */
  ghost predicate PassedIn(scales: seq<int>, frags: seq<Fragment>, start: int, duration: int, n: nat)
    requires n <= |frags| && TracksKnown(scales, frags)
  {
    exists m | 0 <= m < n :: Passes(scales, frags[m], start, duration, |frags[m]|)
  }

  /** The turns of the first n fragments: none is read after one that passes the limit. */
  ghost function Turns(scales: seq<int>, frags: seq<Fragment>, start: int, duration: int, n: nat): seq<Turn>
    requires n <= |frags| && TracksKnown(scales, frags)
  {
    if n == 0 then []
    else
      var init := Turns(scales, frags, start, duration, n - 1);
      if PassedIn(scales, frags, start, duration, n - 1) then init
      else init + [Moof] + FragmentTurns(scales, frags[n - 1], start, duration, |frags[n - 1]|)
  }

  /** The calls on a track. */
  function CallsOn(calls: seq<M.Call>, j: nat): seq<M.Call> {
    if calls == [] then []
    else
      var init, c := CallsOn(calls[..|calls| - 1], j), Last(calls);
      if c.track == j then init + [c] else init
  }

  /** A track the filler does not touch: its samples and ends as they come. */
  function Direct(turns: seq<Turn>, j: nat): seq<M.Call> {
    if turns == [] then []
    else
      var init := Direct(turns[..|turns| - 1], j);
      match Last(turns)
      case Moof => init
      case Given(track, frame, _, _) => if track == j then init + [M.Write(j, frame)] else init
      case Closed(track, dts) => if track == j then init + [M.Finish(j, dts)] else init
  }

  /** The filler's track: what the filler makes of the turns, and the calls. */
  function Fed(f: Fill, turns: seq<Turn>): (r: (Fill, seq<M.Call>))
    requires f.scale > 0
    ensures r.0.scale == f.scale
  {
    if turns == [] then (f, [])
    else
      var (f1, calls) := Fed(f, turns[..|turns| - 1]);
      match Last(turns)
      case Moof =>
        PutKeepsScale(f1, f1.end, f1.otherEnd - THRESHOLD);
        (CatchUp(f1), calls + Added(f1, CatchUp(f1)))
      case Given(track, frame, duration, until) =>
        if track == f.track then
          VideoKeepsScale(f1, frame.dts, frame.offset, duration, !frame.nonSync);
          var (f2, ok) := Video(f1, frame.dts, frame.offset, duration, !frame.nonSync);
          (f2, calls + Added(f1, f2) + if ok then [M.Write(track, frame)] else [])
        else (Other(f1, until), calls)
      case Closed(track, dts) => (f1, if track == f.track then calls + [M.Finish(track, dts)] else calls)
  }

  // ----- the calls are those -----

  /** Play p is what the turns made of the fill: the filler's state, the calls on its
      track and those on every other one. */
  ghost predicate Made(p: Play, fill: Option<Fill>, turns: seq<Turn>) {
    && p.fill.Some? == fill.Some?
    && (forall j: nat | Beside(fill, j) :: CallsOn(p.calls, j) == Direct(turns, j))
    && (fill.Some? ==>
          && fill.value.scale > 0 && p.fill.value.track == fill.value.track
          && (p.fill.value, CallsOn(p.calls, fill.value.track)) == Fed(fill.value, turns))
  }

  lemma {:induction false} CallsOnAppend(a: seq<M.Call>, b: seq<M.Call>, j: nat)
    ensures CallsOn(a + b, j) == CallsOn(a, j) + CallsOn(b, j)
    decreases |b|
  {
    if b == [] {
      assert a + b == a;
    } else {
      CallsOnAppend(a, b[..|b| - 1], j);
      assert (a + b)[..|a + b| - 1] == a + b[..|b| - 1];
    }
  }

  lemma {:induction false} CallsOnOne(calls: seq<M.Call>, track: nat, j: nat)
    requires forall k | 0 <= k < |calls| :: calls[k].track == track
    ensures CallsOn(calls, j) == if j == track then calls else []
  {
    if calls != [] { CallsOnOne(calls[..|calls| - 1], track, j); }
  }

  /** More calls, all on one track. */
  lemma CallsOnMore(calls: seq<M.Call>, more: seq<M.Call>, track: nat, j: nat)
    requires forall k | 0 <= k < |more| :: more[k].track == track
    ensures CallsOn(calls + more, j) == CallsOn(calls, j) + if j == track then more else []
  {
    CallsOnAppend(calls, more, j);
    CallsOnOne(more, track, j);
  }

  lemma AddedTrack(f: Fill, f1: Fill)
    ensures forall k | 0 <= k < |Added(f, f1)| :: Added(f, f1)[k].track == f.track
  {
    if |f.out| <= |f1.out| { PlaceCallsTrack(f1.out[|f.out|..], f.track, f.payload); }
  }

  lemma LastTurn(turns: seq<Turn>, t: Turn)
    ensures (turns + [t])[..|turns + [t]| - 1] == turns && Last(turns + [t]) == t
  {
  }

  /** A turn of the filler's: its calls are all on its own track. */
  lemma FillerTurn(p: Play, p1: Play, fill: Option<Fill>, turns: seq<Turn>, t: Turn, f1: Fill, more: seq<M.Call>)
    requires Made(p, fill, turns) && fill.Some? && f1.track == fill.value.track
    requires p1.fill == Some(f1) && p1.calls == p.calls + more
    requires forall k | 0 <= k < |more| :: more[k].track == f1.track
    requires forall j: nat | j != f1.track :: Direct(turns + [t], j) == Direct(turns, j)
    requires Fed(fill.value, turns + [t]) == (f1, CallsOn(p.calls, f1.track) + more)
    ensures Made(p1, fill, turns + [t])
  {
    hide Fed;
    hide Direct;
    hide CallsOn;
    forall j: nat ensures CallsOn(p1.calls, j) == CallsOn(p.calls, j) + if j == f1.track then more else [] {
      CallsOnMore(p.calls, more, f1.track, j);
    }
    forall j: nat | Beside(fill, j) ensures CallsOn(p1.calls, j) == Direct(turns + [t], j) {
      assert CallsOn(p.calls, j) + [] == CallsOn(p.calls, j);
    }
  }

  /** A turn of another track's: one call, the same on the turns' side. */
  lemma BesideTurn(p: Play, p1: Play, fill: Option<Fill>, turns: seq<Turn>, t: Turn, c: M.Call)
    requires Made(p, fill, turns) && Beside(fill, c.track)
    requires p1.calls == p.calls + [c] && p1.fill.Some? == p.fill.Some?
    requires forall j: nat :: Direct(turns + [t], j) == Direct(turns, j) + if j == c.track then [c] else []
    requires fill.Some? ==>
      p1.fill.value.track == fill.value.track
      && Fed(fill.value, turns + [t]) == (p1.fill.value, CallsOn(p.calls, fill.value.track))
    ensures Made(p1, fill, turns + [t])
  {
    hide Fed;
    hide Direct;
    hide CallsOn;
    forall j: nat ensures CallsOn(p1.calls, j) == CallsOn(p.calls, j) + if j == c.track then [c] else [] {
      CallsOnMore(p.calls, [c], c.track, j);
    }
    if fill.Some? {
      assert CallsOn(p.calls, fill.value.track) + [] == CallsOn(p.calls, fill.value.track);
    }
  }

  lemma MadeMoof(p: Play, fill: Option<Fill>, turns: seq<Turn>, tracks: nat)
    requires Made(p, fill, turns) && Synced(p, tracks)
    ensures Made(AtMoof(p), fill, turns + [Moof])
  {
    LastTurn(turns, Moof);
    assert forall j :: Direct(turns + [Moof], j) == Direct(turns, j);
    if fill.Some? {
      var f := p.fill.value;
      CatchUpOk(f);
      AddedTrack(f, CatchUp(f));
      hide Inv;
      hide CatchUp;
      hide Added;
      FillerTurn(p, AtMoof(p), fill, turns, Moof, CatchUp(f), Added(f, CatchUp(f)));
    }
  }

  lemma MadeClosed(p: Play, p1: Play, fill: Option<Fill>, turns: seq<Turn>, track: nat, dts: int)
    requires Made(p, fill, turns) && p1.fill == p.fill && p1.calls == p.calls + [M.Finish(track, dts)]
    ensures Made(p1, fill, turns + [Closed(track, dts)])
  {
    var t, c := Closed(track, dts), M.Finish(track, dts);
    LastTurn(turns, t);
    assert forall j: nat :: Direct(turns + [t], j) == Direct(turns, j) + if j == track then [c] else [];
    if Beside(fill, track) {
      BesideTurn(p, p1, fill, turns, t, c);
    } else {
      FillerTurn(p, p1, fill, turns, t, p.fill.value, [c]);
    }
  }

  lemma MadeSample(p: Play, fill: Option<Fill>, turns: seq<Turn>, tr: Trun, e: Entry, dts: int, scale: int, tracks: nat)
    requires Made(p, fill, turns) && Synced(p, tracks) && scale > 0
    ensures var frame := M.Frame(dts, e.offset, e.nonSync, e.payload);
      Made(MuxEntry(p, tr, e, dts, scale), fill,
           turns + [Given(tr.track, frame, e.duration, ToNanos(dts + e.duration, scale))])
  {
    if Beside(fill, tr.track) {
      MadeBeside(p, fill, turns, tr, e, dts, scale);
    } else {
      hide Inv;
      hide CallsOn;
      hide Written;
      hide Direct;
      hide Fed;
      var frame, f := M.Frame(dts, e.offset, e.nonSync, e.payload), p.fill.value;
      MadeFrame(p, fill, turns, frame, e.duration, ToNanos(dts + e.duration, scale), tracks);
      hide Made;
      EntryFrame(p, tr, e, dts, scale);
    }
  }

  /** A sample of the filler's track. */
  lemma EntryFrame(p: Play, tr: Trun, e: Entry, dts: int, scale: int)
    requires scale > 0 && p.fill.Some? && p.fill.value.scale > 0 && tr.track == p.fill.value.track
    ensures var f, frame := p.fill.value, M.Frame(dts, e.offset, e.nonSync, e.payload);
      var (f1, ok) := Video(f, dts, e.offset, e.duration, !e.nonSync);
      MuxEntry(p, tr, e, dts, scale)
      == p.(fill := Some(f1), calls := p.calls + (Added(f, f1) + if ok then [M.Write(f.track, frame)] else []))
  {
    hide Video;
    hide Added;
    var f, w := p.fill.value, M.Write(tr.track, M.Frame(dts, e.offset, e.nonSync, e.payload));
    var (f1, ok) := Video(f, dts, e.offset, e.duration, !e.nonSync);
    var last := if ok then [w] else [];
    assert p.calls + (Added(f, f1) + last) == p.calls + Added(f, f1) + last;
  }

  /** A sample of another track. */
  lemma MadeBeside(p: Play, fill: Option<Fill>, turns: seq<Turn>, tr: Trun, e: Entry, dts: int, scale: int)
    requires Made(p, fill, turns) && scale > 0 && Beside(fill, tr.track) && (p.fill.Some? ==> p.fill.value.scale > 0)
    ensures var frame := M.Frame(dts, e.offset, e.nonSync, e.payload);
      Made(MuxEntry(p, tr, e, dts, scale), fill,
           turns + [Given(tr.track, frame, e.duration, ToNanos(dts + e.duration, scale))])
  {
    hide CallsOn;
    hide ToNanos;
    var frame := M.Frame(dts, e.offset, e.nonSync, e.payload);
    var t, w := Given(tr.track, frame, e.duration, ToNanos(dts + e.duration, scale)), M.Write(tr.track, frame);
    LastTurn(turns, t);
    assert forall j: nat :: Direct(turns + [t], j) == Direct(turns, j) + if j == tr.track then [w] else [];
    BesideTurn(p, MuxEntry(p, tr, e, dts, scale), fill, turns, t, w);
  }

  lemma MadeFrame(p: Play, fill: Option<Fill>, turns: seq<Turn>, frame: M.Frame, duration: nat, until: int, tracks: nat)
    requires Made(p, fill, turns) && Synced(p, tracks) && fill.Some?
    ensures p.fill.value.scale > 0
    ensures var f := p.fill.value;
      var (f1, ok) := Video(f, frame.dts, frame.offset, duration, !frame.nonSync);
      var calls := p.calls + (Added(f, f1) + if ok then [M.Write(f.track, frame)] else []);
      Made(p.(fill := Some(f1), calls := calls), fill, turns + [Given(f.track, frame, duration, until)])
  {
    var f := p.fill.value;
    var t := Given(f.track, frame, duration, until);
    VideoOk(f, frame.dts, frame.offset, duration, !frame.nonSync);
    VideoExtends(f, frame.dts, frame.offset, duration, !frame.nonSync);
    var (f1, ok) := Video(f, frame.dts, frame.offset, duration, !frame.nonSync);
    var more := Added(f, f1) + if ok then [M.Write(f.track, frame)] else [];
    AddedTrack(f, f1);
    LastTurn(turns, t);
    hide Inv;
    hide Video;
    hide Added;
    hide CallsOn;
    var on := CallsOn(p.calls, f.track);
    assert on + more == on + Added(f, f1) + if ok then [M.Write(f.track, frame)] else [];
    FillerTurn(p, p.(fill := Some(f1), calls := p.calls + more), fill, turns, t, f1, more);
  }

  lemma BeforeGrows(tr: Trun, scale: int, shift: int, k: nat)
    requires k < |tr.entries| && 0 < scale
    ensures SampleTurns(tr, scale, shift, k + 1) == SampleTurns(tr, scale, shift, k) + [SampleTurn(tr, scale, shift, k)]
  {
    hide SampleTurn;
  }

  lemma {:induction false} MadeEntries(p: Play, fill: Option<Fill>, turns: seq<Turn>, tr: Trun, scale: int, shift: int,
                                       limit: int, k: nat, tracks: nat)
    requires Made(p, fill, turns) && Synced(p, tracks) && scale > 0 && k <= |tr.entries| && tr.track < tracks
    ensures var (p1, dts) := MuxEntries(p, tr, scale, tr.base + shift, limit, k);
      var n := Before(tr, shift, limit, k);
      && Made(p1, fill, turns + SampleTurns(tr, scale, shift, n))
      && dts == Place(tr, shift, n) && p1.stop == (n < k) && p1.elapsed == p.elapsed
  {
    hide MuxEntry;
    hide Inv;
    hide Steady;
    hide Written;
    hide Made;
    hide SampleTurns;
    hide ToNanos;
    if k == 0 {
      NoTurns(p, fill, turns, tr, scale, shift);
    } else {
      MadeEntries(p, fill, turns, tr, scale, shift, limit, k - 1, tracks);
      MuxEntriesOk(p, tr, scale, tr.base + shift, limit, k - 1, tracks);
      var (p1, dts) := MuxEntries(p, tr, scale, tr.base + shift, limit, k - 1);
      var n := Before(tr, shift, limit, k - 1);
      StopAlone(p1, fill, turns + SampleTurns(tr, scale, shift, n));
      if !p1.stop && dts < limit {
        MadeSample(p1, fill, turns + SampleTurns(tr, scale, shift, k - 1), tr, tr.entries[k - 1], dts, scale, tracks);
        BeforeGrows(tr, scale, shift, k - 1);
        OneMore(turns, SampleTurns(tr, scale, shift, k - 1), SampleTurn(tr, scale, shift, k - 1));
        KeepsScale(p1, tr, tr.entries[k - 1], dts, scale);
        EntryElapsed(p1, tr, tr.entries[k - 1], dts, scale);
      }
    }
  }

  lemma OneMore(a: seq<Turn>, b: seq<Turn>, t: Turn)
    ensures a + (b + [t]) == a + b + [t]
  {
  }

  lemma EntryElapsed(p: Play, tr: Trun, e: Entry, dts: int, scale: int)
    requires scale > 0 && (p.fill.Some? ==> p.fill.value.scale > 0)
    ensures MuxEntry(p, tr, e, dts, scale).elapsed == p.elapsed
  {
    hide Video;
    hide ToNanos;
  }

  lemma NoTurns(p: Play, fill: Option<Fill>, turns: seq<Turn>, tr: Trun, scale: int, shift: int)
    requires Made(p, fill, turns) && scale > 0
    ensures Made(p.(stop := false), fill, turns + SampleTurns(tr, scale, shift, 0))
  {
    assert turns + SampleTurns(tr, scale, shift, 0) == turns;
  }

  lemma StopAlone(p: Play, fill: Option<Fill>, turns: seq<Turn>)
    requires Made(p, fill, turns)
    ensures forall stop, elapsed :: Made(p.(stop := stop, elapsed := elapsed), fill, turns)
  {
  }

  lemma {:induction false} BeforePlaces(tr: Trun, shift: int, limit: int, k: nat)
    requires k <= |tr.entries|
    ensures var n := Before(tr, shift, limit, k);
      && (forall i | 0 <= i < n :: Place(tr, shift, i) < limit)
      && (n < k ==> Place(tr, shift, n) >= limit)
  {
    if k > 0 { BeforePlaces(tr, shift, limit, k - 1); }
  }

  lemma MadeTrun(p: Play, fill: Option<Fill>, turns: seq<Turn>, scales: seq<int>, tr: Trun, start: int, duration: int)
    requires Made(p, fill, turns) && Synced(p, |scales|) && tr.track < |scales| && 0 < scales[tr.track]
    ensures var p1, scale := MuxTrun(p, scales, tr, start, duration), scales[tr.track];
      && Made(p1, fill, turns + TrunTurns(tr, scale, start, duration))
      && (p1.stop <==> p.stop || TrunPasses(tr, scale, start, duration))
      && p1.elapsed == Max(p.elapsed, TrunElapsed(tr, scale, start, duration))
  {
    hide ToNanos;
    hide ToTicks;
    hide Made;
    hide SampleTurns;
    hide Inv;
    hide Steady;
    hide Written;
    var scale := scales[tr.track];
    var shift, limit := ToTicks(start, scale), ToTicks(duration, scale);
    MadeEntries(p, fill, turns, tr, scale, shift, limit, |tr.entries|, |scales|);
    BeforePlaces(tr, shift, limit, |tr.entries|);
    var (p1, dts) := MuxEntries(p, tr, scale, tr.base + shift, limit, |tr.entries|);
    var n := Before(tr, shift, limit, |tr.entries|);
    hide MuxEntries;
    MadeClosed(p1, MuxTrun(p, scales, tr, start, duration), fill, turns + SampleTurns(tr, scale, shift, n), tr.track,
               dts);
    OneMore(turns, SampleTurns(tr, scale, shift, n), Closed(tr.track, dts));
  }

  /** How far a trun takes the segment. */
  function TrunElapsed(tr: Trun, scale: int, start: int, duration: int): int
    requires 0 < scale
  {
    var shift := ToTicks(start, scale);
    ToNanos(tr.base + Span(tr.entries, Before(tr, shift, ToTicks(duration, scale), |tr.entries|)), scale)
  }

  function FragmentElapsed(scales: seq<int>, frag: Fragment, start: int, duration: int, k: nat): int
    requires k <= |frag| && FragmentKnown(scales, frag)
  {
    if k == 0 then 0
    else Max(FragmentElapsed(scales, frag, start, duration, k - 1),
             TrunElapsed(frag[k - 1], scales[frag[k - 1].track], start, duration))
  }

  /** How far the fragments read reach. */
  ghost function Elapsed(scales: seq<int>, frags: seq<Fragment>, start: int, duration: int, n: nat): int
    requires n <= |frags| && TracksKnown(scales, frags)
  {
    if n == 0 then 0
    else
      var init := Elapsed(scales, frags, start, duration, n - 1);
      if PassedIn(scales, frags, start, duration, n - 1) then init
      else Max(init, FragmentElapsed(scales, frags[n - 1], start, duration, |frags[n - 1]|))
  }

  lemma {:induction false} MadeTruns(p: Play, fill: Option<Fill>, turns: seq<Turn>, scales: seq<int>, frag: Fragment,
                                     start: int, duration: int, k: nat)
    requires Made(p, fill, turns) && Synced(p, |scales|) && k <= |frag| && FragmentKnown(scales, frag)
    requires p.elapsed >= 0
    ensures var p1 := MuxTruns(p, scales, frag, start, duration, k);
      && Made(p1, fill, turns + FragmentTurns(scales, frag, start, duration, k))
      && (p1.stop <==> p.stop || Passes(scales, frag, start, duration, k))
      && p1.elapsed == Max(p.elapsed, FragmentElapsed(scales, frag, start, duration, k))
  {
    hide MuxTrun;
    hide TrunTurns;
    hide TrunPasses;
    hide TrunElapsed;
    hide Made;
    hide Inv;
    hide Steady;
    hide Written;
    if k == 0 {
      assert turns + FragmentTurns(scales, frag, start, duration, 0) == turns;
    } else {
      MadeTruns(p, fill, turns, scales, frag, start, duration, k - 1);
      MuxTrunsOk(p, scales, frag, start, duration, k - 1);
      var tr, init := frag[k - 1], FragmentTurns(scales, frag, start, duration, k - 1);
      MadeTrun(MuxTruns(p, scales, frag, start, duration, k - 1), fill, turns + init, scales, tr, start, duration);
      var more := TrunTurns(tr, scales[tr.track], start, duration);
      assert turns + init + more == turns + (init + more);
    }
  }

  lemma MoofAlone(p: Play)
    requires p.fill.Some? ==> p.fill.value.scale > 0
    ensures AtMoof(p).stop == p.stop && AtMoof(p).elapsed == p.elapsed
  {
    hide CatchUp;
  }

  lemma MadeFragment(p: Play, fill: Option<Fill>, turns: seq<Turn>, scales: seq<int>, frag: Fragment,
                     start: int, duration: int)
    requires Made(p, fill, turns) && Synced(p, |scales|) && FragmentKnown(scales, frag) && p.elapsed >= 0 && !p.stop
    ensures p.fill.Some? ==> p.fill.value.scale > 0
    ensures var p1 := MuxTruns(AtMoof(p), scales, frag, start, duration, |frag|);
      && Made(p1, fill, turns + [Moof] + FragmentTurns(scales, frag, start, duration, |frag|))
      && (p1.stop <==> Passes(scales, frag, start, duration, |frag|))
      && p1.elapsed == Max(p.elapsed, FragmentElapsed(scales, frag, start, duration, |frag|))
  {
    assert p.fill.Some? ==> p.fill.value.scale > 0;
    MoofAlone(p);
    MadeMoof(p, fill, turns, |scales|);
    AtMoofOk(p, |scales|);
    hide *;
    GoesSynced(AtMoof(p), p, |scales|);
    MadeTruns(AtMoof(p), fill, turns + [Moof], scales, frag, start, duration, |frag|);
  }

  lemma GoesSynced(p1: Play, p: Play, tracks: nat)
    requires Goes(p1, p, tracks)
    ensures Synced(p1, tracks)
  {
  }

  lemma {:induction false} MadeFragments(fill: Option<Fill>, scales: seq<int>, frags: seq<Fragment>, start: int,
                                         duration: int, n: nat)
    requires n <= |frags| && TracksKnown(scales, frags) && Synced(Play(fill, [], 0, false), |scales|)
    ensures fill.Some? ==> fill.value.scale > 0
    ensures var p := MuxFragments(Play(fill, [], 0, false), scales, frags, start, duration, n);
      && Made(p, fill, Turns(scales, frags, start, duration, n))
      && (p.stop <==> PassedIn(scales, frags, start, duration, n))
      && p.elapsed == Elapsed(scales, frags, start, duration, n) >= 0
  {
    hide MuxTruns;
    hide AtMoof;
    hide FragmentTurns;
    hide Passes;
    hide FragmentElapsed;
    hide Inv;
    hide Steady;
    hide Written;
    var p0 := Play(fill, [], 0, false);
    assert fill.Some? ==> fill.value.scale > 0;
    if n == 0 {
      NothingMade(fill);
    } else {
      hide Made;
      hide Synced;
      MadeFragments(fill, scales, frags, start, duration, n - 1);
      MuxFragmentsOk(p0, scales, frags, start, duration, n - 1);
      var p := MuxFragments(p0, scales, frags, start, duration, n - 1);
      var turns := Turns(scales, frags, start, duration, n - 1);
      if !p.stop {
        assert FragmentKnown(scales, frags[n - 1]);
        MadeFragment(p, fill, turns, scales, frags[n - 1], start, duration);
      }
    }
  }

  lemma NothingMade(fill: Option<Fill>)
    requires fill.Some? ==> fill.value.scale > 0
    ensures Made(Play(fill, [], 0, false), fill, [])
  {
  }

  /** What the filler's last turn puts in. */
  function Closing(f: Fill, limit: int): seq<M.Call>
    requires f.scale > 0
  {
    var (f1, final) := Finish(f, limit);
    Added(f, f1) + if final.Some? then [M.Finish(f.track, ToTicks(final.value, f.scale))] else []
  }

  lemma MadeEnd(p: Play, fill: Option<Fill>, turns: seq<Turn>, limit: int, tracks: nat)
    requires Made(p, fill, turns) && Synced(p, tracks)
    ensures var p1 := AtEnd(p, limit);
      && p1.elapsed == p.elapsed && p1.fill.Some? == fill.Some?
      && (forall j: nat | Beside(fill, j) :: CallsOn(p1.calls, j) == Direct(turns, j))
      && (fill.Some? ==>
            var (f, calls) := Fed(fill.value, turns);
            && p1.fill.value == Finish(f, limit).0
            && CallsOn(p1.calls, fill.value.track) == calls + Closing(f, limit))
  {
    if fill.Some? {
      var f := p.fill.value;
      AddedTrack(f, Finish(f, limit).0);
      hide Inv;
      hide Finish;
      hide Added;
      hide CallsOn;
      hide Fed;
      hide Direct;
      hide ToTicks;
      var p1 := AtEnd(p, limit);
      var (f1, final) := Finish(f, limit);
      var last := if final.Some? then [M.Finish(f.track, ToTicks(final.value, f.scale))] else [];
      assert p.calls + Added(f, f1) + last == p.calls + Closing(f, limit);
      forall j: nat
        ensures CallsOn(p1.calls, j) == CallsOn(p.calls, j) + if j == f.track then Closing(f, limit) else []
      {
        CallsOnMore(p.calls, Closing(f, limit), f.track, j);
      }
      forall j: nat | Beside(fill, j) ensures CallsOn(p1.calls, j) == Direct(turns, j) {
        assert CallsOn(p.calls, j) + [] == CallsOn(p.calls, j);
      }
    }
  }

  /** The calls muxParts makes are told by the turns of the fragments read: on every
      track beside the filler's the samples before the limit and the end of each trun,
      as they come; on the filler's what the filler makes of them. */
  lemma CallsAreTurns(fill: Option<Fill>, scales: seq<int>, frags: seq<Fragment>, start: int, duration: int)
    requires TracksKnown(scales, frags) && Synced(Play(fill, [], 0, false), |scales|)
    ensures var p := MuxParts(fill, scales, frags, start, duration);
      var turns := Turns(scales, frags, start, duration, |frags|);
      && p.elapsed == Elapsed(scales, frags, start, duration, |frags|)
      && (forall j: nat | Beside(fill, j) :: CallsOn(p.calls, j) == Direct(turns, j))
      && (fill.Some? ==>
            && fill.value.scale > 0 && p.fill.Some?
            && var (f, calls) := Fed(fill.value, turns);
              && p.fill.value == Finish(f, duration).0
              && CallsOn(p.calls, fill.value.track) == calls + Closing(f, duration))
  {
    hide Inv;
    hide Steady;
    hide Written;
    var p0 := Play(fill, [], 0, false);
    var turns := Turns(scales, frags, start, duration, |frags|);
    MadeFragments(fill, scales, frags, start, duration, |frags|);
    MuxFragmentsOk(p0, scales, frags, start, duration, |frags|);
    assert fill.Some? ==> fill.value.scale > 0;
    MadeEnd(MuxFragments(p0, scales, frags, start, duration, |frags|), fill, turns, duration, |scales|);
    hide *;
    hide MuxParts;
    PartsEnd(fill, scales, frags, start, duration);
  }

  lemma PartsEnd(fill: Option<Fill>, scales: seq<int>, frags: seq<Fragment>, start: int, duration: int)
    requires TracksKnown(scales, frags) && (fill.Some? ==> fill.value.scale > 0)
    ensures MuxParts(fill, scales, frags, start, duration)
         == AtEnd(MuxFragments(Play(fill, [], 0, false), scales, frags, start, duration, |frags|), duration)
  {
    hide AtEnd;
    hide MuxFragments;
  }

  // ----- what the turns are -----

  /** The k-th sample of a trun: its own content at its own time, after the ones before
      it. */
  predicate SampleIs(t: Turn, tr: Trun, scale: int, from: int, k: nat)
    requires 0 < scale && k < |tr.entries|
  {
    && t.Given? && t.track == tr.track
    && t.frame.dts == from + Span(tr.entries, k)
    && t.frame.offset == tr.entries[k].offset && t.frame.nonSync == tr.entries[k].nonSync
    && t.frame.payload == tr.entries[k].payload && t.duration == tr.entries[k].duration
    && t.until == ToNanos(from + Span(tr.entries, k + 1), scale)
  }

  /** A trun gives its samples in order up to the first at or past the limit; then it
      closes at the time reached. */
  lemma TrunIs(tr: Trun, scale: int, start: int, duration: int)
    requires 0 < scale
    ensures var turns := TrunTurns(tr, scale, start, duration);
      var from, limit := tr.base + ToTicks(start, scale), ToTicks(duration, scale);
      0 < |turns| <= |tr.entries| + 1 &&
      var n := |turns| - 1;
      && (forall k | 0 <= k < n :: SampleIs(turns[k], tr, scale, from, k) && turns[k].frame.dts < limit)
      && (n < |tr.entries| ==> from + Span(tr.entries, n) >= limit)
      && turns[n] == Closed(tr.track, from + Span(tr.entries, n))
  {
    hide ToTicks;
    var shift, limit := ToTicks(start, scale), ToTicks(duration, scale);
    BeforePlaces(tr, shift, limit, |tr.entries|);
    var n := Before(tr, shift, limit, |tr.entries|);
    var turns := TrunTurns(tr, scale, start, duration);
    assert |turns| == n + 1 && turns[n] == Closed(tr.track, Place(tr, shift, n));
    forall k | 0 <= k < n
      ensures turns[k] == SampleTurn(tr, scale, shift, k)
      ensures SampleIs(turns[k], tr, scale, tr.base + shift, k)
    {
      SampleTurnIs(tr, scale, shift, k);
    }
    hide Before;
    hide SampleTurn;
    hide Span;
  }

  lemma SampleTurnIs(tr: Trun, scale: int, shift: int, k: nat)
    requires 0 < scale && k < |tr.entries|
    ensures SampleIs(SampleTurn(tr, scale, shift, k), tr, scale, tr.base + shift, k)
  {
    hide ToNanos;
  }

  // ----- the filler's track -----

  /** The frames of the writes among the calls. */
  function Frames(calls: seq<M.Call>): seq<M.Frame> {
    if calls == [] then []
    else
      var init := Frames(calls[..|calls| - 1]);
      if Last(calls).Write? then init + [Last(calls).frame] else init
  }

  /** The frames the turns bring for a track. */
  function Offered(turns: seq<Turn>, j: nat): seq<M.Frame> {
    if turns == [] then []
    else
      var init, t := Offered(turns[..|turns| - 1], j), Last(turns);
      if t.Given? && t.track == j then init + [t.frame] else init
  }

  /** A placeholder is the filler's payload as a keyframe. */
  predicate Shows(frame: M.Frame, shot: Shot, payload: M.Bytes) {
    match shot
    case Placeholder(dts, _) => frame == M.Frame(dts, 0, false, payload)
    case Real(dts, sync, _) => frame.dts == dts && frame.nonSync == !sync
  }

  predicate Aligned(frames: seq<M.Frame>, out: seq<Shot>, payload: M.Bytes) {
    |frames| == |out| && forall k | 0 <= k < |out| :: Shows(frames[k], out[k], payload)
  }

  /** The frames that are real. */
  function Reals(frames: seq<M.Frame>, out: seq<Shot>): seq<M.Frame>
    requires |frames| == |out|
  {
    if out == [] then []
    else
      var init := Reals(frames[..|frames| - 1], out[..|out| - 1]);
      if Last(out).Real? then init + [Last(frames)] else init
  }

  /** a is b with some elements left out. */
  predicate Thinned<T(==)>(a: seq<T>, b: seq<T>) {
    if b == [] then a == []
    else
      || Thinned(a, b[..|b| - 1])
      || (a != [] && Last(a) == Last(b) && Thinned(a[..|a| - 1], b[..|b| - 1]))
  }

  lemma {:induction false} FramesAppend(a: seq<M.Call>, b: seq<M.Call>)
    ensures Frames(a + b) == Frames(a) + Frames(b)
    decreases |b|
  {
    if b == [] {
      assert a + b == a;
    } else {
      FramesAppend(a, b[..|b| - 1]);
      assert (a + b)[..|a + b| - 1] == a + b[..|b| - 1];
    }
  }

  lemma FramesOne(c: M.Call)
    ensures Frames([c]) == if c.Write? then [c.frame] else []
  {
    assert [c][..0] == [];
  }

  lemma {:induction false} PlacedFrames(shots: seq<Shot>, track: nat, payload: M.Bytes)
    requires forall k | 0 <= k < |shots| :: shots[k].Placeholder?
    ensures Aligned(Frames(PlaceCalls(shots, track, payload)), shots, payload)
  {
    if shots != [] {
      var init, w := shots[..|shots| - 1], M.Write(track, M.Frame(Last(shots).dts, 0, false, payload));
      PlacedFrames(init, track, payload);
      FramesAppend(PlaceCalls(init, track, payload), [w]);
      FramesOne(w);
    }
  }

  lemma {:induction false} RealsSkip(frames: seq<M.Frame>, out: seq<Shot>, more: seq<M.Frame>, places: seq<Shot>)
    requires |frames| == |out| && |more| == |places|
    requires forall k | 0 <= k < |places| :: places[k].Placeholder?
    ensures Reals(frames + more, out + places) == Reals(frames, out)
    decreases |places|
  {
    if places == [] {
      assert frames + more == frames && out + places == out;
    } else {
      RealsSkip(frames, out, more[..|more| - 1], places[..|places| - 1]);
      assert (frames + more)[..|frames + more| - 1] == frames + more[..|more| - 1];
      assert (out + places)[..|out + places| - 1] == out + places[..|places| - 1];
    }
  }

  lemma RealsOne(frames: seq<M.Frame>, out: seq<Shot>, frame: M.Frame, shot: Shot)
    requires |frames| == |out| && shot.Real?
    ensures Reals(frames + [frame], out + [shot]) == Reals(frames, out) + [frame]
  {
    assert (frames + [frame])[..|frames|] == frames && (out + [shot])[..|out|] == out;
  }

  lemma AlignedMore(frames: seq<M.Frame>, out: seq<Shot>, more: seq<M.Frame>, shots: seq<Shot>, payload: M.Bytes)
    requires Aligned(frames, out, payload) && Aligned(more, shots, payload)
    ensures Aligned(frames + more, out + shots, payload)
  {
    hide Shows;
  }

  /** A fill goes on from f to f1, and writes what it adds. */
  lemma AddedShows(f: Fill, f1: Fill, framed: bool, frames: seq<M.Frame>, frame: M.Frame)
    requires Extends(f1, f, framed) && Aligned(frames, f.out, f.payload)
    requires framed ==> Shows(frame, Last(f1.out), f.payload)
    ensures var frames1 := frames + Frames(Added(f, f1)) + if framed then [frame] else [];
      && Aligned(frames1, f1.out, f.payload)
      && Reals(frames1, f1.out) == Reals(frames, f.out) + if framed then [frame] else []
  {
    AddedPlaces(f, f1, framed);
    var places, more := Places(f, f1, framed), Frames(Added(f, f1));
    PlacedFrames(places, f.track, f.payload);
    hide PlaceCalls;
    hide Frames;
    hide Places;
    hide Added;
    hide Shows;
    var last := if framed then [Last(f1.out)] else [];
    assert f1.out == f.out + places + last;
    assert framed ==> Last(f1.out).Real?;
    hide Extends;
    PlacedShows(frames, f.out, more, places, if framed then [frame] else [], last, f.payload);
  }

  lemma PlacedShows(frames: seq<M.Frame>, out: seq<Shot>, more: seq<M.Frame>, places: seq<Shot>,
                    frame: seq<M.Frame>, last: seq<Shot>, payload: M.Bytes)
    requires Aligned(frames, out, payload) && Aligned(more, places, payload) && Aligned(frame, last, payload)
    requires forall k | 0 <= k < |places| :: places[k].Placeholder?
    requires |last| <= 1 && (last != [] ==> last[0].Real?)
    ensures Aligned(frames + more + frame, out + places + last, payload)
    ensures Reals(frames + more + frame, out + places + last) == Reals(frames, out) + frame
  {
    AlignedMore(frames, out, more, places, payload);
    AlignedMore(frames + more, out + places, frame, last, payload);
    RealsSkip(frames, out, more, places);
    assert |frame| == |last|;
    hide Aligned;
    hide Reals;
    if last != [] {
      RealsOne(frames + more, out + places, frame[0], last[0]);
      assert frame == [frame[0]] && last == [last[0]];
    } else {
      assert frames + more + frame == frames + more && out + places + last == out + places;
      assert Reals(frames, out) + frame == Reals(frames, out);
    }
  }

  lemma ThinnedSame<T>(a: seq<T>, b: seq<T>, x: T)
    requires Thinned(a, b)
    ensures Thinned(a + [x], b + [x]) && Thinned(a, b + [x])
  {
    assert (a + [x])[..|a|] == a && (b + [x])[..|b|] == b;
  }

  /** The filler so far: steady, what it wrote is what it shows, and the real frames
      among it are some of those offered. */
  ghost predicate Spliced(f: Fill, calls: seq<M.Call>, f0: Fill, turns: seq<Turn>) {
    && Inv(f) && f.track == f0.track && f.payload == f0.payload
    && Aligned(Frames(calls), f.out, f.payload)
    && Thinned(Reals(Frames(calls), f.out), Offered(turns, f0.track))
  }

  /** A turn that is not one of the filler's frames. */
  lemma SplicedFills(f: Fill, f1: Fill, calls: seq<M.Call>, f0: Fill, turns: seq<Turn>, t: Turn)
    requires Spliced(f, calls, f0, turns) && Inv(f1) && Extends(f1, f, false)
    requires !(t.Given? && t.track == f0.track)
    ensures Spliced(f1, calls + Added(f, f1), f0, turns + [t])
  {
    hide Inv;
    hide Thinned;
    FramesAppend(calls, Added(f, f1));
    AddedShows(f, f1, false, Frames(calls), M.Frame(0, 0, false, []));
    LastTurn(turns, t);
    hide Frames;
    hide Reals;
    hide Aligned;
    hide Added;
    var frames := Frames(calls) + Frames(Added(f, f1));
    assert frames + [] == frames && Reals(Frames(calls), f.out) + [] == Reals(Frames(calls), f.out);
  }

  lemma SplicedFrame(f: Fill, calls: seq<M.Call>, f0: Fill, turns: seq<Turn>, frame: M.Frame, duration: nat, until: int)
    requires Spliced(f, calls, f0, turns)
    ensures f.scale > 0
    ensures var (f1, ok) := Video(f, frame.dts, frame.offset, duration, !frame.nonSync);
      Spliced(f1, calls + Added(f, f1) + if ok then [M.Write(f0.track, frame)] else [], f0,
              turns + [Given(f0.track, frame, duration, until)])
  {
    VideoOk(f, frame.dts, frame.offset, duration, !frame.nonSync);
    VideoExtends(f, frame.dts, frame.offset, duration, !frame.nonSync);
    PassedShows(f, frame, duration);
    var (f1, ok) := Video(f, frame.dts, frame.offset, duration, !frame.nonSync);
    hide *;
    var t := Given(f0.track, frame, duration, until);
    if ok {
      SplicedReal(f, f1, calls, f0, turns, t);
    } else {
      SplicedNot(f, f1, calls, f0, turns, t);
      assert calls + Added(f, f1) + [] == calls + Added(f, f1);
    }
  }

  lemma PassedShows(f: Fill, frame: M.Frame, duration: nat)
    requires Inv(f)
    ensures f.scale > 0
    ensures var (f1, ok) := Video(f, frame.dts, frame.offset, duration, !frame.nonSync);
      ok ==> f1.out != [] && forall payload :: Shows(frame, Last(f1.out), payload)
  {
    assert f.scale > 0;
    FramesLetThrough(f, frame.dts, frame.offset, duration, !frame.nonSync);
    hide Video;
    hide Inv;
    hide EachSecond;
    hide Taken;
    hide ToNanos;
    hide Until;
  }

  /** A frame let through. */
  lemma SplicedReal(f: Fill, f1: Fill, calls: seq<M.Call>, f0: Fill, turns: seq<Turn>, t: Turn)
    requires Spliced(f, calls, f0, turns) && Inv(f1) && Extends(f1, f, true) && t.Given? && t.track == f0.track
    requires f1.out != [] && forall payload :: Shows(t.frame, Last(f1.out), payload)
    ensures Spliced(f1, calls + Added(f, f1) + [M.Write(f0.track, t.frame)], f0, turns + [t])
  {
    hide Inv;
    hide Thinned;
    hide Shows;
    var w := M.Write(f0.track, t.frame);
    FramesAppend(calls, Added(f, f1));
    FramesAppend(calls + Added(f, f1), [w]);
    FramesOne(w);
    AddedShows(f, f1, true, Frames(calls), t.frame);
    LastTurn(turns, t);
    ThinnedSame(Reals(Frames(calls), f.out), Offered(turns, f0.track), t.frame);
    hide Frames;
    hide Reals;
    hide Aligned;
    hide Added;
  }

  /** A frame dropped. */
  lemma SplicedNot(f: Fill, f1: Fill, calls: seq<M.Call>, f0: Fill, turns: seq<Turn>, t: Turn)
    requires Spliced(f, calls, f0, turns) && Inv(f1) && Extends(f1, f, false) && t.Given? && t.track == f0.track
    ensures Spliced(f1, calls + Added(f, f1), f0, turns + [t])
  {
    hide Inv;
    hide Thinned;
    hide Shows;
    FramesAppend(calls, Added(f, f1));
    AddedShows(f, f1, false, Frames(calls), t.frame);
    LastTurn(turns, t);
    ThinnedSame(Reals(Frames(calls), f.out), Offered(turns, f0.track), t.frame);
    hide Frames;
    hide Reals;
    hide Aligned;
    hide Added;
    var frames := Frames(calls) + Frames(Added(f, f1));
    assert frames + [] == frames && Reals(Frames(calls), f.out) + [] == Reals(Frames(calls), f.out);
  }

  /** Filling up between fragments. */
  lemma SplicedMoof(f: Fill, calls: seq<M.Call>, f0: Fill, turns: seq<Turn>)
    requires Spliced(f, calls, f0, turns)
    ensures Spliced(CatchUp(f), calls + Added(f, CatchUp(f)), f0, turns + [Moof])
  {
    CatchUpOk(f);
    FillToExtends(f, if f.otherEnd - f.end > 2 * THRESHOLD then f.otherEnd - THRESHOLD else f.end);
    SameExtends(f);
    hide Inv;
    hide FillTo;
    hide Extends;
    hide Spliced;
    SplicedFills(f, CatchUp(f), calls, f0, turns, Moof);
  }

  lemma SameExtends(f: Fill)
    ensures Extends(f, f, false)
  {
  }

  lemma SplicedOther(f: Fill, calls: seq<M.Call>, f0: Fill, turns: seq<Turn>, t: Turn, end: int)
    requires Spliced(f, calls, f0, turns) && t.Given? && t.track != f0.track
    ensures Spliced(Other(f, end), calls, f0, turns + [t])
  {
    OtherInv(f, end);
    hide Inv;
    hide Thinned;
    hide Frames;
    hide Reals;
    LastTurn(turns, t);
  }

  lemma OtherInv(f: Fill, end: int)
    requires Inv(f)
    ensures Inv(Other(f, end))
  {
    hide InOrder;
  }

  lemma SplicedClosed(f: Fill, calls: seq<M.Call>, f0: Fill, turns: seq<Turn>, t: Turn, more: seq<M.Call>)
    requires Spliced(f, calls, f0, turns) && t.Closed? && |more| <= 1 && (more != [] ==> more[0].Finish?)
    ensures Spliced(f, calls + more, f0, turns + [t])
  {
    FramesAppend(calls, more);
    if more != [] { FramesOne(more[0]); assert more == [more[0]]; }
    hide Inv;
    hide Thinned;
    hide Reals;
    LastTurn(turns, t);
    assert Frames(calls) + [] == Frames(calls);
  }

  lemma {:induction false} FedSpliced(f: Fill, turns: seq<Turn>)
    requires Inv(f) && f.out == []
    ensures f.scale > 0
    ensures var (f1, calls) := Fed(f, turns); Spliced(f1, calls, f, turns)
  {
    assert f.scale > 0;
    hide Inv;
    hide Aligned;
    hide Thinned;
    hide Video;
    hide CatchUp;
    if turns != [] {
      hide Spliced;
      var init, t := turns[..|turns| - 1], Last(turns);
      assert turns == init + [t];
      FedSpliced(f, init);
      var (f1, calls) := Fed(f, init);
      match t
      case Moof => SplicedMoof(f1, calls, f, init);
      case Given(track, frame, duration, until) =>
        if track == f.track {
          SplicedFrame(f1, calls, f, init, frame, duration, until);
        } else {
          SplicedOther(f1, calls, f, init, t, until);
        }
      case Closed(track, dts) =>
        SplicedClosed(f1, calls, f, init, t, if track == f.track then [M.Finish(track, dts)] else []);
        assert calls + [] == calls;
    } else {
      NothingFed(f);
    }
  }

  lemma NothingFed(f: Fill)
    requires Inv(f) && f.out == []
    ensures Spliced(f, [], f, [])
  {
    hide Inv;
  }

  /** A frame offered to the filler is written exactly if it is let through, after the
      placeholders it calls for. */
  lemma FrameOffered(f: Fill, turns: seq<Turn>, frame: M.Frame, duration: nat, until: int)
    requires Inv(f) && f.out == []
    ensures f.scale > 0
    ensures var (f1, calls1) := Fed(f, turns);
      var (f2, calls2) := Fed(f, turns + [Given(f.track, frame, duration, until)]);
      var ok := |calls2| > |calls1 + Added(f1, f2)|;
      && LetThrough(f1, f2, ok, frame.dts, ToNanos(frame.dts, f.scale), !frame.nonSync,
                    Until(f.scale, frame.dts, frame.offset, duration))
      && calls2 == calls1 + Added(f1, f2) + if ok then [M.Write(f.track, frame)] else []
  {
    FedSpliced(f, turns);
    FedFrame(f, turns, frame, duration, until);
    hide *;
    SplicedInv(Fed(f, turns).0, Fed(f, turns).1, f, turns);
    FramesLetThrough(Fed(f, turns).0, frame.dts, frame.offset, duration, !frame.nonSync);
  }

  lemma SplicedInv(f: Fill, calls: seq<M.Call>, f0: Fill, turns: seq<Turn>)
    requires Spliced(f, calls, f0, turns)
    ensures Inv(f)
  {
  }

  lemma FedFrame(f: Fill, turns: seq<Turn>, frame: M.Frame, duration: nat, until: int)
    requires f.scale > 0
    ensures var (f1, calls1) := Fed(f, turns);
      var (f2, ok) := Video(f1, frame.dts, frame.offset, duration, !frame.nonSync);
      Fed(f, turns + [Given(f.track, frame, duration, until)])
      == (f2, calls1 + Added(f1, f2) + if ok then [M.Write(f.track, frame)] else [])
  {
    LastTurn(turns, Given(f.track, frame, duration, until));
    hide Video;
    hide Added;
  }

  /** The latest end of the other tracks' samples. */
  function OthersReach(turns: seq<Turn>, track: nat, from: int): int {
    if turns == [] then from
    else
      var init, t := OthersReach(turns[..|turns| - 1], track, from), Last(turns);
      if t.Given? && t.track != track then Max(init, t.until) else init
  }

  lemma {:induction false} FedReaches(f: Fill, turns: seq<Turn>)
    requires Inv(f) && f.out == []
    ensures f.scale > 0 && Fed(f, turns).0.otherEnd == OthersReach(turns, f.track, f.otherEnd)
  {
    assert f.scale > 0;
    hide Inv;
    hide Video;
    hide CatchUp;
    if turns != [] {
      var init, t := turns[..|turns| - 1], Last(turns);
      FedReaches(f, init);
      FedSpliced(f, init);
      SplicedInv(Fed(f, init).0, Fed(f, init).1, f, init);
      CatchUpOk(Fed(f, init).0);
      if t.Given? {
        var fr := t.frame;
        VideoOk(Fed(f, init).0, fr.dts, fr.offset, t.duration, !fr.nonSync);
      }
      hide Spliced;
    }
  }

  /** The filler's track over a segment: what is written is what the filler shows,
      placeholders with its payload as keyframes at tick-exact times; the real frames
      among them are some of the samples before the limit, in order. */
  lemma FillerTrackExactly(fill: Fill, scales: seq<int>, frags: seq<Fragment>, start: int, duration: int)
    requires TracksKnown(scales, frags) && fill.track < |scales| && fill.scale > 0
    requires fill == At(fill.track, fill.scale, fill.payload, fill.end)
    ensures var p, turns := MuxParts(Some(fill), scales, frags, start, duration),
                            Turns(scales, frags, start, duration, |frags|);
      var frames := Frames(CallsOn(p.calls, fill.track));
      && Aligned(frames, p.fill.value.out, fill.payload)
      && Thinned(Reals(frames, p.fill.value.out), Offered(turns, fill.track))
  {
    var turns := Turns(scales, frags, start, duration, |frags|);
    BeginSynced(fill.track, fill.scale, fill.payload, fill.end, |scales|);
    CallsAreTurns(Some(fill), scales, frags, start, duration);
    FedSpliced(fill, turns);
    hide *;
    var (f, calls) := Fed(fill, turns);
    ClosingSpliced(f, calls, fill, turns, duration);
  }

  lemma ClosingSpliced(f: Fill, calls: seq<M.Call>, f0: Fill, turns: seq<Turn>, limit: int)
    requires Spliced(f, calls, f0, turns)
    ensures f.scale > 0
    ensures var f1, frames := Finish(f, limit).0, Frames(calls + Closing(f, limit));
      && Aligned(frames, f1.out, f0.payload)
      && Thinned(Reals(frames, f1.out), Offered(turns, f0.track))
  {
    assert f.scale > 0;
    FinishOk(f, limit);
    var target := Min(f.otherEnd, limit);
    FillToExtends(f, if target - f.end > THRESHOLD then target else f.end);
    SameExtends(f);
    var (f1, final) := Finish(f, limit);
    var last := if final.Some? then [M.Finish(f.track, ToTicks(final.value, f.scale))] else [];
    assert Extends(f1, f, false);
    hide Inv;
    hide Finish;
    hide Extends;
    hide Thinned;
    hide ToTicks;
    hide Added;
    assert calls + Closing(f, limit) == calls + Added(f, f1) + last;
    FramesAppend(calls + Added(f, f1), last);
    if last != [] { FramesOne(last[0]); assert last == [last[0]]; }
    FramesAppend(calls, Added(f, f1));
    AddedShows(f, f1, false, Frames(calls), M.Frame(0, 0, false, []));
    hide Frames;
    hide Reals;
    hide Aligned;
    var frames := Frames(calls) + Frames(Added(f, f1));
    assert frames + [] == frames && Reals(Frames(calls), f.out) + [] == Reals(Frames(calls), f.out);
  }

  // ----- the muxer's fragments -----

  /** What the muxer makes of a track depends on that track's calls alone. */
  lemma {:induction false} GivenOn(calls: seq<M.Call>, j: nat)
    ensures P.Given(CallsOn(calls, j), j) == P.Given(calls, j)
  {
    if calls != [] {
      var init, c := calls[..|calls| - 1], Last(calls);
      GivenOn(init, j);
      if c.track == j { assert (CallsOn(init, j) + [c])[..|CallsOn(init, j)|] == CallsOn(init, j); }
    }
  }

  /** A segment through muxParts and the muxer: a track beside the filler's ends up
      with exactly its samples before the limit, as the fragments read hold them. */
  lemma StitchedExactly(fill: Option<Fill>, scales: seq<int>, frags: seq<Fragment>, start: int, duration: int, j: nat)
    requires TracksKnown(scales, frags) && j < |scales| && Beside(fill, j)
    requires fill.Some? ==>
      var f := fill.value; f.scale > 0 && f.track < |scales| && f == At(f.track, f.scale, f.payload, f.end)
    requires forall i: nat | i < |scales| && Beside(fill, i) :: Forward(frags, i)
    ensures var calls := MuxParts(fill, scales, frags, start, duration).calls;
      && P.Allowed(scales, calls)
      && var (m, ok) := M.InnerFlush(P.Run(scales, calls).0, true);
         var s := P.Given(Direct(Turns(scales, frags, start, duration, |frags|), j), j);
         if s.kept == [] then P.Of(m.parts, j) == []
         else ok && P.Complete(P.Of(m.parts, j), P.Playlist(s), s.close)
  {
    if fill.Some? { BeginSynced(fill.value.track, fill.value.scale, fill.value.payload, fill.value.end, |scales|); }
    else { NoFillSynced(|scales|); }
    StitchedSegment(fill, scales, frags, start, duration, j);
    CallsAreTurns(fill, scales, frags, start, duration);
    GivenOn(MuxParts(fill, scales, frags, start, duration).calls, j);
    hide *;
    hide MuxParts;
  }

  lemma NoFillSynced(tracks: nat)
    ensures Synced(Play(None, [], 0, false), tracks)
  {
  }
}
