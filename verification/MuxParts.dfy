/** muxParts: one segment's fragments fed to the muxer, through the filler when
    there is one. */
module MuxPartsSpec {
  import opened Wrappers
  import opened Clock
  import opened FillSpec
  import M = MuxerSpec

  datatype Entry = Entry(duration: nat, offset: int, nonSync: bool, payload: M.Bytes)

  /** One traf of a moof: its track, base decode time in ticks, and samples. */
  datatype Trun = Trun(track: nat, base: nat, entries: seq<Entry>)

  type Fragment = seq<Trun>

  /** calls is what the muxer was told; elapsed how far the segment reached. */
  datatype Play = Play(fill: Option<Fill>, calls: seq<M.Call>, elapsed: int, stop: bool)

  /** The placeholders that took a fill from f to f1, as calls to the muxer. */
  function PlaceCalls(shots: seq<Shot>, track: nat, payload: M.Bytes): seq<M.Call> {
    if shots == [] then []
    else
      var init := PlaceCalls(shots[..|shots| - 1], track, payload);
      if Last(shots).Placeholder? then init + [M.Write(track, M.Frame(Last(shots).dts, 0, false, payload))] else init
  }

  function Added(f: Fill, f1: Fill): seq<M.Call> {
    if |f.out| <= |f1.out| then PlaceCalls(f1.out[|f.out|..], f.track, f.payload) else []
  }

  function MuxEntry(p: Play, tr: Trun, e: Entry, dts: int, scale: int): Play
    requires scale > 0 && (p.fill.Some? ==> p.fill.value.scale > 0)
  {
    var w := M.Write(tr.track, M.Frame(dts, e.offset, e.nonSync, e.payload));
    match p.fill
    case None => p.(calls := p.calls + [w])
    case Some(f) =>
      if tr.track == f.track then
        var (f1, ok) := Video(f, dts, e.offset, e.duration, !e.nonSync);
        p.(fill := Some(f1), calls := p.calls + Added(f, f1) + if ok then [w] else [])
      else
        p.(fill := Some(Other(f, ToNanos(dts + e.duration, scale))), calls := p.calls + [w])
  }

  /** The first k entries, until one starts at or past the limit; and the decode
      time reached. */
  function MuxEntries(p: Play, tr: Trun, scale: int, from: int, limit: int, k: nat): (r: (Play, int))
    requires scale > 0 && k <= |tr.entries| && (p.fill.Some? ==> p.fill.value.scale > 0)
    ensures r.0.fill.Some? == p.fill.Some? && (p.fill.Some? ==> r.0.fill.value.scale == p.fill.value.scale)
  {
    if k == 0 then (p.(stop := false), from)
    else
      var (p1, dts) := MuxEntries(p, tr, scale, from, limit, k - 1);
      if p1.stop || dts >= limit then (p1.(stop := true), dts)
      else
        var p2 := MuxEntry(p1, tr, tr.entries[k - 1], dts, scale);
        KeepsScale(p1, tr, tr.entries[k - 1], dts, scale);
        (p2, dts + tr.entries[k - 1].duration)
  }

  lemma KeepsScale(p: Play, tr: Trun, e: Entry, dts: int, scale: int)
    requires scale > 0 && (p.fill.Some? ==> p.fill.value.scale > 0)
    ensures var p1 := MuxEntry(p, tr, e, dts, scale);
      p1.fill.Some? == p.fill.Some? && (p.fill.Some? ==> p1.fill.value.scale == p.fill.value.scale) && p1.stop == p.stop
  {
    if p.fill.Some? { VideoKeepsScale(p.fill.value, dts, e.offset, e.duration, !e.nonSync); }
  }

  function MuxTrun(p: Play, scales: seq<int>, tr: Trun, start: int, duration: int): (p1: Play)
    requires tr.track < |scales| && 0 < scales[tr.track] && (p.fill.Some? ==> p.fill.value.scale > 0)
    ensures p1.fill.Some? == p.fill.Some? && (p.fill.Some? ==> p1.fill.value.scale == p.fill.value.scale)
  {
    var scale := scales[tr.track];
    var shift := ToTicks(start, scale);
    var (p1, dts) := MuxEntries(p, tr, scale, tr.base + shift, ToTicks(duration, scale), |tr.entries|);
    p1.(calls := p1.calls + [M.Finish(tr.track, dts)], stop := p.stop || p1.stop,
        elapsed := Max(p1.elapsed, ToNanos(dts - shift, scale)))
  }

  ghost predicate TracksKnown(scales: seq<int>, frags: seq<Fragment>) {
    && (forall j | 0 <= j < |scales| :: 0 < scales[j])
    && forall k, i | 0 <= k < |frags| && 0 <= i < |frags[k]| :: frags[k][i].track < |scales|
  }

  ghost predicate FragmentKnown(scales: seq<int>, frag: Fragment) {
    forall i | 0 <= i < |frag| :: frag[i].track < |scales| && 0 < scales[frag[i].track]
  }

  function MuxTruns(p: Play, scales: seq<int>, frag: Fragment, start: int, duration: int, k: nat): (p1: Play)
    requires k <= |frag| && FragmentKnown(scales, frag) && (p.fill.Some? ==> p.fill.value.scale > 0)
    ensures p1.fill.Some? == p.fill.Some? && (p.fill.Some? ==> p1.fill.value.scale == p.fill.value.scale)
  {
    if k == 0 then p
    else MuxTrun(MuxTruns(p, scales, frag, start, duration, k - 1), scales, frag[k - 1], start, duration)
  }

  /** The filler's turn at a moof. */
  function AtMoof(p: Play): (p1: Play)
    ensures p1.fill.Some? == p.fill.Some? && (p.fill.Some? ==> p1.fill.value.scale == p.fill.value.scale)
  {
    match p.fill
    case None => p
    case Some(f) =>
      PutKeepsScale(f, f.end, f.otherEnd - THRESHOLD);
      p.(fill := Some(CatchUp(f)), calls := p.calls + Added(f, CatchUp(f)))
  }

  /** The first n fragments; reading stops after the one in which a track reached
      the limit. */
  function MuxFragments(p: Play, scales: seq<int>, frags: seq<Fragment>, start: int, duration: int, n: nat): (p1: Play)
    requires n <= |frags| && TracksKnown(scales, frags) && (p.fill.Some? ==> p.fill.value.scale > 0)
    ensures p1.fill.Some? == p.fill.Some? && (p.fill.Some? ==> p1.fill.value.scale == p.fill.value.scale)
  {
    if n == 0 then p
    else
      var p1 := MuxFragments(p, scales, frags, start, duration, n - 1);
      if p1.stop then p1
      else MuxTruns(AtMoof(p1), scales, frags[n - 1], start, duration, |frags[n - 1]|)
  }

  function AtEnd(p: Play, limit: int): (p1: Play)
    requires p.fill.Some? ==> p.fill.value.scale > 0
    ensures p1.fill.Some? == p.fill.Some? && (p.fill.Some? ==> p1.fill.value.scale == p.fill.value.scale)
  {
    match p.fill
    case None => p
    case Some(f) =>
      PutKeepsScale(f, f.end, Min(f.otherEnd, limit));
      var (f1, final) := Finish(f, limit);
      p.(fill := Some(f1),
         calls := p.calls + Added(f, f1)
                  + if final.Some? then [M.Finish(f.track, ToTicks(final.value, f.scale))] else [])
  }

  function MuxParts(fill: Option<Fill>, scales: seq<int>, frags: seq<Fragment>, start: int, duration: int): (p: Play)
    requires TracksKnown(scales, frags) && (fill.Some? ==> fill.value.scale > 0)
    ensures p.fill.Some? == fill.Some? && (fill.Some? ==> p.fill.value.scale == fill.value.scale)
  {
    AtEnd(MuxFragments(Play(fill, [], 0, false), scales, frags, start, duration, |frags|), duration)
  }

  /** muxParts itself. */
  method Walk(fill: Option<Fill>, scales: seq<int>, frags: seq<Fragment>, start: int, duration: int) returns (p: Play)
    requires TracksKnown(scales, frags) && (fill.Some? ==> fill.value.scale > 0)
    ensures p == MuxParts(fill, scales, frags, start, duration)
  {
    hide AtMoof;
    hide AtEnd;
    hide MuxTrun;
    p := Play(fill, [], 0, false);
    for n := 0 to |frags|
      invariant p == MuxFragments(Play(fill, [], 0, false), scales, frags, start, duration, n)
    {
      if !p.stop {
        p := AtMoof(p);
        ghost var p0 := p;
        for k := 0 to |frags[n]|
          invariant p == MuxTruns(p0, scales, frags[n], start, duration, k)
        {
          p := WalkTrun(p, scales, frags[n][k], start, duration);
        }
      }
    }
    p := AtEnd(p, duration);
  }

  method WalkTrun(p: Play, scales: seq<int>, tr: Trun, start: int, duration: int) returns (p1: Play)
    requires tr.track < |scales| && 0 < scales[tr.track] && (p.fill.Some? ==> p.fill.value.scale > 0)
    ensures p1 == MuxTrun(p, scales, tr, start, duration)
  {
    hide MuxEntry;
    hide ToTicks;
    hide ToNanos;
    var scale := scales[tr.track];
    var shift, limit := ToTicks(start, scale), ToTicks(duration, scale);
    var dts := tr.base + shift;
    p1 := p.(stop := false);
    for k := 0 to |tr.entries|
      invariant (p1, dts) == MuxEntries(p, tr, scale, tr.base + shift, limit, k)
    {
      if p1.stop || dts >= limit {
        p1 := p1.(stop := true);
      } else {
        p1 := MuxEntry(p1, tr, tr.entries[k], dts, scale);
        dts := dts + tr.entries[k].duration;
      }
    }
    p1 := p1.(calls := p1.calls + [M.Finish(tr.track, dts)], stop := p.stop || p1.stop,
              elapsed := Max(p1.elapsed, ToNanos(dts - shift, scale)));
  }
}

/** What reaches the muxer over a whole segment. */
module MuxPartsProofs {
  import opened Wrappers
  import opened Clock
  import opened FillSpec
  import opened FillProofs
  import opened MuxPartsSpec
  import M = MuxerSpec
  import P = MuxerProofs

  /** The decode times written to a track, in order. */
  function Written(calls: seq<M.Call>, track: nat): seq<int> {
    if calls == [] then []
    else
      var init, c := Written(calls[..|calls| - 1], track), Last(calls);
      if c.Write? && c.track == track then init + [c.frame.dts] else init
  }

  function Dts(out: seq<Shot>): seq<int> {
    seq(|out|, k requires 0 <= k < |out| => out[k].dts)
  }

  lemma {:induction false} WrittenAppend(a: seq<M.Call>, b: seq<M.Call>, track: nat)
    ensures Written(a + b, track) == Written(a, track) + Written(b, track)
    decreases |b|
  {
    if b == [] {
      assert a + b == a;
    } else {
      var init := b[..|b| - 1];
      WrittenAppend(a, init, track);
      assert (a + b)[..|a + b| - 1] == a + init;
    }
  }

  lemma {:induction false} PlaceCallsWritten(shots: seq<Shot>, track: nat, payload: M.Bytes, j: nat)
    requires forall k | 0 <= k < |shots| :: shots[k].Placeholder?
    ensures Written(PlaceCalls(shots, track, payload), j) == if j == track then Dts(shots) else []
  {
    if shots != [] {
      var init, fr := shots[..|shots| - 1], M.Frame(Last(shots).dts, 0, false, payload);
      PlaceCallsWritten(init, track, payload, j);
      var calls := PlaceCalls(init, track, payload);
      assert PlaceCalls(shots, track, payload) == calls + [M.Write(track, fr)];
      hide PlaceCalls;
      WrittenAppend(calls, [M.Write(track, fr)], j);
      OneWrite(track, fr, j);
      hide Written;
      DtsAppend(init, Last(shots));
      assert shots == init + [Last(shots)];
      hide Dts;
    }
  }

  lemma DtsAppend(out: seq<Shot>, s: Shot)
    ensures Dts(out + [s]) == Dts(out) + [s.dts]
  {
  }

  lemma {:induction false} PlaceCallsTrack(shots: seq<Shot>, track: nat, payload: M.Bytes)
    ensures forall k | 0 <= k < |PlaceCalls(shots, track, payload)| ::
        PlaceCalls(shots, track, payload)[k].track == track
  {
    if shots != [] { PlaceCallsTrack(shots[..|shots| - 1], track, payload); }
  }

  lemma {:induction false} PlaceCallsFrame(shots: seq<Shot>, track: nat, payload: M.Bytes, tail: Shot)
    requires tail.Real?
    ensures PlaceCalls(shots + [tail], track, payload) == PlaceCalls(shots, track, payload)
  {
    assert (shots + [tail])[..|shots|] == shots;
  }

  /** f1 is f with placeholders added, then possibly a real frame. */
  ghost predicate Extends(f1: Fill, f: Fill, framed: bool) {
    && |f.out| + (if framed then 1 else 0) <= |f1.out| && f.out <= f1.out
    && (forall k | |f.out| <= k < |f1.out| - (if framed then 1 else 0) :: f1.out[k].Placeholder?)
    && (framed ==> Last(f1.out).Real?)
    && f1.track == f.track && f1.payload == f.payload && f1.scale == f.scale
  }

  ghost predicate Known(calls: seq<M.Call>, tracks: nat) {
    forall k | 0 <= k < |calls| :: calls[k].track < tracks
  }

  /** The placeholders f1 has beyond f. */
  ghost function Places(f: Fill, f1: Fill, framed: bool): seq<Shot>
    requires Extends(f1, f, framed)
  {
    f1.out[|f.out|..|f1.out| - if framed then 1 else 0]
  }

  lemma AddedPlaces(f: Fill, f1: Fill, framed: bool)
    requires Extends(f1, f, framed)
    ensures var places := Places(f, f1, framed);
      && Added(f, f1) == PlaceCalls(places, f.track, f.payload)
      && f1.out == f.out + places + (if framed then [Last(f1.out)] else [])
      && forall k | 0 <= k < |places| :: places[k].Placeholder?
  {
    hide PlaceCalls;
    var tail, places := f1.out[|f.out|..], Places(f, f1, framed);
    if framed {
      assert tail == places + [Last(f1.out)];
      PlaceCallsFrame(places, f.track, f.payload, Last(f1.out));
    } else {
      assert tail == places;
    }
  }

  lemma AddedWritten(f: Fill, f1: Fill, framed: bool, tracks: nat)
    requires Extends(f1, f, framed) && f.track < tracks
    ensures Dts(f1.out) == Dts(f.out) + Written(Added(f, f1), f.track) + (if framed then [Last(f1.out).dts] else [])
    ensures Known(Added(f, f1), tracks)
  {
    hide Added;
    hide PlaceCalls;
    hide Written;
    AddedPlaces(f, f1, framed);
    var places := Places(f, f1, framed);
    PlaceCallsWritten(places, f.track, f.payload, f.track);
    PlaceCallsTrack(places, f.track, f.payload);
    hide Extends;
    hide Places;
  }

  lemma {:induction false} PutFromPayload(f: Fill, t: int, target: int)
    ensures PutFrom(f, t, target).0.payload == f.payload
    decreases target - t
  {
    hide ToTicks;
    if t < target { PutFromPayload(Put(f, t), t + SECOND, target); }
  }

  lemma FillToExtends(f: Fill, target: int)
    requires Inv(f)
    ensures Extends(FillTo(f, target), f, false)
  {
    hide ToNanos;
    hide ToTicks;
    FillToOk(f, target);
    PutFromPayload(f, f.end, target);
  }

  lemma VideoExtends(f: Fill, dts: int, offset: int, duration: int, sync: bool)
    requires Inv(f)
    ensures var (f1, ok) := Video(f, dts, offset, duration, sync);
      Extends(f1, f, ok) && (ok ==> Last(f1.out).dts == dts)
  {
    hide ToNanos;
    hide ToTicks;
    hide FillTo;
    FillToExtends(f, ToNanos(dts, f.scale));
    hide Inv;
  }

  /** The calls are to the tracks there are, the filler's invariant holds, and the
      muxer's video track was written exactly what the filler let through or put in. */
  ghost predicate Synced(p: Play, tracks: nat) {
    && Known(p.calls, tracks)
    && (p.fill.Some? ==>
          var f := p.fill.value;
          f.track < tracks && f.scale > 0 && Inv(f) && Written(p.calls, f.track) == Dts(f.out))
  }

  /** p1 is a later moment of the same fill, as steady as p's. */
  ghost predicate Goes(p1: Play, p: Play, tracks: nat) {
    && Synced(p1, tracks) && p1.fill.Some? == p.fill.Some?
    && (p.fill.Some? ==>
          var f, f1 := p.fill.value, p1.fill.value;
          f1.track == f.track && f1.scale == f.scale && f.out <= f1.out && (Steady(f) ==> Steady(f1)))
  }

  lemma OneWrite(track: nat, fr: M.Frame, j: nat)
    ensures Written([M.Write(track, fr)], j) == if j == track then [fr.dts] else []
  {
    assert [M.Write(track, fr)][..0] == [];
  }

  lemma OneFinish(track: nat, dts: int, j: nat)
    ensures Written([M.Finish(track, dts)], j) == []
  {
    assert [M.Finish(track, dts)][..0] == [];
  }

  /** The fill moves on and its placeholders are written, then perhaps a frame. */
  lemma GrownOk(p: Play, f1: Fill, framed: bool, w: M.Call, tracks: nat)
    requires Synced(p, tracks) && p.fill.Some? && Inv(f1) && Extends(f1, p.fill.value, framed)
    requires Steady(p.fill.value) ==> Steady(f1)
    requires framed ==> w.Write? && w.track == f1.track && w.frame.dts == Last(f1.out).dts
    ensures var calls := p.calls + Added(p.fill.value, f1) + if framed then [w] else [];
      Goes(p.(fill := Some(f1), calls := calls), p, tracks)
  {
    var f := p.fill.value;
    AddedWritten(f, f1, framed, tracks);
    hide Inv;
    hide Steady;
    hide Added;
    hide Dts;
    var a := Added(f, f1);
    WrittenAppend(p.calls, a, f.track);
    WrittenAppend(p.calls + a, if framed then [w] else [], f.track);
    if framed { OneWrite(w.track, w.frame, f.track); }
    assert Written(p.calls, f.track) + Written(a, f.track) == Written(p.calls + a, f.track);
  }

  lemma VideoEntryOk(p: Play, tr: Trun, e: Entry, dts: int, scale: int, tracks: nat)
    requires Synced(p, tracks) && scale > 0 && p.fill.Some? && tr.track == p.fill.value.track
    ensures Goes(MuxEntry(p, tr, e, dts, scale), p, tracks)
  {
    var f := p.fill.value;
    VideoOk(f, dts, e.offset, e.duration, !e.nonSync);
    VideoExtends(f, dts, e.offset, e.duration, !e.nonSync);
    if Steady(f) { VideoSteady(f, dts, e.offset, e.duration, !e.nonSync); }
    var (f1, ok) := Video(f, dts, e.offset, e.duration, !e.nonSync);
    hide Video;
    hide Inv;
    hide Steady;
    hide Extends;
    hide Written;
    hide Added;
    GrownOk(p, f1, ok, M.Write(tr.track, M.Frame(dts, e.offset, e.nonSync, e.payload)), tracks);
  }

  /** A call that writes nothing to the filler's track. */
  lemma BesideOk(p: Play, p1: Play, c: M.Call, tracks: nat)
    requires Synced(p, tracks) && c.track < tracks && p1.calls == p.calls + [c] && p1.fill.Some? == p.fill.Some?
    requires p.fill.Some? ==> p1.fill.value == p.fill.value.(otherEnd := p1.fill.value.otherEnd)
    requires p.fill.Some? && c.Write? ==> c.track != p.fill.value.track
    ensures Goes(p1, p, tracks)
  {
    hide ToNanos;
    hide ToTicks;
    if p.fill.Some? {
      var j := p.fill.value.track;
      WrittenAppend(p.calls, [c], j);
      if c.Write? { OneWrite(c.track, c.frame, j); } else { OneFinish(c.track, c.dts, j); }
      assert Written(p.calls, j) + [] == Written(p.calls, j);
    }
    hide Written;
    hide InOrder;
    hide Strict;
  }

  lemma MuxEntryOk(p: Play, tr: Trun, e: Entry, dts: int, scale: int, tracks: nat)
    requires Synced(p, tracks) && scale > 0 && tr.track < tracks
    ensures Goes(MuxEntry(p, tr, e, dts, scale), p, tracks)
  {
    if p.fill.Some? && tr.track == p.fill.value.track {
      VideoEntryOk(p, tr, e, dts, scale, tracks);
    } else {
      hide Inv;
      hide Written;
      hide ToNanos;
      hide Steady;
      var w := M.Write(tr.track, M.Frame(dts, e.offset, e.nonSync, e.payload));
      BesideOk(p, MuxEntry(p, tr, e, dts, scale), w, tracks);
    }
    hide MuxEntry;
  }

  lemma {:induction false} MuxEntriesOk(p: Play, tr: Trun, scale: int, from: int, limit: int, k: nat, tracks: nat)
    requires Synced(p, tracks) && scale > 0 && k <= |tr.entries| && tr.track < tracks
    ensures Goes(MuxEntries(p, tr, scale, from, limit, k).0, p, tracks)
  {
    hide MuxEntry;
    hide Inv;
    hide Steady;
    hide Written;
    if k > 0 {
      MuxEntriesOk(p, tr, scale, from, limit, k - 1, tracks);
      var (p1, dts) := MuxEntries(p, tr, scale, from, limit, k - 1);
      if !(p1.stop || dts >= limit) { MuxEntryOk(p1, tr, tr.entries[k - 1], dts, scale, tracks); }
    }
  }

  lemma MuxTrunOk(p: Play, scales: seq<int>, tr: Trun, start: int, duration: int)
    requires Synced(p, |scales|) && tr.track < |scales| && 0 < scales[tr.track]
    ensures Goes(MuxTrun(p, scales, tr, start, duration), p, |scales|)
  {
    hide ToNanos;
    hide ToTicks;
    hide Inv;
    hide Steady;
    hide Written;
    var scale := scales[tr.track];
    var from, limit := tr.base + ToTicks(start, scale), ToTicks(duration, scale);
    MuxEntriesOk(p, tr, scale, from, limit, |tr.entries|, |scales|);
    var (p1, dts) := MuxEntries(p, tr, scale, from, limit, |tr.entries|);
    hide MuxEntries;
    BesideOk(p1, MuxTrun(p, scales, tr, start, duration), M.Finish(tr.track, dts), |scales|);
  }

  lemma {:induction false} MuxTrunsOk(p: Play, scales: seq<int>, frag: Fragment, start: int, duration: int, k: nat)
    requires Synced(p, |scales|) && k <= |frag| && FragmentKnown(scales, frag)
    ensures Goes(MuxTruns(p, scales, frag, start, duration, k), p, |scales|)
  {
    hide MuxTrun;
    hide Inv;
    hide Steady;
    hide Written;
    if k > 0 {
      MuxTrunsOk(p, scales, frag, start, duration, k - 1);
      MuxTrunOk(MuxTruns(p, scales, frag, start, duration, k - 1), scales, frag[k - 1], start, duration);
    }
  }

  /** After the filler's turn at a moof the covered video lags by 10 s at most. */
  lemma AtMoofOk(p: Play, tracks: nat)
    requires Synced(p, tracks)
    ensures Goes(AtMoof(p), p, tracks)
    ensures p.fill.Some? ==> AtMoof(p).fill.value.otherEnd - AtMoof(p).fill.value.end <= 2 * THRESHOLD
  {
    if p.fill.Some? {
      var f := p.fill.value;
      CatchUpOk(f);
      if f.otherEnd - f.end > 2 * THRESHOLD {
        FillToExtends(f, f.otherEnd - THRESHOLD);
        if Steady(f) { FillToSteady(f, f.otherEnd - THRESHOLD); }
      }
      hide Inv;
      hide Steady;
      hide FillTo;
      hide Written;
      hide Added;
      var a := Added(f, CatchUp(f));
      assert p.calls + a + [] == p.calls + a;
      GrownOk(p, CatchUp(f), false, M.Finish(0, 0), tracks);
    }
  }

  lemma {:induction false} MuxFragmentsOk(p: Play, scales: seq<int>, frags: seq<Fragment>, start: int, duration: int,
                                          n: nat)
    requires Synced(p, |scales|) && n <= |frags| && TracksKnown(scales, frags)
    ensures Goes(MuxFragments(p, scales, frags, start, duration, n), p, |scales|)
  {
    hide MuxTruns;
    hide AtMoof;
    hide Inv;
    hide Steady;
    hide Written;
    if n > 0 {
      MuxFragmentsOk(p, scales, frags, start, duration, n - 1);
      var p1 := MuxFragments(p, scales, frags, start, duration, n - 1);
      if !p1.stop {
        AtMoofOk(p1, |scales|);
        MuxTrunsOk(AtMoof(p1), scales, frags[n - 1], start, duration, |frags[n - 1]|);
      }
    }
  }

  lemma AtEndOk(p: Play, limit: int, tracks: nat)
    requires Synced(p, tracks)
    ensures Goes(AtEnd(p, limit), p, tracks)
    ensures p.fill.Some? ==>
      var f := AtEnd(p, limit).fill.value; Min(f.otherEnd, limit) - f.end <= THRESHOLD
  {
    if p.fill.Some? {
      var f := p.fill.value;
      FinishOk(f, limit);
      var target := Min(f.otherEnd, limit);
      if target - f.end > THRESHOLD {
        FillToExtends(f, target);
        if Steady(f) { FillToSteady(f, target); }
      }
      hide Inv;
      hide Steady;
      hide FillTo;
      hide ToTicks;
      hide Written;
      hide Added;
      var (f1, final) := Finish(f, limit);
      GrownOk(p, f1, false, M.Finish(0, 0), tracks);
      var p1 := p.(fill := Some(f1), calls := p.calls + Added(f, f1) + []);
      if final.Some? {
        BesideOk(p1, AtEnd(p, limit), M.Finish(f.track, ToTicks(final.value, f.scale)), tracks);
      }
    }
  }

  // ----- the order of what was written -----

  lemma {:induction false} WrittenHas(calls: seq<M.Call>, track: nat, a: nat) returns (i: nat)
    requires a < |calls| && calls[a].Write? && calls[a].track == track
    ensures i < |Written(calls, track)| && Written(calls, track)[i] == calls[a].frame.dts
  {
    var init := calls[..|calls| - 1];
    if a < |calls| - 1 { i := WrittenHas(init, track, a); } else { i := |Written(init, track)|; }
  }

  /** Two writes to a track, in the order they were made. */
  lemma {:induction false} WrittenPair(calls: seq<M.Call>, track: nat, a: nat, b: nat) returns (i: nat, j: nat)
    requires a < b < |calls|
    requires calls[a].Write? && calls[b].Write? && calls[a].track == calls[b].track == track
    ensures i < j < |Written(calls, track)|
    ensures Written(calls, track)[i] == calls[a].frame.dts && Written(calls, track)[j] == calls[b].frame.dts
    decreases |calls|
  {
    var init := calls[..|calls| - 1];
    if b < |calls| - 1 {
      i, j := WrittenPair(init, track, a, b);
    } else {
      i := WrittenHas(init, track, a);
      j := |Written(init, track)|;
    }
  }

  /** A later write to a track never decodes earlier, nor at the same tick past 0. */
  ghost predicate Spaced(calls: seq<M.Call>, track: nat) {
    forall a, b | 0 <= a < b < |calls| && calls[a].Write? && calls[b].Write?
                  && calls[a].track == calls[b].track == track ::
      && calls[a].frame.dts <= calls[b].frame.dts
      && (calls[b].frame.dts > 0 ==> calls[a].frame.dts < calls[b].frame.dts)
  }

  ghost predicate Increasing(calls: seq<M.Call>, track: nat) {
    forall a, b | 0 <= a < b < |calls| && calls[a].Write? && calls[b].Write?
                  && calls[a].track == calls[b].track == track ::
      calls[a].frame.dts < calls[b].frame.dts
  }

  lemma SyncedSpaced(p: Play, tracks: nat)
    requires Synced(p, tracks) && p.fill.Some?
    ensures Spaced(p.calls, p.fill.value.track)
    ensures Strict(p.fill.value.out) ==> Increasing(p.calls, p.fill.value.track)
  {
    var out, track := p.fill.value.out, p.fill.value.track;
    forall a, b | 0 <= a < b < |p.calls| && p.calls[a].Write? && p.calls[b].Write?
                  && p.calls[a].track == p.calls[b].track == track
      ensures p.calls[a].frame.dts <= p.calls[b].frame.dts
      ensures p.calls[b].frame.dts > 0 || Strict(out) ==> p.calls[a].frame.dts < p.calls[b].frame.dts
    {
      var i, j := WrittenPair(p.calls, track, a, b);
      assert Follows(out[i], out[j], p.fill.value.scale);
    }
    hide Written;
    hide InOrder;
  }

  function Begin(track: nat, scale: int, payload: M.Bytes, place: int): Play {
    Play(Some(At(track, scale, payload, place)), [], 0, false)
  }

  lemma BeginSynced(track: nat, scale: int, payload: M.Bytes, place: int, tracks: nat)
    requires scale > 0 && track < tracks
    ensures Synced(Begin(track, scale, payload, place), tracks)
  {
    FreshInv(track, scale, payload, place);
    assert Dts([]) == [];
  }

  /** Wherever the segment is placed and whatever its fragments hold: the video
      samples reaching the muxer, placeholders and real frames together, never go
      back in decode time and strictly increase above tick 0; after a placeholder
      the first real frame is a keyframe; no placeholder is shown before a frame
      that precedes it ends; the video is covered to within 5 s of the end. */
  lemma SplicedInOrder(track: nat, scale: int, payload: M.Bytes, place: int,
                       scales: seq<int>, frags: seq<Fragment>, start: int, duration: int)
    requires scale > 0 && track < |scales| && TracksKnown(scales, frags)
    ensures var p := MuxParts(Some(At(track, scale, payload, place)), scales, frags, start, duration);
      && InOrder(p.fill.value.out, scale)
      && Written(p.calls, track) == Dts(p.fill.value.out)
      && Spaced(p.calls, track)
      && Min(p.fill.value.otherEnd, duration) - p.fill.value.end <= THRESHOLD
  {
    var p0 := Begin(track, scale, payload, place);
    BeginSynced(track, scale, payload, place, |scales|);
    MuxFragmentsOk(p0, scales, frags, start, duration, |frags|);
    var p1 := MuxFragments(p0, scales, frags, start, duration, |frags|);
    AtEndOk(p1, duration, |scales|);
    SyncedSpaced(AtEnd(p1, duration), |scales|);
    hide MuxFragments;
    hide AtEnd;
    hide Dts;
    hide Written;
    hide InOrder;
    hide Spaced;
  }

  /** At the start of every fragment read, the covered video lags the other tracks
      by 10 s at most. */
  lemma LagAtFragments(track: nat, scale: int, payload: M.Bytes, place: int,
                       scales: seq<int>, frags: seq<Fragment>, start: int, duration: int, n: nat)
    requires scale > 0 && track < |scales| && TracksKnown(scales, frags) && n < |frags|
    ensures var p := MuxFragments(Begin(track, scale, payload, place), scales, frags, start, duration, n);
      !p.stop ==>
        && AtMoof(p).fill.value.otherEnd - AtMoof(p).fill.value.end <= 2 * THRESHOLD
        && MuxFragments(Begin(track, scale, payload, place), scales, frags, start, duration, n + 1)
           == MuxTruns(AtMoof(p), scales, frags[n], start, duration, |frags[n]|)
  {
    var p0 := Begin(track, scale, payload, place);
    BeginSynced(track, scale, payload, place, |scales|);
    MuxFragmentsOk(p0, scales, frags, start, duration, n);
    AtMoofOk(MuxFragments(p0, scales, frags, start, duration, n), |scales|);
    hide AtMoof;
    hide MuxTruns;
  }

  // ----- where the order is strict -----

  /** From these places on, no run can break the strict order: the safe ones, and
      those whose first fragment already makes the filler catch up to -5 s. */
  predicate SafeStart(scale: int, place: int)
    requires scale > 0
  {
    SafePlace(scale, place) || place < -2 * THRESHOLD
  }

  /** A fill placed before -10 s is at or after -5 s once a fragment was begun. */
  lemma FirstMoofSteady(track: nat, scale: int, payload: M.Bytes, place: int)
    requires scale > 0 && SafeStart(scale, place)
    ensures AtMoof(Begin(track, scale, payload, place)).fill.Some?
    ensures Steady(AtMoof(Begin(track, scale, payload, place)).fill.value)
  {
    var f := At(track, scale, payload, place);
    FreshInv(track, scale, payload, place);
    if 0 - place > 2 * THRESHOLD {
      FillToOk(f, 0 - THRESHOLD);
      FillToStrict(f, 0 - THRESHOLD);
    }
    hide FillTo;
    hide Strict;
  }

  lemma {:induction false} FragmentsSteady(track: nat, scale: int, payload: M.Bytes, place: int,
                                           scales: seq<int>, frags: seq<Fragment>, start: int, duration: int, n: nat)
    requires scale > 0 && SafeStart(scale, place) && track < |scales| && TracksKnown(scales, frags) && 0 < n <= |frags|
    ensures Steady(MuxFragments(Begin(track, scale, payload, place), scales, frags, start, duration, n).fill.value)
  {
    hide Steady;
    hide Inv;
    hide Written;
    hide AtMoof;
    hide MuxTruns;
    var p0 := Begin(track, scale, payload, place);
    BeginSynced(track, scale, payload, place, |scales|);
    MuxFragmentsOk(p0, scales, frags, start, duration, n - 1);
    var p1 := MuxFragments(p0, scales, frags, start, duration, n - 1);
    if n == 1 {
      FirstMoofSteady(track, scale, payload, place);
    } else {
      FragmentsSteady(track, scale, payload, place, scales, frags, start, duration, n - 1);
    }
    if !p1.stop {
      AtMoofOk(p1, |scales|);
      MuxTrunsOk(AtMoof(p1), scales, frags[n - 1], start, duration, |frags[n - 1]|);
    }
  }

  /** The last fill of a segment keeps a strict order strict. */
  lemma EndStrict(p: Play, limit: int, tracks: nat)
    requires Synced(p, tracks) && p.fill.Some? && Strict(p.fill.value.out)
    ensures Strict(AtEnd(p, limit).fill.value.out)
  {
    var f := p.fill.value;
    FillToStrict(f, Min(f.otherEnd, limit));
    hide FillTo;
    hide Strict;
    hide Inv;
    hide Written;
  }

  lemma SafeRunStrict(track: nat, scale: int, payload: M.Bytes, place: int,
                      scales: seq<int>, frags: seq<Fragment>, start: int, duration: int)
    requires scale > 0 && SafeStart(scale, place) && track < |scales| && TracksKnown(scales, frags)
    ensures Strict(MuxParts(Some(At(track, scale, payload, place)), scales, frags, start, duration).fill.value.out)
  {
    var p0 := Begin(track, scale, payload, place);
    BeginSynced(track, scale, payload, place, |scales|);
    FreshInv(track, scale, payload, place);
    MuxFragmentsOk(p0, scales, frags, start, duration, |frags|);
    if frags != [] { FragmentsSteady(track, scale, payload, place, scales, frags, start, duration, |frags|); }
    var p1 := MuxFragments(p0, scales, frags, start, duration, |frags|);
    assert Strict(p1.fill.value.out);
    EndStrict(p1, duration, |scales|);
    hide MuxFragments;
    hide AtEnd;
    hide Strict;
    hide Synced;
  }

  /** Every run with the fill placed where the segment's decode times start, as both
      callers place it, writes the video in strictly increasing decode times. */
  ghost predicate EveryRunStrict(track: nat, scale: int, payload: M.Bytes, place: int)
    requires scale > 0
  {
    forall scales, frags, duration | track < |scales| && TracksKnown(scales, frags) ::
      Strict(MuxParts(Some(At(track, scale, payload, place)), scales, frags, place, duration).fill.value.out)
  }

  /** A trun holding one keyframe of no length at the given output tick. */
  function OneFrame(track: nat, scale: int, place: int, dts: int): Trun
    requires ToTicks(place, scale) <= dts
  {
    Trun(track, dts - ToTicks(place, scale), [Entry(0, 0, false, [])])
  }

  function Frames(track: nat, scale: int, place: int, samples: seq<VideoSample>): Fragment
    requires forall k | 0 <= k < |samples| :: ToTicks(place, scale) <= samples[k].dts
  {
    seq(|samples|, k requires 0 <= k < |samples| => OneFrame(track, scale, place, samples[k].dts))
  }

  lemma OneFrameTrun(p: Play, scales: seq<int>, place: int, dts: int)
    requires p.fill.Some? && p.fill.value.scale > 0 && p.fill.value.track < |scales|
    requires scales[p.fill.value.track] == p.fill.value.scale && ToTicks(place, p.fill.value.scale) <= dts <= 0
    ensures var f := p.fill.value;
      MuxTrun(p, scales, OneFrame(f.track, f.scale, place, dts), place, SECOND).fill
        == Some(Video(f, dts, 0, 0, true).0)
  {
    var f := p.fill.value;
    WholeSecond(f.scale);
    hide Video;
    hide ToTicks;
    hide ToNanos;
    var tr, limit := OneFrame(f.track, f.scale, place, dts), ToTicks(SECOND, f.scale);
    var p0 := p.(stop := false);
    assert MuxEntries(p, tr, f.scale, dts, limit, 0) == (p0, dts);
    assert MuxEntries(p, tr, f.scale, dts, limit, 1) == (MuxEntry(p0, tr, tr.entries[0], dts, f.scale), dts);
  }

  lemma {:induction false} FramesSplice(p: Play, scales: seq<int>, place: int, samples: seq<VideoSample>, k: nat)
    requires p.fill.Some? && p.fill.value.scale > 0 && p.fill.value.track < |scales|
    requires scales[p.fill.value.track] == p.fill.value.scale && k <= |samples|
    requires forall i | 0 <= i < |samples| ::
      ToTicks(place, p.fill.value.scale) <= samples[i].dts <= 0 && samples[i] == VideoSample(samples[i].dts, 0, 0, true)
    requires Inv(p.fill.value)
    ensures var f := p.fill.value;
      var frag := Frames(f.track, f.scale, place, samples);
      FragmentKnown(scales, frag) && MuxTruns(p, scales, frag, place, SECOND, k).fill == Some(Splice(f, samples[..k]))
  {
    hide ToTicks;
    hide MuxTrun;
    hide Video;
    hide Inv;
    var f := p.fill.value;
    var frag := Frames(f.track, f.scale, place, samples);
    assert FragmentKnown(scales, frag);
    if k > 0 {
      FramesSplice(p, scales, place, samples, k - 1);
      SpliceOk(f, samples[..k - 1]);
      SpliceTrack(f, samples[..k - 1]);
      OneFrameTrun(MuxTruns(p, scales, frag, place, SECOND, k - 1), scales, place, samples[k - 1].dts);
      assert samples[..k][..k - 1] == samples[..k - 1];
    }
  }

  lemma {:induction false} SpliceTrack(f: Fill, samples: seq<VideoSample>)
    requires Inv(f)
    ensures Splice(f, samples).track == f.track
  {
    assert f.scale > 0;
    hide Inv;
    hide Video;
    if samples != [] {
      var init, s := samples[..|samples| - 1], Last(samples);
      SpliceTrack(f, init);
      SpliceOk(f, init);
      VideoOk(Splice(f, init), s.dts, s.offset, s.duration, s.sync);
    }
  }

  lemma BreakingPlain(scale: int, place: int)
    requires scale > 0
    ensures var b := Breaking(scale, place);
      forall i | 0 <= i < |b| :: b[i] == VideoSample(b[i].dts, 0, 0, true)
  {
    hide ToTicks;
    hide ToNanos;
  }

  /** Files of one fragment, read for a second. */
  lemma OneFragmentRun(p: Play, scales: seq<int>, frag: Fragment, place: int)
    requires p.fill.Some? && p.fill.value.scale > 0 && p == Play(p.fill, [], 0, false)
    requires TracksKnown(scales, [frag]) && FragmentKnown(scales, frag)
    ensures MuxParts(p.fill, scales, [frag], place, SECOND)
         == AtEnd(MuxTruns(AtMoof(p), scales, frag, place, SECOND, |frag|), SECOND)
  {
    hide AtMoof;
    hide MuxTruns;
    hide AtEnd;
    hide ToTicks;
    hide ToNanos;
    assert MuxFragments(p, scales, [frag], place, SECOND, 0) == p;
    assert MuxFragments(p, scales, [frag], place, SECOND, 1)
        == MuxTruns(AtMoof(p), scales, frag, place, SECOND, |frag|);
  }

  lemma EndNotStrict(p: Play, limit: int, tracks: nat)
    requires Synced(p, tracks) && p.fill.Some? && !Strict(p.fill.value.out)
    ensures !Strict(AtEnd(p, limit).fill.value.out)
  {
    AtEndOk(p, limit, tracks);
    hide AtEnd;
    hide Steady;
    hide Inv;
    hide Written;
    if Strict(AtEnd(p, limit).fill.value.out) {
      StrictPrefix(p.fill.value.out, AtEnd(p, limit).fill.value.out);
    }
  }

  /** The file that breaks the strict order after a fill placed at an unsafe time
      no earlier than -10 s. */
  function BreakingFile(track: nat, scale: int, place: int): seq<Fragment>
    requires scale > 0
    requires forall k | 0 <= k < |Breaking(scale, place)| :: ToTicks(place, scale) <= Breaking(scale, place)[k].dts
  {
    [Frames(track, scale, place, Breaking(scale, place))]
  }

  lemma FirstFragmentBreaks(track: nat, scale: int, payload: M.Bytes, place: int, scales: seq<int>)
    requires scale > 0 && !SafeStart(scale, place) && track < |scales| && scales[track] == scale
    requires forall k | 0 <= k < |Breaking(scale, place)| :: ToTicks(place, scale) <= Breaking(scale, place)[k].dts
    ensures var frag := Frames(track, scale, place, Breaking(scale, place));
      && FragmentKnown(scales, frag)
      && var p := MuxTruns(AtMoof(Begin(track, scale, payload, place)), scales, frag, place, SECOND, |frag|);
         p.fill.Some? && !Strict(p.fill.value.out)
  {
    var f, samples := At(track, scale, payload, place), Breaking(scale, place);
    var p0 := AtMoof(Begin(track, scale, payload, place));
    assert p0.fill == Some(f);
    hide *;
    BreakingBreaks(track, scale, payload, place);
    FreshInv(track, scale, payload, place);
    BreakingPlain(scale, place);
    FramesSplice(p0, scales, place, samples, |samples|);
    assert samples[..|samples|] == samples;
  }

  /** A place that is not safe: the file above breaks the strict order. */
  lemma UnsafeRun(track: nat, scale: int, payload: M.Bytes, place: int)
    requires scale > 0 && !SafeStart(scale, place)
    ensures !EveryRunStrict(track, scale, payload, place)
  {
    var scales := seq(track + 1, _ => scale);
    var p := Begin(track, scale, payload, place);
    BreakingBreaks(track, scale, payload, place);
    FirstFragmentBreaks(track, scale, payload, place, scales);
    var frags := BreakingFile(track, scale, place);
    var frag := frags[0];
    assert TracksKnown(scales, frags);
    hide AtMoof;
    hide MuxTruns;
    hide AtEnd;
    hide Strict;
    hide Steady;
    hide Inv;
    hide Written;
    hide Breaking;
    hide ToTicks;
    BeginSynced(track, scale, payload, place, |scales|);
    AtMoofOk(p, |scales|);
    MuxTrunsOk(AtMoof(p), scales, frag, place, SECOND, |frag|);
    EndNotStrict(MuxTruns(AtMoof(p), scales, frag, place, SECOND, |frag|), SECOND, |scales|);
    OneFragmentRun(p, scales, frag, place);
  }

  lemma StrictPrefix(a: seq<Shot>, b: seq<Shot>)
    requires a <= b && Strict(b)
    ensures Strict(a)
  {
    forall i, j | 0 <= i < j < |a| ensures a[i].dts < a[j].dts { assert a[i] == b[i] && a[j] == b[j]; }
  }

  /** Which placements keep every run strictly increasing. */
  lemma RunsStrictIff(track: nat, scale: int, payload: M.Bytes, place: int)
    requires scale > 0
    ensures EveryRunStrict(track, scale, payload, place)
      <==> place >= -THRESHOLD || place < -2 * THRESHOLD
           || (place * scale % SECOND == 0 && (SECOND % scale == 0 || scale % SECOND == 0))
  {
    if SafeStart(scale, place) {
      forall scales, frags, duration | track < |scales| && TracksKnown(scales, frags)
        ensures Strict(MuxParts(Some(At(track, scale, payload, place)), scales, frags, place, duration).fill.value.out)
      {
        SafeRunStrict(track, scale, payload, place, scales, frags, place, duration);
      }
    } else {
      UnsafeRun(track, scale, payload, place);
    }
    hide MuxParts;
    hide Strict;
  }

  // ----- the other tracks, and the muxer -----

  /** Where a track ended in the first k truns of a fragment, from if it has none. */
  function Ended(frag: Fragment, k: nat, j: nat, from: nat): nat
    requires k <= |frag|
  {
    if k == 0 then from
    else if frag[k - 1].track == j then frag[k - 1].base + Span(frag[k - 1].entries, |frag[k - 1].entries|)
    else Ended(frag, k - 1, j, from)
  }

  function Reach(frags: seq<Fragment>, n: nat, j: nat): nat
    requires n <= |frags|
  {
    if n == 0 then 0 else Ended(frags[n - 1], |frags[n - 1]|, j, Reach(frags, n - 1, j))
  }

  function Span(entries: seq<Entry>, k: nat): nat
    requires k <= |entries|
  {
    if k == 0 then 0 else Span(entries, k - 1) + entries[k - 1].duration
  }

  /** Each trun of track j starts no earlier than the one before it ended. */
  ghost predicate Forward(frags: seq<Fragment>, j: nat) {
    forall n, k | 0 <= n < |frags| && 0 <= k < |frags[n]| && frags[n][k].track == j ::
      Ended(frags[n], k, j, Reach(frags, n, j)) <= frags[n][k].base
  }

  /** Never going back, and nothing past c. */
  ghost predicate UpTo(s: seq<int>, c: int) {
    && (forall a, b | 0 <= a < b < |s| :: s[a] <= s[b])
    && (forall a | 0 <= a < |s| :: s[a] <= c)
  }

  /** Whether track j is one the filler does not touch. */
  predicate Beside(fill: Option<Fill>, j: nat) {
    fill.Some? ==> fill.value.track != j
  }

  lemma AppendBeside(calls: seq<M.Call>, f: Fill, f1: Fill, framed: bool, tail: seq<M.Call>, j: nat)
    requires Extends(f1, f, framed) && j != f.track && |tail| <= 1
    requires tail != [] ==> (tail[0].Write? ==> tail[0].track == f.track)
    ensures Written(calls + Added(f, f1) + tail, j) == Written(calls, j)
  {
    AddedPlaces(f, f1, framed);
    PlaceCallsWritten(Places(f, f1, framed), f.track, f.payload, j);
    hide PlaceCalls;
    hide Places;
    hide Added;
    hide Extends;
    WrittenAppend(calls, Added(f, f1), j);
    WrittenAppend(calls + Added(f, f1), tail, j);
    if tail != [] {
      assert tail == [tail[0]];
      var c := tail[0];
      if c.Write? { OneWrite(c.track, c.frame, j); } else { OneFinish(c.track, c.dts, j); }
    }
    var w := Written(calls, j);
    assert w + [] == w;
  }

  lemma MuxEntryBeside(p: Play, tr: Trun, e: Entry, dts: int, scale: int, j: nat, tracks: nat)
    requires Synced(p, tracks) && scale > 0 && Beside(p.fill, j)
    ensures Written(MuxEntry(p, tr, e, dts, scale).calls, j)
         == Written(p.calls, j) + if tr.track == j then [dts] else []
  {
    var w := M.Write(tr.track, M.Frame(dts, e.offset, e.nonSync, e.payload));
    var s := Written(p.calls, j);
    if p.fill.Some? && tr.track == p.fill.value.track {
      var f := p.fill.value;
      VideoExtends(f, dts, e.offset, e.duration, !e.nonSync);
      var (f1, ok) := Video(f, dts, e.offset, e.duration, !e.nonSync);
      hide Video;
      hide Inv;
      hide Written;
      hide Extends;
      hide Added;
      AppendBeside(p.calls, f, f1, ok, if ok then [w] else [], j);
      assert s + [] == s;
    } else {
      WrittenAppend(p.calls, [w], j);
      OneWrite(tr.track, w.frame, j);
      hide Written;
      hide ToNanos;
    }
  }

  lemma {:induction false} MuxEntriesBeside(p: Play, tr: Trun, scale: int, from: int, limit: int, k: nat, j: nat,
                                            tracks: nat)
    requires Synced(p, tracks) && scale > 0 && k <= |tr.entries| && tr.track < tracks && Beside(p.fill, j)
    requires tr.track == j ==> UpTo(Written(p.calls, j), from)
    ensures var (p1, dts) := MuxEntries(p, tr, scale, from, limit, k);
      && from <= dts <= from + Span(tr.entries, k)
      && (if tr.track == j then UpTo(Written(p1.calls, j), dts) else Written(p1.calls, j) == Written(p.calls, j))
  {
    hide MuxEntry;
    hide Inv;
    hide Steady;
    hide Written;
    if k > 0 {
      MuxEntriesBeside(p, tr, scale, from, limit, k - 1, j, tracks);
      MuxEntriesOk(p, tr, scale, from, limit, k - 1, tracks);
      var (p1, dts) := MuxEntries(p, tr, scale, from, limit, k - 1);
      if !(p1.stop || dts >= limit) {
        MuxEntryBeside(p1, tr, tr.entries[k - 1], dts, scale, j, tracks);
        var s := Written(p.calls, j);
        assert s + [] == s;
      }
    }
  }

  lemma MuxTrunBeside(p: Play, scales: seq<int>, tr: Trun, start: int, duration: int, j: nat, c: int)
    requires Synced(p, |scales|) && tr.track < |scales| && 0 < scales[tr.track] && Beside(p.fill, j)
    requires j < |scales| && UpTo(Written(p.calls, j), c + ToTicks(start, scales[j]))
        && (tr.track == j ==> c <= tr.base)
    ensures UpTo(Written(MuxTrun(p, scales, tr, start, duration).calls, j),
                 (if tr.track == j then tr.base + Span(tr.entries, |tr.entries|) else c) + ToTicks(start, scales[j]))
  {
    hide ToNanos;
    hide ToTicks;
    hide Inv;
    hide Written;
    var scale := scales[tr.track];
    var from, limit := tr.base + ToTicks(start, scale), ToTicks(duration, scale);
    MuxEntriesBeside(p, tr, scale, from, limit, |tr.entries|, j, |scales|);
    var (p1, dts) := MuxEntries(p, tr, scale, from, limit, |tr.entries|);
    hide MuxEntries;
    WrittenAppend(p1.calls, [M.Finish(tr.track, dts)], j);
    OneFinish(tr.track, dts, j);
    var s := Written(p1.calls, j);
    assert s + [] == s;
  }

  lemma {:induction false} MuxTrunsBeside(p: Play, scales: seq<int>, frag: Fragment, start: int, duration: int, k: nat,
                                          j: nat, from: nat)
    requires Synced(p, |scales|) && k <= |frag| && FragmentKnown(scales, frag) && Beside(p.fill, j) && j < |scales|
    requires UpTo(Written(p.calls, j), from + ToTicks(start, scales[j]))
    requires forall i | 0 <= i < |frag| && frag[i].track == j :: Ended(frag, i, j, from) <= frag[i].base
    ensures UpTo(Written(MuxTruns(p, scales, frag, start, duration, k).calls, j),
                 Ended(frag, k, j, from) + ToTicks(start, scales[j]))
  {
    hide MuxTrun;
    hide Inv;
    hide Steady;
    hide Written;
    hide ToTicks;
    hide UpTo;
    if k > 0 {
      MuxTrunsBeside(p, scales, frag, start, duration, k - 1, j, from);
      MuxTrunsOk(p, scales, frag, start, duration, k - 1);
      var p1 := MuxTruns(p, scales, frag, start, duration, k - 1);
      MuxTrunBeside(p1, scales, frag[k - 1], start, duration, j, Ended(frag, k - 1, j, from));
    }
  }

  lemma AtMoofBeside(p: Play, j: nat, tracks: nat)
    requires Synced(p, tracks) && Beside(p.fill, j)
    ensures Written(AtMoof(p).calls, j) == Written(p.calls, j)
  {
    if p.fill.Some? {
      var f := p.fill.value;
      if f.otherEnd - f.end > 2 * THRESHOLD { FillToExtends(f, f.otherEnd - THRESHOLD); }
      hide Inv;
      hide FillTo;
      hide Written;
      hide Added;
      AppendBeside(p.calls, f, CatchUp(f), false, [], j);
      var c := p.calls + Added(f, CatchUp(f));
      assert c + [] == c;
    }
  }

  lemma {:induction false} MuxFragmentsBeside(p: Play, scales: seq<int>, frags: seq<Fragment>, start: int,
                                              duration: int, n: nat, j: nat) returns (c: int)
    requires Synced(p, |scales|) && n <= |frags| && TracksKnown(scales, frags) && Beside(p.fill, j) && j < |scales|
    requires p.calls == [] && Forward(frags, j)
    ensures var p1 := MuxFragments(p, scales, frags, start, duration, n);
      UpTo(Written(p1.calls, j), c) && (!p1.stop ==> c == Reach(frags, n, j) + ToTicks(start, scales[j]))
  {
    hide MuxTruns;
    hide AtMoof;
    hide Inv;
    hide Steady;
    hide ToTicks;
    c := Reach(frags, n, j) + ToTicks(start, scales[j]);
    if n > 0 {
      hide Written;
      hide UpTo;
      var c0 := MuxFragmentsBeside(p, scales, frags, start, duration, n - 1, j);
      MuxFragmentsOk(p, scales, frags, start, duration, n - 1);
      var p1 := MuxFragments(p, scales, frags, start, duration, n - 1);
      if !p1.stop {
        AtMoofOk(p1, |scales|);
        AtMoofBeside(p1, j, |scales|);
        MuxTrunsBeside(AtMoof(p1), scales, frags[n - 1], start, duration, |frags[n - 1]|, j, Reach(frags, n - 1, j));
      } else {
        c := c0;
      }
    }
  }

  lemma AtEndBeside(p: Play, limit: int, j: nat, tracks: nat)
    requires Synced(p, tracks) && Beside(p.fill, j)
    ensures Written(AtEnd(p, limit).calls, j) == Written(p.calls, j)
  {
    if p.fill.Some? {
      var f := p.fill.value;
      var target := Min(f.otherEnd, limit);
      if target - f.end > THRESHOLD { FillToExtends(f, target); }
      hide Inv;
      hide FillTo;
      hide Written;
      hide Added;
      hide ToTicks;
      var (f1, final) := Finish(f, limit);
      var tail := if final.Some? then [M.Finish(f.track, ToTicks(final.value, f.scale))] else [];
      AppendBeside(p.calls, f, f1, false, tail, j);
    }
  }

  /** What the muxer is asked to write never goes back, on any track. */
  lemma TrackRises(fill: Option<Fill>, scales: seq<int>, frags: seq<Fragment>, start: int, duration: int, j: nat)
    requires TracksKnown(scales, frags) && j < |scales| && Synced(Play(fill, [], 0, false), |scales|)
    requires Beside(fill, j) ==> Forward(frags, j)
    ensures var p := MuxParts(fill, scales, frags, start, duration);
      Synced(p, |scales|)
      && forall a, b | 0 <= a < b < |p.calls| && p.calls[a].Write? && p.calls[b].Write?
        && p.calls[a].track == p.calls[b].track == j ::
           p.calls[a].frame.dts <= p.calls[b].frame.dts
  {
    hide Inv;
    hide Steady;
    hide MuxFragments;
    hide AtEnd;
    hide ToTicks;
    hide InOrder;
    var p0 := Play(fill, [], 0, false);
    MuxFragmentsOk(p0, scales, frags, start, duration, |frags|);
    var p1 := MuxFragments(p0, scales, frags, start, duration, |frags|);
    AtEndOk(p1, duration, |scales|);
    var p := AtEnd(p1, duration);
    if Beside(fill, j) {
      var c := MuxFragmentsBeside(p0, scales, frags, start, duration, |frags|, j);
      AtEndBeside(p1, duration, j, |scales|);
      forall a, b | 0 <= a < b < |p.calls| && p.calls[a].Write? && p.calls[b].Write?
                    && p.calls[a].track == p.calls[b].track == j
        ensures p.calls[a].frame.dts <= p.calls[b].frame.dts
      {
        var i, k := WrittenPair(p.calls, j, a, b);
      }
    } else {
      SyncedSpaced(p, |scales|);
    }
    hide Written;
  }

  /** A segment through filler and muxer: if every track the filler does not touch
      goes forward in the file, every call made is one the muxer allows, and after
      the closing flush each track's fragments hold exactly what was written to it
      at or after decode time 0, once, in order and timed, with the filler's video
      strictly increasing above tick 0. */
  lemma StitchedSegment(fill: Option<Fill>, scales: seq<int>, frags: seq<Fragment>, start: int, duration: int, j: nat)
    requires TracksKnown(scales, frags) && j < |scales|
    requires fill.Some? ==>
      var f := fill.value; f.scale > 0 && f.track < |scales| && f == At(f.track, f.scale, f.payload, f.end)
    requires forall i: nat | i < |scales| && Beside(fill, i) :: Forward(frags, i)
    ensures var calls := MuxParts(fill, scales, frags, start, duration).calls;
      && P.Allowed(scales, calls)
      && var (m, ok) := M.InnerFlush(P.Run(scales, calls).0, true);
         var s := P.Given(calls, j);
         && (if s.kept == [] then P.Of(m.parts, j) == []
             else ok && P.Complete(P.Of(m.parts, j), P.Playlist(s), s.close))
         && (!Beside(fill, j) ==> forall a, b | 0 <= a < b < |s.kept| && s.kept[b].dts > 0 ::
           s.kept[a].dts < s.kept[b].dts)
  {
    hide MuxParts;
    hide Inv;
    hide Written;
    if fill.Some? { BeginSynced(fill.value.track, fill.value.scale, fill.value.payload, fill.value.end, |scales|); }
    var p := MuxParts(fill, scales, frags, start, duration);
    TrackRises(fill, scales, frags, start, duration, j);
    forall a, b | 0 <= a < b < |p.calls| && p.calls[a].Write? && p.calls[b].Write?
                  && p.calls[a].track == p.calls[b].track
      ensures p.calls[a].frame.dts <= p.calls[b].frame.dts
    {
      TrackRises(fill, scales, frags, start, duration, p.calls[a].track);
    }
    assert P.Allowed(scales, p.calls);
    P.RunConserves(scales, p.calls, j);
    if !Beside(fill, j) {
      PartsKeepTrack(fill, scales, frags, start, duration);
      SyncedSpaced(p, |scales|);
      KeptSpaced(p.calls, j);
    }
    hide P.Run;
    hide P.Complete;
    hide P.Given;
    hide P.Of;
    hide M.InnerFlush;
  }

  lemma PartsKeepTrack(fill: Option<Fill>, scales: seq<int>, frags: seq<Fragment>, start: int, duration: int)
    requires TracksKnown(scales, frags) && fill.Some? && Synced(Play(fill, [], 0, false), |scales|)
    ensures MuxParts(fill, scales, frags, start, duration).fill.value.track == fill.value.track
  {
    var p0 := Play(fill, [], 0, false);
    assert fill.value.scale > 0;
    hide Synced;
    MuxFragmentsOk(p0, scales, frags, start, duration, |frags|);
    AtEndOk(MuxFragments(p0, scales, frags, start, duration, |frags|), duration, |scales|);
    hide MuxFragments;
    hide AtEnd;
  }

  /** What a track keeps is spaced as what was written to it. */
  lemma {:induction false} KeptSpaced(calls: seq<M.Call>, j: nat)
    requires Spaced(calls, j)
    ensures var kept := P.Given(calls, j).kept;
      forall a, b | 0 <= a < b < |kept| && kept[b].dts > 0 :: kept[a].dts < kept[b].dts
  {
    if calls != [] {
      var init, c := calls[..|calls| - 1], Last(calls);
      KeptSpaced(init, j);
      assert c == calls[|calls| - 1];
      if c.Write? && c.track == j && c.frame.dts > 0 {
        assert forall a | 0 <= a < |init| && init[a].Write? && init[a].track == j :: calls[a].frame.dts < c.frame.dts;
        KeptBefore(init, j, c.frame.dts);
      }
      assert P.Given(calls, j).kept == P.Given(init, j).kept
             || (c.Write? && c.track == j && P.Given(calls, j).kept == P.Given(init, j).kept + [c.frame]);
    }
  }

  lemma {:induction false} KeptBefore(calls: seq<M.Call>, j: nat, dts: int)
    requires forall a | 0 <= a < |calls| && calls[a].Write? && calls[a].track == j :: calls[a].frame.dts < dts
    ensures var kept := P.Given(calls, j).kept; forall a | 0 <= a < |kept| :: kept[a].dts < dts
  {
    if calls != [] {
      var init, c := calls[..|calls| - 1], Last(calls);
      KeptBefore(init, j, dts);
      var kept := P.Given(calls, j).kept;
      assert c == calls[|calls| - 1];
      assert kept == P.Given(init, j).kept
             || (c.Write? && c.track == j && kept == P.Given(init, j).kept + [c.frame]);
    }
  }
}
