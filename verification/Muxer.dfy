/** The incremental fragmented-MP4 muxer of playback/muxer_fmp4.go. Tracks are
    named by their position in the init. */
module MuxerSpec {
  import opened Wrappers
  import opened Clock

  const PART_DURATION: int := SECOND
  const UINT32: int := 0x1_0000_0000

  type Bytes = seq<bv8>

  /** A sample handed to the muxer. */
  datatype Frame = Frame(dts: int, offset: int, nonSync: bool, payload: Bytes)

  /** A sample waiting in a track or emitted in a part. */
  datatype Sample = Sample(offset: int, nonSync: bool, payload: Bytes, duration: nat)

  datatype Track = Track(scale: int, firstDTS: int, lastDTS: int, samples: seq<Sample>)

  datatype PartTrack = PartTrack(base: int, samples: seq<Sample>)

  datatype Part = Part(number: nat, tracks: map<nat, PartTrack>)

  /** The muxer; the init is still pending until the first part goes out. */
  datatype Mux = Mux(tracks: seq<Track>, initPending: bool, nextNumber: nat, parts: seq<Part>)

  function ToSample(f: Frame): Sample {
    Sample(f.offset, f.nonSync, f.payload, 0)
  }

  /** Go's uint32 of a gap that is not negative. */
  function GapTo(from: int, to: int): nat {
    Max(to - from, 0) % UINT32
  }

  function SetLast(samples: seq<Sample>, duration: nat): seq<Sample>
    requires samples != []
  {
    samples[|samples| - 1 := Last(samples).(duration := duration)]
  }

  /** The track's part of writeSample. A negative decode time is pre-roll: only
      the samples since the last sync sample are kept. */
  function Take(t: Track, f: Frame): Track
    requires t.firstDTS >= 0 ==> t.samples != []
  {
    if f.dts >= 0 then
      var t1 :=
        if t.firstDTS < 0 then
          t.(firstDTS := f.dts, samples := if !f.nonSync then [] else t.samples)
        else
          t.(samples := SetLast(t.samples, GapTo(t.lastDTS, f.dts)));
      t1.(samples := t1.samples + [ToSample(f)], lastDTS := f.dts)
    else if !f.nonSync then t.(samples := [ToSample(f)])
    else t.(samples := t.samples + [ToSample(f)])
  }

  function TakeFinal(t: Track, dts: int): Track {
    if t.samples != [] && t.firstDTS >= 0 then t.(samples := SetLast(t.samples, GapTo(t.lastDTS, dts))) else t
  }

  predicate Flushable(t: Track, final: bool) {
    t.firstDTS >= 0 && (|t.samples| > 1 || (final && |t.samples| != 0))
  }

  function Emit(t: Track, final: bool): PartTrack
    requires Flushable(t, final)
  {
    PartTrack(t.firstDTS, if final then t.samples else t.samples[..|t.samples| - 1])
  }

  function Drain(t: Track, final: bool): Track {
    if Flushable(t, final) && !final then
      t.(samples := t.samples[|t.samples| - 1..], firstDTS := t.lastDTS)
    else t
  }

  function EmitAll(tracks: seq<Track>, final: bool): map<nat, PartTrack> {
    map j: nat | 0 <= j < |tracks| && Flushable(tracks[j], final) :: Emit(tracks[j], final)
  }

  function DrainAll(tracks: seq<Track>, final: bool): seq<Track> {
    seq(|tracks|, j requires 0 <= j < |tracks| => Drain(tracks[j], final))
  }

  /** innerFlush; false reports "no samples". */
  function InnerFlush(m: Mux, final: bool): (Mux, bool) {
    var out := EmitAll(m.tracks, final);
    if out == map[] then (m, !m.initPending)
    else
      (Mux(DrainAll(m.tracks, final), false, m.nextNumber + 1, m.parts + [Part(m.nextNumber, out)]), true)
  }

  ghost predicate Writable(m: Mux, j: nat) {
    j < |m.tracks| && (m.tracks[j].firstDTS >= 0 ==> m.tracks[j].samples != [])
  }

  function WriteSample(m: Mux, j: nat, f: Frame): (Mux, bool)
    requires Writable(m, j)
  {
    var t := Take(m.tracks[j], f);
    var m1 := m.(tracks := m.tracks[j := t]);
    if f.dts >= 0 && t.lastDTS - t.firstDTS >= ToTicks(PART_DURATION, t.scale) then InnerFlush(m1, false)
    else (m1, true)
  }

  function WriteFinalDTS(m: Mux, j: nat, dts: int): Mux
    requires j < |m.tracks|
  {
    m.(tracks := m.tracks[j := TakeFinal(m.tracks[j], dts)])
  }

  /** writeInit: one empty track per init track. */
  function Fresh(scales: seq<int>): Mux {
    Mux(seq(|scales|, j requires 0 <= j < |scales| => Track(scales[j], -1, 0, [])), true, 0, [])
  }

  datatype Call = Write(track: nat, frame: Frame) | Finish(track: nat, dts: int)
}

/** What every sequence of calls keeps: nothing written is lost, repeated or
    moved. */
module MuxerProofs {
  import opened Wrappers
  import opened Clock
  import opened MuxerSpec

  /** What a track was given: the pre-roll in force, the frames at or after decode
      time 0, and the duration the last of them was closed with since (0 until
      then). */
  datatype Stream = Stream(pre: seq<Frame>, kept: seq<Frame>, close: nat)

  /** The stream after one more frame. */
  function Push(s: Stream, f: Frame): Stream {
    if f.dts < 0 then s.(pre := if f.nonSync then s.pre + [f] else [f])
    else if s.kept == [] then Stream(if f.nonSync then s.pre else [], [f], 0)
    else s.(kept := s.kept + [f], close := 0)
  }

  /** The stream closed at a decode time. */
  function Close(s: Stream, dts: int): Stream {
    if s.kept == [] then s else s.(close := GapTo(Last(s.kept).dts, dts))
  }

  function Given(calls: seq<Call>, j: nat): Stream {
    if calls == [] then Stream([], [], 0)
    else
      var s, c := Given(calls[..|calls| - 1], j), Last(calls);
      if c.track != j then s
      else
        match c
        case Finish(_, dts) => Close(s, dts)
        case Write(_, f) => Push(s, f)
  }

  /** The frames the track's parts must hold, in order; the pre-roll is played at
      the time of the first frame kept. */
  function Playlist(s: Stream): seq<Frame> {
    if s.kept == [] then s.pre
    else seq(|s.pre|, k requires 0 <= k < |s.pre| => s.pre[k].(dts := s.kept[0].dts)) + s.kept
  }

  /** Decode times of one track never go back. */
  ghost predicate Ordered(calls: seq<Call>) {
    forall a, b | 0 <= a < b < |calls| && calls[a].Write? && calls[b].Write? && calls[a].track == calls[b].track ::
      calls[a].frame.dts <= calls[b].frame.dts
  }

  /** Sample k of the playlist: same content, lasting until the next one. */
  function Expected(p: seq<Frame>, k: nat): Sample
    requires k + 1 < |p|
  {
    ToSample(p[k]).(duration := GapTo(p[k].dts, p[k + 1].dts))
  }

  /** The fragments of track j, in order. */
  function Of(parts: seq<Part>, j: nat): seq<PartTrack> {
    if parts == [] then []
    else
      var init := Of(parts[..|parts| - 1], j);
      if j in Last(parts).tracks then init + [Last(parts).tracks[j]] else init
  }

  function Flat(list: seq<PartTrack>): seq<Sample> {
    if list == [] then [] else Flat(list[..|list| - 1]) + Last(list).samples
  }

  /** list emits the first |Flat(list)| samples of p: each one once, in order,
      with its duration; every fragment starts at its first sample's time. */
  ghost predicate Emitted(list: seq<PartTrack>, p: seq<Frame>) {
    list == [] ||
      (var init, t := list[..|list| - 1], Last(list);
       var n := |Flat(init)|;
       && Emitted(init, p)
       && 0 < |t.samples| && n + |t.samples| < |p|
       && t.base == p[n].dts
       && forall k | 0 <= k < |t.samples| :: t.samples[k] == Expected(p, n + k))
  }

  /** What is left in the track: the rest of p, the last one closed as told. */
  ghost predicate Waiting(t: Track, p: seq<Frame>, n: nat, close: nat) {
    && n < |p| && |t.samples| == |p| - n
    && t.firstDTS == p[n].dts && t.lastDTS == Last(p).dts
    && (forall k | 0 <= k < |t.samples| - 1 :: t.samples[k] == Expected(p, n + k))
    && Last(t.samples) == ToSample(Last(p)).(duration := close)
  }

  ghost predicate TrackInv(t: Track, s: Stream, list: seq<PartTrack>) {
    && t.scale > 0
    && (if s.kept == [] then
          t.firstDTS < 0 && list == [] && |t.samples| == |s.pre|
          && forall k | 0 <= k < |s.pre| :: t.samples[k] == ToSample(s.pre[k])
        else
          t.firstDTS >= 0 && Last(s.kept).dts >= 0
          && Emitted(list, Playlist(s)) && Waiting(t, Playlist(s), |Flat(list)|, s.close))
  }

  lemma {:induction false} EmittedGrows(list: seq<PartTrack>, p: seq<Frame>, f: Frame)
    requires Emitted(list, p)
    ensures Emitted(list, p + [f])
  {
    if list != [] {
      var init, t := list[..|list| - 1], Last(list);
      EmittedGrows(init, p, f);
      var n := |Flat(init)|;
      forall k | 0 <= k < |t.samples| ensures t.samples[k] == Expected(p + [f], n + k) {
        assert Expected(p + [f], n + k) == Expected(p, n + k);
      }
    }
  }

  lemma {:induction false} EmittedLength(list: seq<PartTrack>, p: seq<Frame>)
    requires Emitted(list, p) && p != []
    ensures |Flat(list)| < |p|
  {
    if list != [] { EmittedLength(list[..|list| - 1], p); }
  }

  lemma WaitingGrows(t: Track, p: seq<Frame>, n: nat, close: nat, f: Frame)
    requires Waiting(t, p, n, close) && f.dts >= 0 && t.firstDTS >= 0 && p != []
    ensures Waiting(Take(t, f), p + [f], n, 0)
  {
    var t1 := Take(t, f);
    var q, m := p + [f], |t.samples|;
    assert t1.samples == SetLast(t.samples, GapTo(t.lastDTS, f.dts)) + [ToSample(f)];
    forall k | 0 <= k < |t1.samples| - 1 ensures t1.samples[k] == Expected(q, n + k) {
      if k < m - 1 { assert Expected(q, n + k) == Expected(p, n + k); }
    }
  }

  lemma TakeOk(t: Track, s: Stream, list: seq<PartTrack>, f: Frame)
    requires TrackInv(t, s, list) && (s.kept != [] ==> Last(s.kept).dts <= f.dts)
    ensures TrackInv(Take(t, f), Push(s, f), list)
  {
    if s.kept != [] {
      var p := Playlist(s);
      assert Playlist(Push(s, f)) == p + [f];
      EmittedLength(list, p);
      EmittedGrows(list, p, f);
      var n := |Flat(list)|;
      WaitingGrows(t, p, n, s.close, f);
    } else if f.dts >= 0 {
      var p := Playlist(Push(s, f));
      var t1 := Take(t, f);
      forall k | 0 <= k < |t1.samples| - 1 ensures t1.samples[k] == Expected(p, k) {
        assert p[k].dts == p[k + 1].dts == f.dts;
      }
    }
  }

  lemma DrainOk(t: Track, s: Stream, list: seq<PartTrack>)
    requires TrackInv(t, s, list) && Flushable(t, false)
    ensures TrackInv(Drain(t, false), s, list + [Emit(t, false)])
  {
    var p, e, n := Playlist(s), Emit(t, false), |Flat(list)|;
    assert (list + [e])[..|list|] == list;
    assert Flat(list + [e]) == Flat(list) + e.samples;
  }

  lemma TakeFinalOk(t: Track, s: Stream, list: seq<PartTrack>, dts: int)
    requires TrackInv(t, s, list)
    ensures TrackInv(TakeFinal(t, dts), Close(s, dts), list)
  {
  }

  // ----- the muxer -----

  ghost predicate MuxInv(m: Mux, calls: seq<Call>) {
    && (forall j | 0 <= j < |m.tracks| :: TrackInv(m.tracks[j], Given(calls, j), Of(m.parts, j)))
    && m.nextNumber == |m.parts| && (m.initPending <==> m.parts == [])
    && forall k | 0 <= k < |m.parts| :: m.parts[k].number == k
  }

  lemma OfAppend(parts: seq<Part>, p: Part, j: nat)
    ensures Of(parts + [p], j) == Of(parts, j) + if j in p.tracks then [p.tracks[j]] else []
  {
    assert (parts + [p])[..|parts|] == parts;
  }

  lemma DrainTrackOk(m: Mux, calls: seq<Call>, j: nat)
    requires MuxInv(m, calls) && j < |m.tracks|
    ensures TrackInv(Drain(m.tracks[j], false), Given(calls, j),
                     Of(m.parts + [Part(m.nextNumber, EmitAll(m.tracks, false))], j))
  {
    OfAppend(m.parts, Part(m.nextNumber, EmitAll(m.tracks, false)), j);
    if Flushable(m.tracks[j], false) {
      DrainOk(m.tracks[j], Given(calls, j), Of(m.parts, j));
    } else {
      assert Of(m.parts, j) + [] == Of(m.parts, j);
    }
    hide Given;
  }

  lemma InnerFlushOk(m: Mux, calls: seq<Call>)
    requires MuxInv(m, calls) && exists j | 0 <= j < |m.tracks| :: Flushable(m.tracks[j], false)
    ensures InnerFlush(m, false).1 && MuxInv(InnerFlush(m, false).0, calls)
    ensures |InnerFlush(m, false).0.tracks| == |m.tracks|
  {
    var out, m1 := EmitAll(m.tracks, false), InnerFlush(m, false).0;
    assert out != map[] by {
      var j0: nat :| j0 < |m.tracks| && Flushable(m.tracks[j0], false);
      assert j0 in out;
    }
    hide EmitAll;
    hide TrackInv;
    hide Drain;
    hide Given;
    hide Of;
    hide Flushable;
    assert m1.parts == m.parts + [Part(m.nextNumber, out)] && |m1.tracks| == |m.tracks|;
    assert forall j | 0 <= j < |m.tracks| :: m1.tracks[j] == Drain(m.tracks[j], false);
    NumbersGrow(m, Part(m.nextNumber, out));
    hide InnerFlush;
    forall j | 0 <= j < |m1.tracks| ensures TrackInv(m1.tracks[j], Given(calls, j), Of(m1.parts, j)) {
      DrainTrackOk(m, calls, j);
    }
  }

  lemma NumbersGrow(m: Mux, p: Part)
    requires p.number == |m.parts| && forall k | 0 <= k < |m.parts| :: m.parts[k].number == k
    ensures forall k | 0 <= k < |m.parts + [p]| :: (m.parts + [p])[k].number == k
  {
  }

  /** The calls are to tracks of the init, whose clocks run, in decode order. */
  ghost predicate Allowed(scales: seq<int>, calls: seq<Call>) {
    && (forall j | 0 <= j < |scales| :: 0 < scales[j])
    && (forall k | 0 <= k < |calls| :: calls[k].track < |scales|)
    && Ordered(calls)
  }

  lemma {:induction false} LastKept(calls: seq<Call>, j: nat, k: nat)
    requires Ordered(calls) && k < |calls| && calls[k].Write? && calls[k].track == j
    ensures Given(calls[..k], j).kept != [] ==> Last(Given(calls[..k], j).kept).dts <= calls[k].frame.dts
  {
    KeptFrom(calls, j, k, k);
  }

  lemma {:induction false} KeptFrom(calls: seq<Call>, j: nat, n: nat, k: nat)
    requires n <= k < |calls| && Ordered(calls) && calls[k].Write? && calls[k].track == j
    ensures Given(calls[..n], j).kept != [] ==> Last(Given(calls[..n], j).kept).dts <= calls[k].frame.dts
  {
    if n > 0 {
      assert calls[..n][..n - 1] == calls[..n - 1];
      KeptFrom(calls, j, n - 1, k);
    }
  }

  lemma SetTrackOk(m: Mux, calls: seq<Call>, c: Call, t: Track)
    requires MuxInv(m, calls) && c.track < |m.tracks|
    requires TrackInv(t, Given(calls + [c], c.track), Of(m.parts, c.track))
    ensures MuxInv(m.(tracks := m.tracks[c.track := t]), calls + [c])
  {
    assert (calls + [c])[..|calls|] == calls;
    forall j | 0 <= j < |m.tracks| && j != c.track
      ensures TrackInv(m.tracks[j], Given(calls + [c], j), Of(m.parts, j))
    {
      assert Given(calls + [c], j) == Given(calls, j);
    }
  }

  /** A part that has reached its length holds at least two samples, so flushing
      it never comes up empty. */
  lemma LongPartFlushable(t: Track, s: Stream, list: seq<PartTrack>)
    requires TrackInv(t, s, list) && s.kept != [] && t.lastDTS - t.firstDTS >= ToTicks(PART_DURATION, t.scale)
    ensures Flushable(t, false)
  {
    WholeSecond(t.scale);
  }

  function Step(m: Mux, c: Call): (Mux, bool)
    requires Writable(m, c.track)
  {
    match c
    case Write(j, f) => WriteSample(m, j, f)
    case Finish(j, dts) => (WriteFinalDTS(m, j, dts), true)
  }

  lemma StepOk(m: Mux, calls: seq<Call>, c: Call)
    requires MuxInv(m, calls) && c.track < |m.tracks| && Ordered(calls + [c])
    ensures Writable(m, c.track) && MuxInv(Step(m, c).0, calls + [c]) && Step(m, c).1
    ensures |Step(m, c).0.tracks| == |m.tracks|
  {
    var j, all := c.track, calls + [c];
    var t, s, list := m.tracks[j], Given(calls, j), Of(m.parts, j);
    assert TrackInv(t, s, list);
    assert all[..|calls|] == calls;
    match c
    case Write(_, f) =>
      LastKept(all, j, |calls|);
      TakeOk(t, s, list, f);
      assert Given(all, j) == Push(s, f);
      SetTrackOk(m, calls, c, Take(t, f));
      var t1, m1 := Take(t, f), m.(tracks := m.tracks[j := Take(t, f)]);
      if f.dts >= 0 && t1.lastDTS - t1.firstDTS >= ToTicks(PART_DURATION, t1.scale) {
        LongPartFlushable(t1, Push(s, f), list);
        assert Flushable(m1.tracks[j], false);
        InnerFlushOk(m1, all);
      }
      hide MuxInv;
      hide Take;
    case Finish(_, dts) =>
      TakeFinalOk(t, s, list, dts);
      assert Given(all, j) == Close(s, dts);
      SetTrackOk(m, calls, c, TakeFinal(t, dts));
      hide MuxInv;
  }

  /** The number of frames track i still holds back. */
  function Held(m: Mux, calls: seq<Call>, i: nat): int {
    |Playlist(Given(calls, i))| - |Flat(Of(m.parts, i))|
  }

  /** The next part: all but the last frame of every track that began and holds two. */
  ghost predicate PartOf(p: Part, m: Mux, calls: seq<Call>) {
    && p.number == |m.parts|
    && (forall i: nat :: i in p.tracks <==> i < |m.tracks| && Given(calls, i).kept != [] && Held(m, calls, i) > 1)
    && forall i | i in p.tracks :: |p.tracks[i].samples| == Held(m, calls, i) - 1
  }

  /** A part goes out exactly when a frame comes a second or more after the first one
      its track holds back. */
  lemma PartAtOneSecond(m: Mux, calls: seq<Call>, j: nat, f: Frame)
    requires MuxInv(m, calls) && j < |m.tracks| && Ordered(calls + [Write(j, f)])
    ensures Writable(m, j)
    ensures var m1, all := WriteSample(m, j, f).0, calls + [Write(j, f)];
      var p, n := Playlist(Given(all, j)), |Flat(Of(m.parts, j))|;
      if f.dts >= 0 && n < |p| && f.dts - p[n].dts >= ToTicks(SECOND, m.tracks[j].scale)
      then |m1.parts| == |m.parts| + 1 && m1.parts[..|m.parts|] == m.parts && PartOf(Last(m1.parts), m, all)
      else m1.parts == m.parts
    ensures f.dts >= 0 ==> |Flat(Of(m.parts, j))| < |Playlist(Given(calls + [Write(j, f)], j))|
  {
    var all := calls + [Write(j, f)];
    TakenInv(m, calls, j, f);
    var t1 := Take(m.tracks[j], f);
    var m1 := m.(tracks := m.tracks[j := t1]);
    TakenTimes(m.tracks[j], f);
    if f.dts >= 0 {
      HeldFirst(t1, Given(all, j), Of(m.parts, j));
      if t1.lastDTS - t1.firstDTS >= ToTicks(PART_DURATION, t1.scale) {
        LongPartFlushable(t1, Given(all, j), Of(m.parts, j));
        EmittedPart(m1, all, j);
        SamePart(m1, m, all, Part(m.nextNumber, EmitAll(m1.tracks, false)));
      }
    }
    hide *;
    WriteParts(m, j, f);
  }

  lemma SamePart(m1: Mux, m: Mux, calls: seq<Call>, p: Part)
    requires PartOf(p, m1, calls) && m1.parts == m.parts && |m1.tracks| == |m.tracks|
    ensures PartOf(p, m, calls)
  {
    hide Given;
    hide Playlist;
    hide Flat;
    hide Of;
  }

  lemma WriteParts(m: Mux, j: nat, f: Frame)
    requires Writable(m, j)
    ensures var t := Take(m.tracks[j], f);
      WriteSample(m, j, f).0.parts
      == if f.dts >= 0 && t.lastDTS - t.firstDTS >= ToTicks(PART_DURATION, t.scale)
         then InnerFlush(m.(tracks := m.tracks[j := t]), false).0.parts else m.parts
  {
    hide InnerFlush;
    hide Take;
  }

  /** The muxer once the track took the frame. */
  lemma TakenInv(m: Mux, calls: seq<Call>, j: nat, f: Frame)
    requires MuxInv(m, calls) && j < |m.tracks| && Ordered(calls + [Write(j, f)])
    ensures Writable(m, j)
    ensures var all, t := calls + [Write(j, f)], Take(m.tracks[j], f);
      && MuxInv(m.(tracks := m.tracks[j := t]), all) && TrackInv(t, Given(all, j), Of(m.parts, j))
      && (f.dts >= 0 ==> Given(all, j).kept != [])
  {
    var all := calls + [Write(j, f)];
    var t, s, list := m.tracks[j], Given(calls, j), Of(m.parts, j);
    assert TrackInv(t, s, list);
    assert all[..|calls|] == calls;
    LastKept(all, j, |calls|);
    TakeOk(t, s, list, f);
    assert Given(all, j) == Push(s, f);
    SetTrackOk(m, calls, Write(j, f), Take(t, f));
    hide MuxInv;
    hide TrackInv;
    hide Take;
  }

  lemma TakenTimes(t: Track, f: Frame)
    requires t.firstDTS >= 0 ==> t.samples != []
    ensures f.dts >= 0 ==> Take(t, f).lastDTS == f.dts && Take(t, f).scale == t.scale
  {
  }

  lemma HeldFirst(t: Track, s: Stream, list: seq<PartTrack>)
    requires TrackInv(t, s, list) && s.kept != []
    ensures |Flat(list)| < |Playlist(s)| && t.firstDTS == Playlist(s)[|Flat(list)|].dts
  {
    hide Emitted;
    hide Playlist;
  }

  lemma EmittedPart(m: Mux, calls: seq<Call>, j: nat)
    requires MuxInv(m, calls) && j < |m.tracks| && Flushable(m.tracks[j], false)
    ensures var out, m1 := Part(m.nextNumber, EmitAll(m.tracks, false)), InnerFlush(m, false).0;
      m1.parts == m.parts + [out] && PartOf(out, m, calls)
  {
    var out := EmitAll(m.tracks, false);
    assert j in out;
    hide InnerFlush;
    forall i: nat | i < |m.tracks|
      ensures Flushable(m.tracks[i], false) <==> Given(calls, i).kept != [] && Held(m, calls, i) > 1
      ensures Flushable(m.tracks[i], false) ==> |Emit(m.tracks[i], false).samples| == Held(m, calls, i) - 1
    {
      HeldBack(m.tracks[i], Given(calls, i), Of(m.parts, i));
    }
    hide MuxInv;
    hide Flushable;
    hide Held;
    FlushAppends(m, j);
  }

  lemma FlushAppends(m: Mux, j: nat)
    requires j < |m.tracks| && Flushable(m.tracks[j], false)
    ensures InnerFlush(m, false).0.parts == m.parts + [Part(m.nextNumber, EmitAll(m.tracks, false))]
  {
    assert j in EmitAll(m.tracks, false);
  }

  lemma HeldBack(t: Track, s: Stream, list: seq<PartTrack>)
    requires TrackInv(t, s, list)
    ensures Flushable(t, false) <==> s.kept != [] && |Playlist(s)| - |Flat(list)| > 1
    ensures Flushable(t, false) ==> |Emit(t, false).samples| == |Playlist(s)| - |Flat(list)| - 1
  {
    hide Emitted;
    hide Playlist;
  }

  /** The muxer after a sequence of calls, and whether none reported an error. */
  function Run(scales: seq<int>, calls: seq<Call>): (r: (Mux, bool))
    requires Allowed(scales, calls)
    ensures MuxInv(r.0, calls) && r.1 && |r.0.tracks| == |scales|
    decreases |calls|
  {
    if calls == [] then (Fresh(scales), true)
    else
      var init := calls[..|calls| - 1];
      assert Allowed(scales, init);
      var (m, ok) := Run(scales, init);
      StepOk(m, init, Last(calls));
      assert init + [Last(calls)] == calls;
      var (m1, ok1) := Step(m, Last(calls));
      (m1, ok && ok1)
  }

  /** list holds the whole of p: every sample once, in order, each lasting until its
      successor and the last one as long as told, each fragment placed at its first
      sample. */
  ghost predicate Complete(list: seq<PartTrack>, p: seq<Frame>, close: nat) {
    && list != [] && |Flat(list)| == |p| > 0
    && (forall k | 0 <= k < |p| - 1 :: Flat(list)[k] == Expected(p, k))
    && Last(Flat(list)) == ToSample(Last(p)).(duration := close)
    && forall k | 0 <= k < |list| :: |Flat(list[..k])| < |p| && list[k].base == p[|Flat(list[..k])|].dts
  }

  lemma {:induction false} FlatAt(list: seq<PartTrack>, p: seq<Frame>, k: nat)
    requires Emitted(list, p) && k < |Flat(list)| && |Flat(list)| < |p|
    ensures Flat(list)[k] == Expected(p, k)
  {
    if list != [] {
      var n := |Flat(list[..|list| - 1])|;
      if k < n { FlatAt(list[..|list| - 1], p, k); } else { assert Flat(list)[k] == Last(list).samples[k - n]; }
    }
  }

  lemma {:induction false} BaseAt(list: seq<PartTrack>, p: seq<Frame>, k: nat)
    requires Emitted(list, p) && k < |list|
    ensures |Flat(list[..k])| < |p| && list[k].base == p[|Flat(list[..k])|].dts
  {
    if k < |list| - 1 {
      BaseAt(list[..|list| - 1], p, k);
      assert list[..|list| - 1][..k] == list[..k];
    }
  }

  lemma FinalTrack(t: Track, p: seq<Frame>, list: seq<PartTrack>, close: nat)
    requires Emitted(list, p) && Waiting(t, p, |Flat(list)|, close) && p != []
    ensures Complete(list + [PartTrack(t.firstDTS, t.samples)], p, close)
  {
    var all, n := list + [PartTrack(t.firstDTS, t.samples)], |Flat(list)|;
    assert all[..|list|] == list;
    assert Flat(all) == Flat(list) + t.samples;
    forall k | 0 <= k < |p| - 1 ensures Flat(all)[k] == Expected(p, k) {
      if k < n { FlatAt(list, p, k); } else { assert Flat(all)[k] == t.samples[k - n]; }
    }
    forall k | 0 <= k < |all| ensures |Flat(all[..k])| < |p| && all[k].base == p[|Flat(all[..k])|].dts {
      assert all[..k] == list[..k];
      if k < |list| { BaseAt(list, p, k); } else { assert list[..k] == list; }
    }
  }

  /** However the tracks' calls interleave, after the closing flush each track's
      fragments hold exactly its playlist: the frames written at or after decode
      time 0, once and in order, after the pre-roll back to the last sync sample,
      each lasting until the next and the last until the last closing time. The flush
      reports "no samples" only when there are none. */
  lemma RunConserves(scales: seq<int>, calls: seq<Call>, j: nat)
    requires Allowed(scales, calls) && j < |scales|
    ensures var s := Given(calls, j);
      var (m, ok) := InnerFlush(Run(scales, calls).0, true);
      if s.kept == [] then Of(m.parts, j) == [] else ok && Complete(Of(m.parts, j), Playlist(s), s.close)
  {
    var m0, s := Run(scales, calls).0, Given(calls, j);
    var (m, ok) := InnerFlush(m0, true);
    var t, list := m0.tracks[j], Of(m0.parts, j);
    assert TrackInv(t, s, list);
    var out := EmitAll(m0.tracks, true);
    OfAppend(m0.parts, Part(m0.nextNumber, out), j);
    if s.kept == [] {
      assert !Flushable(t, true);
      assert j !in out;
    } else {
      EmittedLength(list, Playlist(s));
      assert Flushable(t, true) && j in out;
      FinalTrack(t, Playlist(s), list, s.close);
    }
    hide Run;
  }

  /** Every part has a fragment of some track. */
  ghost predicate Filled(parts: seq<Part>, tracks: nat) {
    forall k | 0 <= k < |parts| :: HasTrack(parts[k], tracks)
  }

  ghost predicate HasTrack(p: Part, tracks: nat) {
    exists j: nat :: j < tracks && j in p.tracks
  }

  lemma FlushFilled(m: Mux)
    requires Filled(m.parts, |m.tracks|)
    ensures Filled(InnerFlush(m, false).0.parts, |m.tracks|) && |InnerFlush(m, false).0.tracks| == |m.tracks|
  {
    var out := EmitAll(m.tracks, false);
    if out != map[] {
      var j :| j in out;
      assert j < |m.tracks|;
      assert HasTrack(Part(m.nextNumber, out), |m.tracks|);
    }
    hide HasTrack;
  }

  lemma StepFilled(m: Mux, c: Call)
    requires Writable(m, c.track) && Filled(m.parts, |m.tracks|)
    ensures Filled(Step(m, c).0.parts, |m.tracks|)
  {
    if c.Write? { FlushFilled(m.(tracks := m.tracks[c.track := Take(m.tracks[c.track], c.frame)])); }
    hide InnerFlush;
    hide Filled;
    hide Take;
  }

  lemma {:induction false} RunFilled(scales: seq<int>, calls: seq<Call>)
    requires Allowed(scales, calls)
    ensures Filled(Run(scales, calls).0.parts, |scales|)
  {
    if calls == [] {
      NoneFilled(scales);
    } else {
      hide *;
      var init, c := calls[..|calls| - 1], Last(calls);
      assert init + [c] == calls;
      RunStep(scales, init, c);
      RunFilled(scales, init);
      StepFilled(Run(scales, init).0, c);
    }
  }

  lemma NoneFilled(scales: seq<int>)
    requires Allowed(scales, [])
    ensures Filled(Run(scales, []).0.parts, |scales|)
  {
  }

  /** The closing flush reports "no samples" exactly when no track was given one at or
      after decode time 0. */
  lemma ReportsNoSamples(scales: seq<int>, calls: seq<Call>)
    requires Allowed(scales, calls)
    ensures InnerFlush(Run(scales, calls).0, true).1 <==> exists j: nat :: j < |scales| && Given(calls, j).kept != []
  {
    hide *;
    RunFilled(scales, calls);
    FlushReports(Run(scales, calls).0, calls);
  }

  lemma FlushReports(m: Mux, calls: seq<Call>)
    requires MuxInv(m, calls) && Filled(m.parts, |m.tracks|)
    ensures InnerFlush(m, true).1 <==> exists j: nat :: j < |m.tracks| && Given(calls, j).kept != []
  {
    forall j: nat | j < |m.tracks|
      ensures Flushable(m.tracks[j], true) <==> Given(calls, j).kept != []
      ensures Given(calls, j).kept == [] ==> Of(m.parts, j) == []
    {
      HeldToTheEnd(m.tracks[j], Given(calls, j), Of(m.parts, j));
    }
    assert m.initPending <==> m.parts == [];
    hide MuxInv;
    hide InnerFlush;
    hide Flushable;
    hide Filled;
    hide Of;
    if j: nat :| j < |m.tracks| && Given(calls, j).kept != [] {
      SomeFlushed(m, j);
      assert exists j: nat :: j < |m.tracks| && Given(calls, j).kept != [];
    } else {
      NoneFlushed(m);
      NoParts(m);
    }
  }

  lemma SomeFlushed(m: Mux, j: nat)
    requires j < |m.tracks| && Flushable(m.tracks[j], true)
    ensures InnerFlush(m, true).1
  {
    assert j in EmitAll(m.tracks, true);
    hide Flushable;
  }

  lemma NoneFlushed(m: Mux)
    requires forall j: nat | j < |m.tracks| :: !Flushable(m.tracks[j], true)
    ensures InnerFlush(m, true).1 == !m.initPending
  {
    assert EmitAll(m.tracks, true) == map[] by { hide Flushable; }
    hide Flushable;
    hide EmitAll;
  }

  lemma NoParts(m: Mux)
    requires Filled(m.parts, |m.tracks|) && forall j: nat | j < |m.tracks| :: Of(m.parts, j) == []
    ensures m.parts == []
  {
    if m.parts != [] {
      var j: nat :| j < |m.tracks| && j in m.parts[|m.parts| - 1].tracks;
      assert Of(m.parts, j) != [];
    }
  }

  lemma HeldToTheEnd(t: Track, s: Stream, list: seq<PartTrack>)
    requires TrackInv(t, s, list)
    ensures Flushable(t, true) <==> s.kept != []
    ensures s.kept == [] ==> list == []
  {
    if s.kept != [] { EmittedLength(list, Playlist(s)); }
    hide Emitted;
    hide Playlist;
  }

  /** After its last frame a track's last duration is the gap to the latest closing
      time, whatever other tracks were told since. */
  lemma {:induction false} ClosedByLastFinish(calls: seq<Call>, j: nat, k: nat)
    requires k < |calls| && calls[k].Finish? && calls[k].track == j && Given(calls[..k], j).kept != []
    requires forall i | k < i < |calls| :: calls[i].track != j
    ensures var s := Given(calls[..k], j);
      Given(calls, j) == s.(close := GapTo(Last(s.kept).dts, calls[k].dts))
  {
    if k < |calls| - 1 {
      var init := calls[..|calls| - 1];
      assert init[..k] == calls[..k];
      ClosedByLastFinish(init, j, k);
    }
  }

  // ----- time -----

  function Total(samples: seq<Sample>): nat {
    if samples == [] then 0 else Total(samples[..|samples| - 1]) + Last(samples).duration
  }

  ghost predicate Sorted(p: seq<Frame>) {
    forall a, b | 0 <= a < b < |p| :: p[a].dts <= p[b].dts
  }

  lemma {:induction false} TotalGaps(samples: seq<Sample>, p: seq<Frame>, a: nat)
    requires a + |samples| < |p| && Sorted(p)
    requires forall i | 0 <= i < |samples| :: samples[i].duration == GapTo(p[a + i].dts, p[a + i + 1].dts)
    ensures Total(samples) <= p[a + |samples|].dts - p[a].dts
    ensures Total(samples) == p[a + |samples|].dts - p[a].dts
      <==> forall i | a <= i < a + |samples| :: p[i + 1].dts - p[i].dts < UINT32
  {
    if samples != [] {
      var n := |samples| - 1;
      TotalGaps(samples[..n], p, a);
      GapBound(p[a + n].dts, p[a + n + 1].dts);
      assert Total(samples) == Total(samples[..n]) + GapTo(p[a + n].dts, p[a + n + 1].dts);
    }
  }

  lemma GapBound(from: int, to: int)
    requires from <= to
    ensures GapTo(from, to) <= to - from
    ensures GapTo(from, to) == to - from <==> to - from < UINT32
  {
  }

  lemma {:induction false} FlatPart(list: seq<PartTrack>, k: nat, i: nat)
    requires k < |list| && i < |list[k].samples|
    ensures |Flat(list[..k])| + i < |Flat(list)| && Flat(list)[|Flat(list[..k])| + i] == list[k].samples[i]
    ensures |Flat(list[..k + 1])| == |Flat(list[..k])| + |list[k].samples|
    decreases |list|
  {
    assert list[..k + 1][..k] == list[..k];
    if k == |list| - 1 {
      assert list[..k + 1] == list;
    } else {
      var init := list[..|list| - 1];
      FlatPart(init, k, i);
      assert init[..k] == list[..k] && init[..k + 1] == list[..k + 1];
    }
  }

  /** A fragment's base time is the previous one's plus its samples' durations,
      exactly when no gap between its samples overflows the 32-bit duration. */
  lemma NextBase(list: seq<PartTrack>, p: seq<Frame>, close: nat, k: nat)
    requires Complete(list, p, close) && Sorted(p) && k + 1 < |list| && list[k].samples != []
    ensures var a, b := |Flat(list[..k])|, |Flat(list[..k + 1])|;
      && a < b < |p|
      && (list[k + 1].base == list[k].base + Total(list[k].samples)
          <==> forall i | a <= i < b :: p[i + 1].dts - p[i].dts < UINT32)
  {
    var a, n := |Flat(list[..k])|, |list[k].samples|;
    FlatPart(list, k, 0);
    assert list[k + 1].base == p[a + n].dts;
    forall i | 0 <= i < n ensures list[k].samples[i].duration == GapTo(p[a + i].dts, p[a + i + 1].dts) {
      FlatPart(list, k, i);
      assert Flat(list)[a + i] == Expected(p, a + i);
    }
    TotalGaps(list[k].samples, p, a);
  }

  /** Two keyframes 2^32 ticks apart. */
  function FarApart(): seq<Call> {
    [Write(0, Frame(0, 0, false, [])), Write(0, Frame(UINT32, 0, false, []))]
  }

  lemma RunStep(scales: seq<int>, calls: seq<Call>, c: Call)
    requires Allowed(scales, calls + [c])
    ensures Allowed(scales, calls) && Writable(Run(scales, calls).0, c.track)
    ensures Run(scales, calls + [c]).0 == Step(Run(scales, calls).0, c).0
  {
    var all := calls + [c];
    assert all[..|calls|] == calls;
    assert forall k | 0 <= k < |calls| :: all[k] == calls[k];
    assert all[|calls|] == c;
    StepOk(Run(scales, calls).0, calls, c);
    hide MuxInv;
    hide Step;
  }

  /** They make two fragments, the first of which claims to last no time at all. */
  lemma LongGapBreaksBase()
    ensures Allowed([90000], FarApart())
    ensures var list := Of(InnerFlush(Run([90000], FarApart()).0, true).0.parts, 0);
      |list| == 2 && list[1].base == UINT32 && list[0].base + Total(list[0].samples) == 0
  {
    hide *;
    FarApartSteps();
    FarApartList();
  }

  lemma FarApartSteps()
    ensures Allowed([90000], FarApart())
    ensures Run([90000], FarApart()).0
         == Mux([Track(90000, UINT32, UINT32, [Sample(0, false, [], 0)])], false, 1,
                [Part(0, map[0 := PartTrack(0, [Sample(0, false, [], 0)])])])
  {
    var calls := FarApart();
    assert calls == [calls[0]] + [calls[1]];
    assert [] + [calls[0]] == [calls[0]];
    hide MuxInv;
    hide Step;
    RunStep([90000], [calls[0]], calls[1]);
    RunStep([90000], [], calls[0]);
    FreshStep(calls[0]);
    SecondStep(calls[1]);
  }

  lemma FarApartList()
    ensures var s := Sample(0, false, [], 0);
      var parts := [Part(0, map[0 := PartTrack(0, [s])])];
      var m := InnerFlush(Mux([Track(90000, UINT32, UINT32, [s])], false, 1, parts), true).0;
      var list := Of(m.parts, 0);
      |list| == 2 && list[1].base == UINT32 && list[0].base + Total(list[0].samples) == 0
  {
    var s := Sample(0, false, [], 0);
    var part, parts := PartTrack(0, [s]), [Part(0, map[0 := PartTrack(0, [s])])];
    LastFlush(s, parts);
    var out := EmitAll([Track(90000, UINT32, UINT32, [s])], true);
    hide EmitAll;
    hide InnerFlush;
    OfAppend([], parts[0], 0);
    assert [] + parts == parts;
    OfAppend(parts, Part(1, out), 0);
    assert part.samples[..0] == [];
  }

  lemma LastFlush(s: Sample, parts: seq<Part>)
    ensures var tracks := [Track(90000, UINT32, UINT32, [s])];
      var out := EmitAll(tracks, true);
      && 0 in out && out[0] == PartTrack(UINT32, [s])
      && InnerFlush(Mux(tracks, false, 1, parts), true).0.parts == parts + [Part(1, out)]
  {
    var tracks := [Track(90000, UINT32, UINT32, [s])];
    assert Flushable(tracks[0], true);
    assert 0 in EmitAll(tracks, true);
    hide DrainAll;
  }

  lemma FreshStep(c: Call)
    requires c == Write(0, Frame(0, 0, false, []))
    ensures Step(Fresh([90000]), c).0 == Mux([Track(90000, 0, 0, [Sample(0, false, [], 0)])], true, 0, [])
  {
    hide ToTicks;
    hide InnerFlush;
    WholeSecond(90000);
    var t0, t := Track(90000, -1, 0, []), Track(90000, 0, 0, [Sample(0, false, [], 0)]);
    assert Fresh([90000]).tracks == [t0];
    assert Take(t0, c.frame) == t;
    assert [t0][0 := t] == [t];
  }

  lemma SecondStep(c: Call)
    requires c == Write(0, Frame(UINT32, 0, false, []))
    ensures Step(Mux([Track(90000, 0, 0, [Sample(0, false, [], 0)])], true, 0, []), c).0
         == Mux([Track(90000, UINT32, UINT32, [Sample(0, false, [], 0)])], false, 1,
                [Part(0, map[0 := PartTrack(0, [Sample(0, false, [], 0)])])])
  {
    hide ToTicks;
    hide InnerFlush;
    var s := Sample(0, false, [], 0);
    var t := Track(90000, 0, UINT32, [s, s]);
    assert Take(Track(90000, 0, 0, [s]), c.frame) == t;
    WholeSecond(90000);
    FlushOne(t);
    var t0 := Track(90000, 0, 0, [s]);
    assert [t0][0 := t] == [t];
  }

  lemma FlushOne(t: Track)
    requires t == Track(90000, 0, UINT32, [Sample(0, false, [], 0), Sample(0, false, [], 0)])
    ensures InnerFlush(Mux([t], true, 0, []), false).0
         == Mux([Track(90000, UINT32, UINT32, [Sample(0, false, [], 0)])], false, 1,
                [Part(0, map[0 := PartTrack(0, [Sample(0, false, [], 0)])])])
  {
    assert Flushable(t, false);
    assert Emit(t, false) == PartTrack(0, [Sample(0, false, [], 0)]);
    assert Drain(t, false) == Track(90000, UINT32, UINT32, [Sample(0, false, [], 0)]);
    var out := EmitAll([t], false);
    assert 0 in out;
    assert out == map[0 := PartTrack(0, [Sample(0, false, [], 0)])];
    assert DrainAll([t], false) == [Drain(t, false)];
  }

  /** Playlists are in time order. */
  lemma PlaylistSorted(calls: seq<Call>, j: nat)
    requires Ordered(calls) && Given(calls, j).kept != []
    ensures Sorted(Playlist(Given(calls, j)))
  {
    KeptSorted(calls, j);
  }

  lemma {:induction false} KeptSorted(calls: seq<Call>, j: nat)
    requires Ordered(calls)
    ensures Sorted(Given(calls, j).kept)
  {
    if calls != [] {
      var init, c := calls[..|calls| - 1], Last(calls);
      KeptSorted(init, j);
      if c.Write? && c.track == j { LastKept(calls, j, |calls| - 1); }
    }
  }
}

/** The muxer in its own form. */
module Muxer {
  import opened Wrappers
  import opened Clock
  import opened MuxerSpec

  class MuxerTrack {
    const timeScale: int
    var firstDTS: int
    var lastDTS: int
    var samples: seq<Sample>

    constructor (timeScale: int)
      ensures State() == Track(timeScale, -1, 0, [])
    {
      this.timeScale, firstDTS, lastDTS, samples := timeScale, -1, 0, [];
    }

    function State(): Track
      reads this
    {
      Track(timeScale, firstDTS, lastDTS, samples)
    }

    method CloseLast(dts: int)
      requires samples != []
      modifies this
      ensures State() == old(State()).(samples := SetLast(old(samples), GapTo(lastDTS, dts)))
    {
      var duration := Max(dts - lastDTS, 0);
      samples := samples[|samples| - 1 := samples[|samples| - 1].(duration := duration % UINT32)];
    }

    method Append(f: Frame)
      requires firstDTS >= 0 ==> samples != []
      modifies this
      ensures State() == Take(old(State()), f)
    {
      if f.dts >= 0 {
        if firstDTS < 0 {
          firstDTS := f.dts;
          if !f.nonSync { samples := []; }
        } else {
          CloseLast(f.dts);
        }
        samples := samples + [ToSample(f)];
        lastDTS := f.dts;
      } else if !f.nonSync {
        samples := [ToSample(f)];
      } else {
        samples := samples + [ToSample(f)];
      }
    }

    method TakeOut(final: bool) returns (out: PartTrack)
      requires Flushable(State(), final)
      modifies this
      ensures out == Emit(old(State()), final) && State() == Drain(old(State()), final)
    {
      out := PartTrack(firstDTS, if final then samples else samples[..|samples| - 1]);
      if !final {
        samples := samples[|samples| - 1..];
        firstDTS := lastDTS;
      }
    }
  }

  ghost predicate Distinct(tracks: seq<MuxerTrack>) {
    forall i, j | 0 <= i < j < |tracks| :: tracks[i] != tracks[j]
  }

  ghost function StatesOf(tracks: seq<MuxerTrack>): seq<Track>
    reads tracks
  {
    seq(|tracks|, j requires 0 <= j < |tracks| reads tracks => tracks[j].State())
  }

  lemma DrainIdle(t: Track, final: bool)
    ensures !Flushable(t, final) ==> Drain(t, final) == t
  {
  }

  class Muxer {
    const tracks: seq<MuxerTrack>
    var cur: nat
    var initPending: bool
    var nextSequenceNumber: nat
    var written: seq<Part>

    /** writeInit. */
    constructor (tracks: seq<MuxerTrack>)
      requires Distinct(tracks)
      ensures this.tracks == tracks && Valid() && State() == Mux(StatesOf(tracks), true, 0, [])
    {
      this.tracks, cur, initPending, nextSequenceNumber, written := tracks, 0, true, 0, [];
    }

    ghost predicate Valid() {
      Distinct(tracks)
    }

    ghost function State(): Mux
      reads this, tracks
    {
      Mux(StatesOf(tracks), initPending, nextSequenceNumber, written)
    }

    method SetTrack(j: nat)
      requires j < |tracks|
      modifies this`cur
      ensures cur == j
    {
      cur := j;
    }

    method WriteSample(f: Frame) returns (ok: bool)
      requires Valid() && Writable(State(), cur)
      modifies this, tracks
      ensures cur == old(cur)
      ensures (State(), ok) == MuxerSpec.WriteSample(old(State()), cur, f)
    {
      hide InnerFlush;
      hide Take;
      hide ToTicks;
      ghost var states := StatesOf(tracks);
      var t := tracks[cur];
      assert states[cur] == t.State();
      t.Append(f);
      assert StatesOf(tracks) == states[cur := Take(states[cur], f)];
      ok := true;
      if f.dts >= 0 && t.lastDTS - t.firstDTS >= ToTicks(PART_DURATION, t.timeScale) {
        ok := Flush(false);
      }
    }

    method WriteFinalDTS(dts: int)
      requires Valid() && cur < |tracks|
      modifies tracks[cur]
      ensures State() == MuxerSpec.WriteFinalDTS(old(State()), cur, dts)
    {
      ghost var states := StatesOf(tracks);
      var t := tracks[cur];
      assert states[cur] == t.State();
      if |t.samples| != 0 && t.firstDTS >= 0 {
        t.CloseLast(dts);
      }
      assert StatesOf(tracks) == states[cur := TakeFinal(states[cur], dts)];
    }

    /** innerFlush: one part from every track that has something to flush. */
    method Flush(final: bool) returns (ok: bool)
      requires Valid()
      modifies this, tracks
      ensures cur == old(cur)
      ensures (State(), ok) == InnerFlush(old(State()), final)
    {
      hide DrainAll;
      hide EmitAll;
      hide StatesOf;
      var out := Collect(final);
      if out == map[] {
        ok := !initPending;
        return;
      }
      written := written + [Part(nextSequenceNumber, out)];
      nextSequenceNumber := nextSequenceNumber + 1;
      initPending := false;
      ok := true;
    }

    method Collect(final: bool) returns (out: map<nat, PartTrack>)
      requires Valid()
      modifies tracks
      ensures out == EmitAll(old(StatesOf(tracks)), final)
      ensures StatesOf(tracks) == DrainAll(old(StatesOf(tracks)), final)
      ensures out == map[] ==> StatesOf(tracks) == old(StatesOf(tracks))
    {
      hide Emit;
      hide Drain;
      out := map[];
      ghost var states := StatesOf(tracks);
      for k := 0 to |tracks|
        invariant forall j: nat :: j in out <==> j < k && Flushable(states[j], final)
        invariant forall j | j in out :: out[j] == Emit(states[j], final)
        invariant forall j | 0 <= j < k :: tracks[j].State() == Drain(states[j], final)
        invariant forall j | k <= j < |tracks| :: tracks[j].State() == states[j]
      {
        var t := tracks[k];
        DrainIdle(states[k], final);
        if t.firstDTS >= 0 && (|t.samples| > 1 || (final && |t.samples| != 0)) {
          var o := t.TakeOut(final);
          out := out[k := o];
        }
      }
      if out == map[] {
        forall j | 0 <= j < |tracks| ensures Drain(states[j], final) == states[j] {
          assert j !in out;
          DrainIdle(states[j], final);
        }
      }
    }
  }
}
