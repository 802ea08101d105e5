/** Placeholder splicing (playback/fill.go). Times are output times in nanoseconds
    unless they are called ticks. */
module FillSpec {
  import opened Wrappers
  import opened Clock
  import M = MuxerSpec

  const THRESHOLD: int := 5 * SECOND

  /** What reached the muxer's video track: a placeholder shown from `from`, or a
      real frame shown until `until`. */
  datatype Shot = Placeholder(dts: int, from: int) | Real(dts: int, sync: bool, until: int)

  /** videoFill; out is the history of what it let through or put in. */
  datatype Fill = Fill(track: nat, scale: int, payload: M.Bytes, end: int, started: bool, lastDTS: int,
                       needKey: bool, otherEnd: int, out: seq<Shot>)

  /** A fresh fill for a segment placed at output time start. */
  function At(track: nat, scale: int, payload: M.Bytes, start: int): Fill {
    Fill(track, scale, payload, start, false, 0, false, 0, [])
  }

  /** One second's step of fillTo, at time t. */
  function Put(f: Fill, t: int): Fill {
    var dts := ToTicks(t, f.scale);
    if f.started && dts <= f.lastDTS then f
    else f.(started := true, lastDTS := dts, needKey := true, out := f.out + [Placeholder(dts, t)])
  }

  /** The loop of fillTo from t on; also where it stopped. */
  function PutFrom(f: Fill, t: int, target: int): (Fill, int)
    decreases target - t
  {
    if t >= target then (f, t) else PutFrom(Put(f, t), t + SECOND, target)
  }

  function FillTo(f: Fill, target: int): Fill {
    var (f1, t) := PutFrom(f, f.end, target);
    f1.(end := Max(f1.end, t))
  }

  lemma {:induction false} PutKeepsScale(f: Fill, t: int, target: int)
    ensures PutFrom(f, t, target).0.scale == f.scale
    decreases target - t
  {
    hide ToTicks;
    if t < target { PutKeepsScale(Put(f, t), t + SECOND, target); }
  }

  /** A real sample no fill covers: let through, unless a fill waits for a keyframe. */
  function Pass(f: Fill, dts: int, offset: int, duration: int, sync: bool): (Fill, bool)
    requires f.scale > 0
  {
    if f.needKey && !sync then (f, false)
    else
      var d := ToNanos(duration, f.scale);
      var until := ToNanos(dts + offset, f.scale) + if d > THRESHOLD then 0 else d;
      (f.(needKey := false, end := Max(f.end, until), started := true, lastDTS := dts,
          out := f.out + [Real(dts, sync, until)]), true)
  }

  /** A real video sample: filled up to, then let through or dropped. */
  function Video(f: Fill, dts: int, offset: int, duration: int, sync: bool): (Fill, bool)
    requires f.scale > 0
  {
    if f.started && dts <= f.lastDTS then (f, false)
    else
      var t := ToNanos(dts, f.scale);
      PutKeepsScale(f, f.end, t);
      Pass(if t - f.end > THRESHOLD then FillTo(f, t) else f, dts, offset, duration, sync)
  }

  function Other(f: Fill, end: int): Fill {
    f.(otherEnd := Max(f.otherEnd, end))
  }

  function CatchUp(f: Fill): Fill {
    if f.otherEnd - f.end > 2 * THRESHOLD then FillTo(f, f.otherEnd - THRESHOLD) else f
  }

  /** Fills the rest of the segment; the time its last sample is closed at, if any. */
  function Finish(f: Fill, limit: int): (Fill, Option<int>) {
    var target := Min(f.otherEnd, limit);
    if target - f.end > THRESHOLD then (FillTo(f, target), Some(target)) else (f, None)
  }

  lemma VideoKeepsScale(f: Fill, dts: int, offset: int, duration: int, sync: bool)
    requires f.scale > 0
    ensures Video(f, dts, offset, duration, sync).0.scale == f.scale
  {
    PutKeepsScale(f, f.end, ToNanos(dts, f.scale));
  }
}

module FillProofs {
  import opened Wrappers
  import opened Clock
  import opened FillSpec
  import M = MuxerSpec

  /** A keyframe on the tick of the placeholder before it, which happens at or
      before tick 0 only. */
  ghost predicate Tie(a: Shot, b: Shot) {
    a.Placeholder? && b.Real? && b.sync && a.dts == b.dts <= 0
  }

  /** b may come after a: it decodes later, but for ties, and is not shown before
      a's end. */
  ghost predicate Follows(a: Shot, b: Shot, scale: int)
    requires scale > 0
  {
    && (a.dts < b.dts || Tie(a, b))
    && (a.Real? && b.Placeholder? ==> a.until <= b.from)
    && (a.Placeholder? && b.Placeholder? ==> a.from < b.from)
    && (a.Placeholder? && b.Real? ==> a.from <= ToNanos(b.dts, scale))
  }

  /** Every later shot may come after every earlier one, and after a placeholder
      only a keyframe or another placeholder comes. */
  ghost predicate InOrder(out: seq<Shot>, scale: int)
    requires scale > 0
  {
    && (forall a, b | 0 <= a < b < |out| :: Follows(out[a], out[b], scale))
    && (forall a | 0 < a < |out| && out[a - 1].Placeholder? && out[a].Real? :: out[a].sync)
    && (forall a | 0 <= a < |out| && out[a].Placeholder? :: out[a].dts == ToTicks(out[a].from, scale))
  }

  /** Everything let through so far is covered, and the filler remembers it. */
  ghost predicate FillInv(f: Fill) {
    && f.scale > 0 && InOrder(f.out, f.scale)
    && (f.started <==> f.out != [])
    && (f.started ==> f.lastDTS == Last(f.out).dts)
    && (f.needKey <==> f.out != [] && Last(f.out).Placeholder?)
    && (forall a | 0 <= a < |f.out| && f.out[a].Real? :: f.out[a].until <= f.end)
  }

  /** Time t is past every placeholder so far. */
  ghost predicate After(f: Fill, t: int) {
    forall a | 0 <= a < |f.out| && f.out[a].Placeholder? :: f.out[a].from < t
  }

  lemma PutOk(f: Fill, t: int)
    requires FillInv(f) && f.end <= t && After(f, t)
    ensures FillInv(Put(f, t)) && After(Put(f, t), t + SECOND)
    ensures var f1 := Put(f, t);
      && f1.end == f.end && f1.scale == f.scale && f1.track == f.track && f1.otherEnd == f.otherEnd
      && (f1 == f || f1.out == f.out + [Placeholder(ToTicks(t, f.scale), t)])
  {
    hide ToNanos;
    hide ToTicks;
  }

  /** The placeholders from index n on start at t or a whole number of seconds
      later, before target. */
  ghost predicate EachSecond(out: seq<Shot>, n: nat, t: int, target: int, scale: int) {
    forall a | n <= a < |out| ::
      && out[a].Placeholder? && out[a].dts == ToTicks(out[a].from, scale)
      && t <= out[a].from < target && (out[a].from - t) % SECOND == 0
  }

  /** Every shot of the loop's result was there before or is a placeholder before target. */
  lemma {:induction false} PutFromOk(f: Fill, t: int, target: int)
    requires FillInv(f) && f.end <= t && After(f, t)
    ensures var (f1, t1) := PutFrom(f, t, target);
      && FillInv(f1) && f1.end == f.end && f1.scale == f.scale && f1.otherEnd == f.otherEnd && f1.track == f.track
      && target <= t1 && After(f1, t1) && t <= t1 && (t1 - t) % SECOND == 0
      && (t1 == t || t1 < target + SECOND)
      && f.out <= f1.out && EachSecond(f1.out, |f.out|, t, target, f.scale)
    decreases target - t
  {
    hide ToNanos;
    hide ToTicks;
    hide FillInv;
    if t < target {
      PutOk(f, t);
      var g := Put(f, t);
      PutFromOk(g, t + SECOND, target);
      var f1 := PutFrom(g, t + SECOND, target).0;
      forall a | |f.out| <= a < |f1.out|
        ensures f1.out[a].Placeholder? && f1.out[a].dts == ToTicks(f1.out[a].from, f.scale)
        ensures t <= f1.out[a].from < target && (f1.out[a].from - t) % SECOND == 0
      {
        if a < |g.out| { assert f1.out[a] == g.out[a]; }
      }
    }
  }

  /** The invariant between calls. */
  ghost predicate Inv(f: Fill) {
    FillInv(f) && After(f, f.end)
  }

  lemma FillToOk(f: Fill, target: int)
    requires Inv(f)
    ensures var f1 := FillTo(f, target);
      && Inv(f1) && f1.scale == f.scale && f1.otherEnd == f.otherEnd && f1.track == f.track
      && f.end <= f1.end && (f1.end - f.end) % SECOND == 0
      && target <= f1.end && (f1.end < target + SECOND || f1.end == f.end)
      && f.out <= f1.out && EachSecond(f1.out, |f.out|, f.end, target, f.scale)
  {
    hide ToNanos;
    hide ToTicks;
    PutFromOk(f, f.end, target);
  }

  // ----- one placeholder a second -----

  /** A shot shown from x or before it holds x's tick or a later one. */
  ghost predicate Taken(out: seq<Shot>, x: int, scale: int) {
    exists a | 0 <= a < |out| :: ToTicks(x, scale) <= out[a].dts && (out[a].Placeholder? ==> out[a].from <= x)
  }

  lemma PutTakes(f: Fill, t: int)
    requires FillInv(f) && After(f, t)
    ensures Taken(Put(f, t).out, t, f.scale)
  {
    hide ToTicks;
    hide InOrder;
    var out := Put(f, t).out;
    assert ToTicks(t, f.scale) <= out[|out| - 1].dts;
  }

  lemma {:induction false} PutFromTakes(f: Fill, t: int, target: int, x: int)
    requires FillInv(f) && f.end <= t && After(f, t) && t <= x < target && (x - t) % SECOND == 0
    ensures Taken(PutFrom(f, t, target).0.out, x, f.scale)
    decreases target - t
  {
    hide ToTicks;
    hide ToNanos;
    hide FillInv;
    PutOk(f, t);
    var g := Put(f, t);
    PutFromOk(g, t + SECOND, target);
    if x == t {
      PutTakes(f, t);
      var a :| 0 <= a < |g.out| && ToTicks(x, f.scale) <= g.out[a].dts
          && (g.out[a].Placeholder? ==> g.out[a].from <= x);
      assert PutFrom(g, t + SECOND, target).0.out[a] == g.out[a];
    } else {
      PutFromTakes(g, t + SECOND, target, x);
    }
  }

  /** Second x counted from the covered end gets its placeholder, unless a shot
      shown before it has its tick. */
  lemma FillToEverySecond(f: Fill, target: int, x: int)
    requires Inv(f) && f.end <= x < target && (x - f.end) % SECOND == 0
    ensures Taken(FillTo(f, target).out, x, f.scale)
  {
    hide ToTicks;
    PutFromTakes(f, f.end, target, x);
  }

  // ----- ticks and instants -----

  /** The tick a placeholder was given tells when it is shown. */
  lemma LaterTick(nanos: int, ticks: int, scale: int)
    requires scale > 0 && ToTicks(nanos, scale) < ticks
    ensures nanos <= ToNanos(ticks, scale)
  {
    if ToNanos(ticks, scale) < nanos {
      TicksBack(ticks, scale);
      MulDivMonotone(ToNanos(ticks, scale) + 1, nanos, scale, SECOND);
      hide ToNanos;
      assert false;
    }
  }

  /** One nanosecond past a tick's instant is at or past the tick. */
  lemma TicksBack(ticks: int, scale: int)
    requires scale > 0
    ensures ticks <= ToTicks(ToNanos(ticks, scale) + 1, scale)
  {
    var n := ToNanos(ticks, scale);
    if ticks >= 0 {
      MulDivBounds(ticks, SECOND, scale);
      MulDivBounds(n + 1, scale, SECOND);
      hide ToNanos;
      assert (n + 1) * scale == n * scale + scale;
      var t := ToTicks(n + 1, scale);
      hide ToTicks;
      assert ticks * SECOND < t * SECOND + SECOND;
    } else {
      MulDivOdd(-ticks, SECOND, scale);
      MulDivBounds(-ticks, SECOND, scale);
      hide ToNanos;
      var m := -n;
      if m >= 1 {
        MulDivOdd(m - 1, scale, SECOND);
        MulDivBounds(m - 1, scale, SECOND);
        assert (m - 1) * scale == m * scale - scale;
        var t := ToTicks(n + 1, scale);
        hide ToTicks;
      } else {
        MulDivBounds(n + 1, scale, SECOND);
        hide ToTicks;
      }
    }
  }

  lemma ZeroConverts(scale: int)
    requires scale > 0
    ensures ToNanos(0, scale) == 0 && ToTicks(0, scale) == 0
  {
    assert 0 * scale == 0;
  }

  /** An instant before a tick's own converts to that tick at the latest, and to
      an earlier one when the tick is past 0. */
  lemma NotLater(from: int, dts: int, scale: int)
    requires scale > 0 && from < ToNanos(dts, scale)
    ensures ToTicks(from, scale) <= dts
    ensures dts > 0 ==> ToTicks(from, scale) < dts
  {
    TicksBack(-dts, scale);
    MulDivOdd(dts, SECOND, scale);
    assert ToNanos(-dts, scale) + 1 <= -from;
    MulDivMonotone(ToNanos(-dts, scale) + 1, -from, scale, SECOND);
    MulDivOdd(from, scale, SECOND);
    if dts > 0 {
      ZeroConverts(scale);
      if from >= 0 { EarlierNanosEarlierTick(from, dts, scale); }
      else { MulDivMonotone(from, 0, scale, SECOND); }
    }
  }

  lemma ShiftGrid(a: int, k: int)
    ensures (a + k * SECOND) % SECOND == a % SECOND
  {
  }

  /** Whole seconds away from a tick's instant is a tick's instant, and only then. */
  lemma SameGrid(x: int, y: int, scale: int)
    requires (y - x) % SECOND == 0
    ensures y * scale % SECOND == x * scale % SECOND
  {
    var k := (y - x) / SECOND;
    assert y == x + k * SECOND;
    assert y * scale == x * scale + (k * scale) * SECOND;
    ShiftGrid(x * scale, k * scale);
  }

  lemma QuotExact(x: int)
    requires x % SECOND == 0
    ensures Quot(x, SECOND) * SECOND == x
  {
  }

  lemma QuotUpper(x: int, d: int)
    requires d > 0
    ensures Quot(x, d) * d < x + d
  {
    if x < 0 {
      var y := -x;
      assert y / d * d <= y < y / d * d + d;
      NegProduct(y / d, d);
    }
  }

  /** On the grid ticks and instants agree. */
  lemma OnGridBefore(from: int, dts: int, scale: int)
    requires scale > 0 && from * scale % SECOND == 0 && from < ToNanos(dts, scale)
    ensures ToTicks(from, scale) < dts
  {
    MulDivExact(from, scale, SECOND);
    MulDivExact(dts, SECOND, scale);
    var q, n := ToTicks(from, scale), ToNanos(dts, scale);
    assert q * SECOND == from * scale by { QuotExact(from * scale); }
    QuotUpper(dts * SECOND, scale);
    hide ToTicks;
    hide ToNanos;
    hide Quot;
    ScaleOrder(from + 1, n, scale);
    assert (from + 1) * scale == from * scale + scale;
    assert q * SECOND < dts * SECOND;
  }

  // ----- the order, wherever the segment is placed -----

  /** A sample at dts may follow all that was let through. */
  ghost predicate MayFollow(f: Fill, dts: int)
    requires f.scale > 0 && (f.started ==> f.out != [])
  {
    !f.started || f.lastDTS < dts
    || (Last(f.out).Placeholder? && f.lastDTS == dts <= 0 && Last(f.out).from <= ToNanos(dts, f.scale))
  }

  lemma PassOk(f: Fill, dts: int, offset: int, duration: int, sync: bool)
    requires Inv(f) && MayFollow(f, dts)
    ensures var (f1, ok) := Pass(f, dts, offset, duration, sync);
      && Inv(f1) && f1.otherEnd == f.otherEnd && f1.scale == f.scale && f1.track == f.track && f.out <= f1.out
      && (ok ==> f1.out != [] && Last(f1.out).Real? && Last(f1.out).dts == dts)
  {
    var n := |f.out|;
    if !f.needKey || sync {
      forall a | 0 <= a < n
        ensures f.out[a].dts < dts || (f.out[a].Placeholder? && sync && f.out[a].dts == dts <= 0)
        ensures f.out[a].Placeholder? ==> f.out[a].from <= ToNanos(dts, f.scale)
      {
        if a < n - 1 {
          assert Follows(f.out[a], f.out[n - 1], f.scale);
          assert f.out[a].dts < dts;
        }
        if f.out[a].dts < dts && f.out[a].Placeholder? { LaterTick(f.out[a].from, dts, f.scale); }
      }
    }
    hide ToNanos;
    hide ToTicks;
  }

  /** The placeholders put in before a sample leave it a place after them. */
  lemma FilledBefore(f: Fill, dts: int)
    requires Inv(f) && !(f.started && dts <= f.lastDTS)
    ensures Inv(FillTo(f, ToNanos(dts, f.scale))) && MayFollow(FillTo(f, ToNanos(dts, f.scale)), dts)
  {
    hide ToNanos;
    hide ToTicks;
    var f1 := FillTo(f, ToNanos(dts, f.scale));
    FillToOk(f, ToNanos(dts, f.scale));
    hide FillTo;
    hide InOrder;
    if |f1.out| > |f.out| { NotLater(Last(f1.out).from, dts, f.scale); } else { assert f1.out == f.out; }
  }

  lemma VideoOk(f: Fill, dts: int, offset: int, duration: int, sync: bool)
    requires Inv(f)
    ensures var (f1, ok) := Video(f, dts, offset, duration, sync);
      && Inv(f1) && f1.otherEnd == f.otherEnd && f1.scale == f.scale && f1.track == f.track && f.out <= f1.out
      && (ok ==> f1.out != [] && Last(f1.out).Real? && Last(f1.out).dts == dts)
  {
    if !(f.started && dts <= f.lastDTS) {
      var t := ToNanos(dts, f.scale);
      var f1 := if t - f.end > THRESHOLD then FillTo(f, t) else f;
      FillToOk(f, t);
      FilledBefore(f, dts);
      hide *;
      PassOk(f1, dts, offset, duration, sync);
    }
  }

  /** Whether a frame decoding at dts, at instant t, and shown until until passed as it
      should, told from what was emitted before and after. g is what was emitted once
      the frame had its span before it filled: what was before, for a frame that does
      not decode later or lies no more than 5 s past the covered end; otherwise that
      with a placeholder for every second up to the frame. The frame passes exactly
      when it decodes later than all before it and, after a placeholder, is a keyframe;
      it is then emitted as it came. When nothing had to be filled, the covered end
      moves to the frame's own or stays. */
  ghost predicate LetThrough(f: Fill, f1: Fill, ok: bool, dts: int, t: int, sync: bool, until: int)
    requires f.scale > 0
  {
    var later := f.out == [] || dts > Last(f.out).dts;
    && |f.out| <= |f1.out| - (if ok then 1 else 0)
    && var g := f1.out[..|f1.out| - if ok then 1 else 0];
    && f.out <= g && EachSecond(g, |f.out|, f.end, t, f.scale)
    && (!later || t - f.end <= 5 * SECOND ==> g == f.out && f1.end == if ok then Max(f.end, until) else f.end)
    && (later && t - f.end > 5 * SECOND ==>
          forall x | f.end <= x < t && (x - f.end) % SECOND == 0 :: Taken(g, x, f.scale))
    && (ok <==> later && (sync || g == [] || Last(g).Real?))
    && (ok ==> f1.out == g + [Real(dts, sync, until)])
  }

  /** When a frame's picture is over: a frame stretched over 5 s counts as shown for no
      time. */
  function Until(scale: int, dts: int, offset: int, duration: int): int
    requires scale > 0
  {
    ToNanos(dts + offset, scale) + if ToNanos(duration, scale) <= 5 * SECOND then ToNanos(duration, scale) else 0
  }

  /** Every frame passes or is dropped as that tells. */
  lemma FramesLetThrough(f: Fill, dts: int, offset: int, duration: int, sync: bool)
    requires Inv(f)
    ensures var (f1, ok) := Video(f, dts, offset, duration, sync);
      LetThrough(f, f1, ok, dts, ToNanos(dts, f.scale), sync, Until(f.scale, dts, offset, duration))
  {
    Remembered(f);
    hide *;
    if f.out == [] || dts > Last(f.out).dts {
      LaterFrame(f, dts, offset, duration, sync);
    } else {
      VideoLate(f, dts, offset, duration, sync);
      LateDropped(f, dts, ToNanos(dts, f.scale), sync, Until(f.scale, dts, offset, duration));
    }
  }

  lemma LaterFrame(f: Fill, dts: int, offset: int, duration: int, sync: bool)
    requires Inv(f) && (f.out == [] || dts > Last(f.out).dts)
    ensures f.scale > 0
    ensures var (f1, ok) := Video(f, dts, offset, duration, sync);
      LetThrough(f, f1, ok, dts, ToNanos(dts, f.scale), sync, Until(f.scale, dts, offset, duration))
  {
    Remembered(f);
    hide *;
    var t := ToNanos(dts, f.scale);
    VideoPasses(f, dts, offset, duration, sync);
    FilledFor(f, t);
    PassedIff(Filled(f, t), dts, offset, duration, sync);
    PassesAfter(f, Filled(f, t), Video(f, dts, offset, duration, sync).0, Video(f, dts, offset, duration, sync).1,
                dts, t, sync, Until(f.scale, dts, offset, duration));
  }

  lemma PassesAfter(f: Fill, f0: Fill, f1: Fill, ok: bool, dts: int, t: int, sync: bool, until: int)
    requires f.scale > 0 && f.out <= f0.out && EachSecond(f0.out, |f.out|, f.end, t, f.scale)
    requires f.out == [] || dts > Last(f.out).dts
    requires t - f.end <= THRESHOLD ==> f0 == f
    requires t - f.end > THRESHOLD ==>
      forall x | f.end <= x < t && (x - f.end) % SECOND == 0 :: Taken(f0.out, x, f.scale)
    requires ok <==> sync || f0.out == [] || Last(f0.out).Real?
    requires if ok then f1.out == f0.out + [Real(dts, sync, until)] && f1.end == Max(f0.end, until) else f1 == f0
    ensures LetThrough(f, f1, ok, dts, t, sync, until)
  {
    hide EachSecond;
    hide Taken;
    assert f1.out[..|f1.out| - if ok then 1 else 0] == f0.out;
  }

  lemma Remembered(f: Fill)
    requires Inv(f)
    ensures f.scale > 0 && (f.started <==> f.out != []) && (f.started ==> f.lastDTS == Last(f.out).dts)
  {
    hide InOrder;
  }

  lemma VideoPasses(f: Fill, dts: int, offset: int, duration: int, sync: bool)
    requires f.scale > 0 && !(f.started && dts <= f.lastDTS)
    ensures var f0 := Filled(f, ToNanos(dts, f.scale));
      f0.scale > 0 && Video(f, dts, offset, duration, sync) == Pass(f0, dts, offset, duration, sync)
  {
    hide Pass;
    hide ToNanos;
    PutKeepsScale(f, f.end, ToNanos(dts, f.scale));
  }

  lemma VideoLate(f: Fill, dts: int, offset: int, duration: int, sync: bool)
    requires f.scale > 0 && f.started && dts <= f.lastDTS
    ensures Video(f, dts, offset, duration, sync) == (f, false)
  {
    hide Pass;
    hide ToNanos;
  }

  lemma LateDropped(f: Fill, dts: int, t: int, sync: bool, until: int)
    requires f.scale > 0 && f.out != [] && dts <= Last(f.out).dts
    ensures LetThrough(f, f, false, dts, t, sync, until)
  {
    hide Taken;
    hide ToTicks;
    assert f.out[..|f.out|] == f.out;
  }

  /** The fill a frame at instant t triggers. */
  ghost function Filled(f: Fill, t: int): Fill {
    if t - f.end > THRESHOLD then FillTo(f, t) else f
  }

  lemma FilledFor(f: Fill, t: int)
    requires Inv(f)
    ensures var f1 := Filled(f, t);
      && Inv(f1) && f1.scale == f.scale && f.out <= f1.out && EachSecond(f1.out, |f.out|, f.end, t, f.scale)
      && (t - f.end <= THRESHOLD ==> f1 == f)
      && (t - f.end > THRESHOLD ==>
            forall x | f.end <= x < t && (x - f.end) % SECOND == 0 :: Taken(f1.out, x, f.scale))
  {
    FillToOk(f, t);
    if t - f.end > THRESHOLD {
      forall x | f.end <= x < t && (x - f.end) % SECOND == 0 ensures Taken(FillTo(f, t).out, x, f.scale) {
        FillToEverySecond(f, t, x);
      }
    }
    hide FillTo;
    hide Inv;
    hide Taken;
  }

  lemma PassedIff(f: Fill, dts: int, offset: int, duration: int, sync: bool)
    requires Inv(f)
    ensures var (f1, ok) := Pass(f, dts, offset, duration, sync);
      var until := Until(f.scale, dts, offset, duration);
      && (ok <==> sync || f.out == [] || Last(f.out).Real?)
      && (if ok then f1.out == f.out + [Real(dts, sync, until)] && f1.end == Max(f.end, until) else f1 == f)
  {
    hide ToNanos;
    hide InOrder;
  }

  /** Between fragments the covered video lags the other tracks by 10 s at most. It is
      filled up to 5 s behind them, and only when it lags by more. */
  lemma CatchUpOk(f: Fill)
    requires Inv(f)
    ensures var f1 := CatchUp(f);
      && Inv(f1) && f1.otherEnd == f.otherEnd && f1.otherEnd - f1.end <= 2 * THRESHOLD
      && f1.scale == f.scale && f1.track == f.track
      && (f.otherEnd - f.end <= 10 * SECOND ==> f1 == f)
      && (f.otherEnd - f.end > 10 * SECOND ==>
            && 4 * SECOND < f1.otherEnd - f1.end <= 5 * SECOND
            && f.out <= f1.out && EachSecond(f1.out, |f.out|, f.end, f.otherEnd - 5 * SECOND, f.scale))
  {
    hide ToNanos;
    hide ToTicks;
    if f.otherEnd - f.end > 2 * THRESHOLD { FillToOk(f, f.otherEnd - THRESHOLD); }
  }

  /** At the end of the segment at most 5 s before its end stay uncovered; a span over
      that is filled to the end, where the last sample is closed. */
  lemma FinishOk(f: Fill, limit: int)
    requires Inv(f)
    ensures var (f1, final) := Finish(f, limit);
      var target := Min(f.otherEnd, limit);
      && Inv(f1) && target - f1.end <= THRESHOLD && f1.otherEnd == f.otherEnd
      && (target - f.end <= 5 * SECOND ==> f1 == f && final.None?)
      && (target - f.end > 5 * SECOND ==>
            && final == Some(target) && target <= f1.end < target + SECOND
            && f.out <= f1.out && EachSecond(f1.out, |f.out|, f.end, target, f.scale))
  {
    hide ToNanos;
    hide ToTicks;
    var target := Min(f.otherEnd, limit);
    if target - f.end > THRESHOLD { FillToOk(f, target); }
  }

  // ----- where the order is strict -----

  ghost predicate Strict(out: seq<Shot>) {
    forall a, b | 0 <= a < b < |out| :: out[a].dts < out[b].dts
  }

  /** A covered end from which no placeholder can land on a later frame's tick: at
      or after -5 s, or on the tick grid of a clock that keeps it there. */
  predicate SafePlace(scale: int, end: int)
    requires scale > 0
  {
    end >= -THRESHOLD || (end * scale % SECOND == 0 && (SECOND % scale == 0 || scale % SECOND == 0))
  }

  ghost predicate Steady(f: Fill) {
    f.scale > 0 && Strict(f.out) && SafePlace(f.scale, f.end)
  }

  /** Placeholders alone never tie. */
  lemma FillToStrict(f: Fill, target: int)
    requires Inv(f) && Strict(f.out)
    ensures Strict(FillTo(f, target).out)
  {
    FillToOk(f, target);
    hide FillTo;
    hide ToNanos;
    hide ToTicks;
    var out := FillTo(f, target).out;
    forall a, b | 0 <= a < b < |out| ensures out[a].dts < out[b].dts {
      assert Follows(out[a], out[b], f.scale);
      if b < |f.out| { assert out[a] == f.out[a] && out[b] == f.out[b]; }
    }
  }

  lemma FillToSteady(f: Fill, target: int)
    requires Inv(f) && Steady(f)
    ensures Steady(FillTo(f, target))
  {
    FillToOk(f, target);
    FillToStrict(f, target);
    SameGrid(f.end, FillTo(f, target).end, f.scale);
    hide FillTo;
    hide Strict;
  }

  /** A placeholder put in before a sample decodes before it. */
  lemma PlaceholderBefore(f: Fill, from: int, dts: int)
    requires f.scale > 0 && (f.end >= -THRESHOLD || f.end * f.scale % SECOND == 0)
    requires (from - f.end) % SECOND == 0
    requires from < ToNanos(dts, f.scale) && ToNanos(dts, f.scale) - f.end > THRESHOLD
    ensures ToTicks(from, f.scale) < dts
  {
    if f.end * f.scale % SECOND == 0 {
      SameGrid(f.end, from, f.scale);
      OnGridBefore(from, dts, f.scale);
    } else {
      if dts <= 0 {
        MulDivMonotone(dts, 0, SECOND, f.scale);
        ZeroConverts(f.scale);
        hide ToNanos;
        assert false;
      }
      NotLater(from, dts, f.scale);
    }
  }

  /** On the grid a shown frame ends there too. */
  lemma UntilOnGrid(scale: int, at: int, d: int)
    requires scale > 0 && (SECOND % scale == 0 || scale % SECOND == 0)
    ensures (ToNanos(at, scale) + ToNanos(d, scale)) * scale % SECOND == 0
    ensures ToNanos(at, scale) * scale % SECOND == 0
  {
    hide ToNanos;
    NanosOnGrid(scale, at);
    NanosOnGrid(scale, d);
    var a, b := ToNanos(at, scale), ToNanos(d, scale);
    assert (a + b) * scale == a * scale + b * scale;
    SumOnGrid(a * scale, b * scale);
  }

  lemma SumOnGrid(x: int, y: int)
    requires x % SECOND == 0 && y % SECOND == 0
    ensures (x + y) % SECOND == 0
  {
  }

  lemma NanosOnGrid(scale: int, v: int)
    requires scale > 0 && (SECOND % scale == 0 || scale % SECOND == 0)
    ensures ToNanos(v, scale) * scale % SECOND == 0
  {
    var n := ToNanos(v, scale);
    if scale % SECOND == 0 {
      var k := scale / SECOND;
      hide ToNanos;
      assert n * scale == (n * k) * SECOND;
      ShiftGrid(0, n * k);
    } else {
      var k := SECOND / scale;
      MulDivExact(v, SECOND, scale);
      hide ToNanos;
      assert v * SECOND == (v * k) * scale;
      QuotOfProduct(v * k, scale);
      assert n * scale == v * SECOND;
      ShiftGrid(0, v);
    }
  }

  lemma QuotOfProduct(q: int, d: int)
    requires d > 0
    ensures Quot(q * d, d) == q
  {
    if q * d >= 0 {
      QuotUnique(q * d, d, q);
    } else {
      NegProduct(q, d);
      QuotUnique(-q * d, d, -q);
    }
  }

  /** From a safe place on, no sample breaks the strict order or leaves the grid. */
  lemma VideoSteady(f: Fill, dts: int, offset: int, duration: int, sync: bool)
    requires Inv(f) && Steady(f)
    ensures Steady(Video(f, dts, offset, duration, sync).0)
  {
    if !(f.started && dts <= f.lastDTS) {
      var t := ToNanos(dts, f.scale);
      var f1 := f;
      if t - f.end > THRESHOLD {
        FillToOk(f, t);
        FillToSteady(f, t);
        f1 := FillTo(f, t);
        if |f1.out| > |f.out| { PlaceholderBefore(f, Last(f1.out).from, dts); }
        else { assert f1.out == f.out; }
      }
      hide ToNanos;
      hide ToTicks;
      hide FillTo;
      hide InOrder;
      hide Strict;
      hide Pass;
      PassSteady(f1, dts, offset, duration, sync);
    }
  }

  lemma PassSteady(f: Fill, dts: int, offset: int, duration: int, sync: bool)
    requires Steady(f) && (f.out != [] ==> Last(f.out).dts < dts)
    ensures Steady(Pass(f, dts, offset, duration, sync).0)
  {
    if f.end < -THRESHOLD { UntilOnGrid(f.scale, dts + offset, duration); }
    hide ToNanos;
    var n := |f.out|;
    forall a | 0 <= a < n ensures f.out[a].dts < dts {
      if a < n - 1 { assert f.out[a].dts < f.out[n - 1].dts; }
    }
  }

  // ----- and where it is not -----

  /** Off the tick grid, a negative instant's tick is shown after it. */
  lemma OffGridRounding(nanos: int, scale: int)
    requires scale > 0 && nanos < 0 && nanos * scale % SECOND != 0
    ensures ToTicks(nanos, scale) <= 0 && nanos < ToNanos(ToTicks(nanos, scale), scale) <= 0
  {
    MulDivOdd(-nanos, scale, SECOND);
    MulDivBounds(-nanos, scale, SECOND);
    NegProduct(nanos, scale);
    var q := -ToTicks(nanos, scale);
    assert q * SECOND <= -nanos * scale;
    assert q * SECOND != -nanos * scale by { OffGrid(nanos * scale, q); }
    MulDivOdd(q, SECOND, scale);
    MulDivBounds(q, SECOND, scale);
    hide ToTicks;
    var n := ToNanos(q, scale);
    assert ToNanos(-q, scale) == -n;
    hide ToNanos;
    ScaleOrder(-nanos, n, scale);
  }

  lemma OffGrid(x: int, q: int)
    requires x % SECOND != 0
    ensures q * SECOND != -x
  {
  }

  /** The second before output time 0 that a fill from end on passes through. */
  function LastSecond(end: int): int {
    end + (-end - 1) / SECOND * SECOND
  }

  lemma LastSecondTick(end: int, scale: int)
    requires scale > 0 && end < -THRESHOLD && end * scale % SECOND != 0
    ensures var x := LastSecond(end);
      && end <= x && x - end >= THRESHOLD && (x - end) % SECOND == 0
      && -scale <= ToTicks(x, scale) <= 0 && x < ToNanos(ToTicks(x, scale), scale)
  {
    var x := LastSecond(end);
    assert -SECOND <= x < 0 && x - end == (-end - 1) / SECOND * SECOND;
    ShiftGrid(0, (-end - 1) / SECOND);
    SameGrid(end, x, scale);
    OffGridRounding(x, scale);
    WholeSecond(scale);
    MulDivMonotone(-SECOND, x, scale, SECOND);
    MulDivOdd(SECOND, scale, SECOND);
    hide ToTicks;
    hide ToNanos;
  }

  /** With the covered end before -5 s and off the grid, a keyframe at the tick of
      the last placeholder before 0 ties with it. */
  lemma TieAhead(f: Fill)
    requires Inv(f) && f.end < -THRESHOLD && f.end * f.scale % SECOND != 0
    requires f.started ==> f.lastDTS < -f.scale
    ensures -f.scale <= ToTicks(LastSecond(f.end), f.scale) <= 0
    ensures !Strict(Video(f, ToTicks(LastSecond(f.end), f.scale), 0, 0, true).0.out)
  {
    hide ToNanos;
    hide ToTicks;
    hide FillTo;
    hide InOrder;
    LastSecondTick(f.end, f.scale);
    var x := LastSecond(f.end);
    var dts := ToTicks(x, f.scale);
    var t := ToNanos(dts, f.scale);
    hide LastSecond;
    FillToOk(f, t);
    FillToEverySecond(f, t, x);
    var g := FillTo(f, t);
    LastTakes(g, x);
    var out := Video(f, dts, 0, 0, true).0.out;
    var n := |g.out|;
    assert out[n].dts == dts && out[n - 1] == Last(g.out);
  }

  lemma LastTakes(f: Fill, x: int)
    requires FillInv(f) && Taken(f.out, x, f.scale)
    ensures f.out != [] && ToTicks(x, f.scale) <= Last(f.out).dts
  {
    hide ToTicks;
    hide ToNanos;
    var n := |f.out|;
    var a :| 0 <= a < n && ToTicks(x, f.scale) <= f.out[a].dts;
    if a < n - 1 { assert Follows(f.out[a], f.out[n - 1], f.scale); }
  }

  lemma FreshInv(track: nat, scale: int, payload: M.Bytes, place: int)
    requires scale > 0
    ensures Inv(At(track, scale, payload, place)) && Strict(At(track, scale, payload, place).out)
  {
  }

  /** A sample spliced in after a fresh fill never breaks the order, whatever it is. */
  ghost predicate FreshFillStrict(scale: int, place: int)
    requires scale > 0
  {
    forall dts, offset, duration, sync :: Strict(Video(At(0, scale, [], place), dts, offset, duration, sync).0.out)
  }

  /** Before output time -5 s and off the tick grid, some first sample lands on
      the tick of the placeholder just put in before it. */
  lemma BreaksBefore(scale: int, place: int)
    requires scale > 0 && place < -THRESHOLD && place * scale % SECOND != 0
    ensures !FreshFillStrict(scale, place)
  {
    FreshInv(0, scale, [], place);
    TieAhead(At(0, scale, [], place));
    hide Video;
    hide Strict;
  }

  /** A segment's first sample is safe, whatever it is, exactly when the segment is
      placed no earlier than -5 s or on a tick. */
  lemma FreshFillStrictIff(scale: int, place: int)
    requires scale > 0
    ensures FreshFillStrict(scale, place) <==> place >= -THRESHOLD || place * scale % SECOND == 0
  {
    if place < -THRESHOLD && place * scale % SECOND != 0 {
      BreaksBefore(scale, place);
    } else {
      forall dts, offset, duration, sync
        ensures Strict(Video(At(0, scale, [], place), dts, offset, duration, sync).0.out)
      {
        FirstSafe(scale, place, dts, offset, duration, sync);
      }
    }
  }

  lemma FirstSafe(scale: int, place: int, dts: int, offset: int, duration: int, sync: bool)
    requires scale > 0 && (place >= -THRESHOLD || place * scale % SECOND == 0)
    ensures Strict(Video(At(0, scale, [], place), dts, offset, duration, sync).0.out)
  {
    var f, t := At(0, scale, [], place), ToNanos(dts, scale);
    FreshInv(0, scale, [], place);
    FillToOk(f, t);
    FillToStrict(f, t);
    var f1 := FillTo(f, t);
    if t - place > THRESHOLD && f1.out != [] { PlaceholderBefore(f, Last(f1.out).from, dts); }
    hide FillTo;
    hide ToNanos;
    hide ToTicks;
    assert forall a | 0 <= a < |f1.out| - 1 :: f1.out[a].dts < Last(f1.out).dts;
  }

  // ----- every sequence of samples -----

  datatype VideoSample = VideoSample(dts: int, offset: int, duration: int, sync: bool)

  function Splice(f: Fill, samples: seq<VideoSample>): (f1: Fill)
    requires f.scale > 0
    ensures f1.scale == f.scale
  {
    if samples == [] then f
    else
      var g, s := Splice(f, samples[..|samples| - 1]), Last(samples);
      VideoKeepsScale(g, s.dts, s.offset, s.duration, s.sync);
      Video(g, s.dts, s.offset, s.duration, s.sync).0
  }

  /** Whatever samples come, no two shots share a tick. */
  ghost predicate EverySpliceStrict(track: nat, scale: int, payload: M.Bytes, place: int)
    requires scale > 0
  {
    forall samples :: Strict(Splice(At(track, scale, payload, place), samples).out)
  }

  lemma {:induction false} SpliceOk(f: Fill, samples: seq<VideoSample>)
    requires Inv(f)
    ensures Inv(Splice(f, samples)) && (Steady(f) ==> Steady(Splice(f, samples)))
  {
    assert f.scale > 0;
    hide Inv;
    hide Steady;
    hide Video;
    if samples != [] {
      SpliceOk(f, samples[..|samples| - 1]);
      var g, s := Splice(f, samples[..|samples| - 1]), Last(samples);
      VideoOk(g, s.dts, s.offset, s.duration, s.sync);
      if Steady(f) { VideoSteady(g, s.dts, s.offset, s.duration, s.sync); }
    }
  }

  /** Samples, of no length and without offset, that break the order after a fill
      placed at an unsafe time: one on the tick of a placeholder; before it, when
      that place is on the grid, one that leaves the grid. */
  function Breaking(scale: int, place: int): seq<VideoSample>
    requires scale > 0
  {
    if place * scale % SECOND != 0 then [VideoSample(ToTicks(LastSecond(place), scale), 0, 0, true)]
    else
      var dts := ToTicks(place, scale) + 1;
      [VideoSample(dts, 0, 0, true), VideoSample(ToTicks(LastSecond(ToNanos(dts, scale)), scale), 0, 0, true)]
  }

  /** One tick after a place on the grid, a clock with no whole number of
      nanoseconds in a tick, nor of ticks in a nanosecond, is off it. */
  lemma LeavesGrid(scale: int, place: int)
    requires scale > 0 && place < -THRESHOLD && place * scale % SECOND == 0
    requires SECOND % scale != 0 && scale % SECOND != 0
    ensures var dts := ToTicks(place, scale) + 1;
      && dts <= -5 * scale
      && place < ToNanos(dts, scale) < -THRESHOLD && ToNanos(dts, scale) * scale % SECOND != 0
      && ToNanos(dts, scale) <= place + SECOND
  {
    var q := ToTicks(place, scale);
    MulDivExact(place, scale, SECOND);
    QuotExact(place * scale);
    assert q * SECOND == place * scale;
    ScaleOrder(place, -THRESHOLD, scale);
    hide ToTicks;
    var dts := q + 1;
    assert dts <= -5 * scale by { TickBelow(q, place, scale); }
    MulDivOdd(-dts, SECOND, scale);
    MulDivBounds(-dts, SECOND, scale);
    var e := ToNanos(dts, scale);
    hide ToNanos;
    NegProduct(e, scale);
    var r := e * scale - dts * SECOND;
    assert 0 <= r < scale;
    assert dts * SECOND == place * scale + SECOND;
    assert (e - place) * scale == SECOND + r by { assert (e - place) * scale == e * scale - place * scale; }
    StepOffGrid(e - place, scale, r);
    ShiftGrid(r, dts);
    assert e * scale == r + dts * SECOND;
    SmallStep(e - place, scale, r);
    assert e < -THRESHOLD by { BelowEnd(e, dts, scale, r); }
  }

  lemma TickBelow(q: int, place: int, scale: int)
    requires scale > 0 && q * SECOND == place * scale && place < -THRESHOLD
    ensures q + 1 <= -5 * scale
  {
    ScaleOrder(place, -THRESHOLD, scale);
    assert q * SECOND < -5 * scale * SECOND;
  }

  lemma MultipleRem(u: int, d: int)
    requires d > 0
    ensures u * d % d == 0
  {
    QuotUnique(u * d, d, u);
  }

  /** u nanoseconds at the given rate are one tick and the rest r of another. */
  lemma StepOffGrid(u: int, scale: int, r: int)
    requires scale > 0 && u * scale == SECOND + r && 0 <= r < scale
    requires SECOND % scale != 0 && scale % SECOND != 0
    ensures r % SECOND != 0
  {
    MultipleRem(u, scale);
    assert r != 0;
    if r >= SECOND { OneNano(u, scale, r); }
  }

  lemma OneNano(u: int, scale: int, r: int)
    requires scale > 0 && u * scale == SECOND + r && SECOND <= r < scale && scale % SECOND != 0
    ensures r % SECOND != 0
  {
    ScaleOrder(2, u, scale);
    ScaleOrder(u, 0, scale);
    assert u == 1;
    ShiftGrid(r, 1);
  }

  lemma SmallStep(u: int, scale: int, r: int)
    requires scale > 0 && u * scale == SECOND + r && 0 <= r < scale
    ensures 1 <= u <= SECOND
  {
    ScaleOrder(u, 0, scale);
    ScaleOrder(SECOND + 1, u, scale);
    assert (SECOND + 1) * scale == SECOND * scale + scale;
  }

  lemma BelowEnd(e: int, dts: int, scale: int, r: int)
    requires scale > 0 && dts <= -5 * scale && 0 <= r < scale && e * scale == r + dts * SECOND && r % SECOND != 0
    ensures e < -THRESHOLD
  {
    ScaleOrder(-THRESHOLD + 1, e, scale);
    assert (-THRESHOLD + 1) * scale == -THRESHOLD * scale + scale;
    ShiftGrid(0, -5 * scale - dts);
  }

  lemma BreakingBreaks(track: nat, scale: int, payload: M.Bytes, place: int)
    requires scale > 0 && !SafePlace(scale, place)
    ensures !Strict(Splice(At(track, scale, payload, place), Breaking(scale, place)).out)
    ensures forall k | 0 <= k < |Breaking(scale, place)| :: ToTicks(place, scale) <= Breaking(scale, place)[k].dts <= 0
  {
    var f, b := At(track, scale, payload, place), Breaking(scale, place);
    hide Video;
    hide ToTicks;
    hide ToNanos;
    hide Strict;
    FreshInv(track, scale, payload, place);
    if place * scale % SECOND != 0 {
      TieAhead(f);
      LastSecondTick(place, scale);
      MulDivMonotone(place, LastSecond(place), scale, SECOND);
      SpliceOne(f, b[0]);
    } else {
      BreaksSecond(f);
      SpliceTwo(f, b[0], b[1]);
    }
  }

  lemma SpliceOne(f: Fill, s: VideoSample)
    requires f.scale > 0
    ensures Splice(f, [s]) == Video(f, s.dts, s.offset, s.duration, s.sync).0
  {
    hide Video;
    assert [s][..0] == [];
  }

  lemma SpliceTwo(f: Fill, s: VideoSample, t: VideoSample)
    requires f.scale > 0
    ensures var g := Video(f, s.dts, s.offset, s.duration, s.sync).0;
      g.scale > 0 && Splice(f, [s, t]) == Video(g, t.dts, t.offset, t.duration, t.sync).0
  {
    hide Video;
    SpliceOne(f, s);
    assert [s, t][..1] == [s];
  }

  lemma BreaksSecond(f: Fill)
    requires f.scale > 0 && f == At(f.track, f.scale, f.payload, f.end)
    requires !SafePlace(f.scale, f.end) && f.end * f.scale % SECOND == 0
    ensures var dts := ToTicks(f.end, f.scale) + 1;
      var g := Video(f, dts, 0, 0, true).0;
      var dts1 := ToTicks(LastSecond(ToNanos(dts, f.scale)), f.scale);
      g.scale == f.scale && dts <= 0 && dts <= dts1 <= 0 && !Strict(Video(g, dts1, 0, 0, true).0.out)
  {
    LeavesGrid(f.scale, f.end);
    ZeroConverts(f.scale);
    var dts := ToTicks(f.end, f.scale) + 1;
    FreshInv(f.track, f.scale, f.payload, f.end);
    VideoOk(f, dts, 0, 0, true);
    hide ToTicks;
    hide ToNanos;
    hide FillTo;
    hide Inv;
    hide Strict;
    var g := Video(f, dts, 0, 0, true).0;
    assert g.end == ToNanos(dts, f.scale) && g.started && g.lastDTS == dts;
    TieAhead(g);
  }

  /** Whatever samples follow, decode times stay strictly increasing exactly when
      the segment is placed at or after -5 s, or on a tick of a clock whose ticks
      are whole nanoseconds (or whose nanoseconds are whole ticks). */
  lemma SpliceStrictIff(track: nat, scale: int, payload: M.Bytes, place: int)
    requires scale > 0
    ensures EverySpliceStrict(track, scale, payload, place) <==> SafePlace(scale, place)
  {
    var f := At(track, scale, payload, place);
    if SafePlace(scale, place) {
      FreshInv(track, scale, payload, place);
      forall samples ensures Strict(Splice(f, samples).out) { SpliceOk(f, samples); }
    } else {
      BreakingBreaks(track, scale, payload, place);
    }
    hide Splice;
    hide Strict;
  }

  /** Placed at -6 s, which is on the 90 kHz grid, the keyframe at tick -89998
      gets the tick of the placeholder put in for -1 s plus 11112 ns. */
  lemma OnGridBreaks()
    ensures var f := Video(At(0, 90000, [], -6 * SECOND), -539999, 0, 0, true).0;
      !Strict(Video(f, -89998, 0, 0, true).0.out)
  {
    assert ToTicks(-6 * SECOND, 90000) == -540000;
    assert ToNanos(-539999, 90000) == -5_999_988_888;
    assert ToTicks(-999_988_888, 90000) == -89998;
    assert LastSecond(-5_999_988_888) == -999_988_888;
    hide ToTicks;
    hide ToNanos;
    hide Video;
    hide Strict;
    BreaksSecond(At(0, 90000, [], -6 * SECOND));
  }
}

/** videoFill in its own form. */
module Filler {
  import opened Wrappers
  import opened Clock
  import opened FillSpec
  import M = MuxerSpec

  class VideoFill {
    const track: nat
    const timeScale: int
    const payload: M.Bytes
    var end: int
    var started: bool
    var lastDTS: int
    var needKey: bool
    var otherEnd: int
    var out: seq<Shot>

    constructor (track: nat, timeScale: int, payload: M.Bytes, start: int)
      ensures State() == At(track, timeScale, payload, start)
    {
      this.track, this.timeScale, this.payload, end := track, timeScale, payload, start;
      started, lastDTS, needKey, otherEnd, out := false, 0, false, 0, [];
    }

    function State(): Fill
      reads this
    {
      Fill(track, timeScale, payload, end, started, lastDTS, needKey, otherEnd, out)
    }

    /** One placeholder a second from the covered end up to target. */
    method FillUpTo(target: int)
      modifies this
      ensures State() == FillTo(old(State()), target)
    {
      hide ToTicks;
      ghost var f := State();
      var t := end;
      while t < target
        invariant PutFrom(State(), t, target) == PutFrom(f, f.end, target) && State().end == f.end
        decreases target - t
      {
        var dts := ToTicks(t, timeScale);
        if !(started && dts <= lastDTS) {
          started, lastDTS, needKey := true, dts, true;
          out := out + [Placeholder(dts, t)];
        }
        t := t + SECOND;
      }
      end := Max(end, t);
    }

    method Accept(dts: int, offset: int, duration: int, sync: bool) returns (ok: bool)
      requires timeScale > 0
      modifies this
      ensures (State(), ok) == Video(old(State()), dts, offset, duration, sync)
    {
      hide FillTo;
      hide ToNanos;
      if started && dts <= lastDTS { return false; }
      var t := ToNanos(dts, timeScale);
      if t - end > THRESHOLD { FillUpTo(t); }
      if needKey {
        if !sync { return false; }
        needKey := false;
      }
      var d := ToNanos(duration, timeScale);
      if d > THRESHOLD { d := 0; }
      var until := ToNanos(dts + offset, timeScale) + d;
      end := Max(end, until);
      started, lastDTS := true, dts;
      out := out + [Real(dts, sync, until)];
      ok := true;
    }

    method NoteOther(end: int)
      modifies this
      ensures State() == Other(old(State()), end)
    {
      otherEnd := Max(otherEnd, end);
    }

    method Catch()
      modifies this
      ensures State() == CatchUp(old(State()))
    {
      if otherEnd - end > 2 * THRESHOLD { FillUpTo(otherEnd - THRESHOLD); }
    }

    method Close(limit: int) returns (final: Option<int>)
      modifies this
      ensures (State(), final) == Finish(old(State()), limit)
    {
      var target := Min(otherEnd, limit);
      final := None;
      if target - end > THRESHOLD {
        FillUpTo(target);
        final := Some(target);
      }
    }
  }
}
