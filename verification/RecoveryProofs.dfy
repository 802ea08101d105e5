/** The recovery walk agrees with what the recorder tracked while writing. */
module RecoveryProofs {
  import opened Wrappers
  import opened Clock
  import R = RecorderSpec
  import P = RecorderProofs
  import opened Recovery

  /** The init's tracks: ids count from 1, the video comes first. */
  function InitTracks(rates: seq<int>): seq<InitTrack>
    requires P.RatesOk(rates)
  {
    seq(|rates|, i requires 0 <= i < |rates| => InitTrack(i + 1, rates[i], i == 0))
  }

  function Entries(samples: seq<R.Sample>): seq<Entry> {
    seq(|samples|, k requires 0 <= k < |samples| => Entry(samples[k].duration, samples[k].cto))
  }

  function FragmentOf(i: nat, pt: R.PartTrack): Fragment {
    Fragment(i + 1, pt.base, Entries(pt.samples))
  }

  /** frags holds one traf per track of each part, in any order. */
  ghost predicate FileOf(frags: seq<Fragment>, parts: seq<R.Part>) {
    && (forall f | f in frags :: exists p, i | p in parts && i in p.tracks :: f == FragmentOf(i, p.tracks[i]))
    && (forall p, i | p in parts && i in p.tracks :: FragmentOf(i, p.tracks[i]) in frags)
  }

  /** Each sample decodes where the one before it ends. */
  ghost predicate Contiguous(samples: seq<R.Sample>) {
    forall k | 0 < k < |samples| :: samples[k].dts == samples[k - 1].dts + samples[k - 1].duration
  }

  /** What the comparison assumes of a part: non-negative times, and no hole inside
      its audio. */
  ghost predicate Plain(p: R.Part) {
    forall i | i in p.tracks ::
      && (i != 0 ==> Contiguous(p.tracks[i].samples))
      && forall s | s in p.tracks[i].samples :: 0 <= s.dts && 0 <= s.cto
  }

  /** The video of a part has no hole, being part of one unbroken run. */
  lemma {:induction false} VideoContiguous(parts: seq<R.Part>, p: R.Part)
    requires Contiguous(P.VideoOf(parts)) && p in parts
    ensures Contiguous(P.PartVideo(p))
  {
    var init, v := parts[..|parts| - 1], P.VideoOf(parts);
    hide P.PartVideo;
    var head, tail := P.VideoOf(init), P.PartVideo(Last(parts));
    assert v == head + tail;
    hide P.VideoOf;
    assert Contiguous(head) by {
      forall k | 0 < k < |head| ensures head[k].dts == head[k - 1].dts + head[k - 1].duration {
        assert v[k] == head[k] && v[k - 1] == head[k - 1];
      }
    }
    assert Contiguous(tail) by {
      forall k | 0 < k < |tail| ensures tail[k].dts == tail[k - 1].dts + tail[k - 1].duration {
        assert v[|head| + k] == tail[k] && v[|head| + k - 1] == tail[k - 1];
      }
    }
    if p in init { VideoContiguous(init, p); } else { assert p == Last(parts); }
  }

  lemma UnbrokenContiguous(v: seq<R.Sample>)
    requires P.Unbroken(v)
    ensures Contiguous(v)
  {
    forall k | 0 < k < |v| ensures v[k].dts == v[k - 1].dts + v[k - 1].duration { P.UnbrokenSamples(v, k); }
  }

  /** Measured x against tracked y: at most 2 ns late, at most one tick of the
      slowest clock and 2 ns early. */
  predicate Close(x: int, y: int, slow: int)
    requires slow > 0
  {
    x - 2 <= y <= x + SECOND / slow + 2
  }

  // ----- one instant -----

  /** The truncations between an instant and its place in the file, as
      inequalities: a is the fragment's first instant, base its stored base time,
      x the instant measured, v the one tracked. */
  lemma NearProducts(dts: int, m: int, v: int, rate: int, start: int, a: int, base: int, x: int)
    requires a * rate <= dts * SECOND < a * rate + rate
    requires base * SECOND <= (a - start) * rate < base * SECOND + SECOND
    requires x * rate <= (base + m) * SECOND < x * rate + rate
    requires v * rate <= (dts + m) * SECOND < v * rate + 3 * rate
    ensures (x + start - v) * rate < 3 * rate
    ensures (v - start - x) * rate < SECOND + 2 * rate
  {
    assert (a - start) * rate == a * rate - start * rate;
    assert (x + start - v) * rate == x * rate + start * rate - v * rate;
    assert (v - start - x) * rate == v * rate - start * rate - x * rate;
  }

  /** v is a tracked instant off the exact (dts + m) ticks by less than 3 ns; the
      file stores its fragment's base in whole ticks. */
  lemma Near(dts: int, m: int, v: int, rate: int, start: int, slow: int)
    requires 0 < slow <= rate && 0 <= dts && 0 <= m && start <= ToNanos(dts, rate)
    requires v * rate <= (dts + m) * SECOND < v * rate + 3 * rate
    ensures Close(ToNanos(ToTicks(ToNanos(dts, rate) - start, rate) + m, rate), v - start, slow)
  {
    var a := ToNanos(dts, rate);
    MulDivBounds(dts, SECOND, rate);
    var base := ToTicks(a - start, rate);
    MulDivBounds(a - start, rate, SECOND);
    var x := ToNanos(base + m, rate);
    MulDivBounds(base + m, SECOND, rate);
    hide ToNanos;
    hide ToTicks;
    NearProducts(dts, m, v, rate, start, a, base, x);
    ScaleOrder(3, x + start - v, rate);
    BelowTick(v - start - x, rate, slow);
  }

  lemma BelowTick(d: int, rate: int, slow: int)
    requires 0 < slow <= rate && d * rate < SECOND + 2 * rate
    ensures d <= SECOND / slow + 2
  {
    if d > 2 {
      var e := d - 2;
      assert e * rate == d * rate - 2 * rate;
      ScaleOrder(slow, rate, e);
      assert e * slow < SECOND;
      DivMonotone(e * slow, SECOND, slow);
      QuotUnique(e * slow, slow, e);
    } else {
      DivMonotone(0, SECOND, slow);
    }
  }

  /** Truncating two or three summands apart loses less than 3 ns. */
  lemma SumNear(a: int, b: int, c: int, rate: int)
    requires 0 <= a && 0 <= b && 0 <= c && rate > 0
    ensures var v := ToNanos(a, rate) + ToNanos(b, rate) + ToNanos(c, rate);
      v * rate <= (a + b + c) * SECOND < v * rate + 3 * rate
  {
    hide MulDiv;
    MulDivBounds(a, SECOND, rate);
    MulDivBounds(b, SECOND, rate);
    MulDivBounds(c, SECOND, rate);
    ProductOfSum(ToNanos(a, rate), ToNanos(b, rate), ToNanos(c, rate), rate);
  }

  lemma ProductOfSum(x: int, y: int, z: int, d: int)
    ensures (x + y + z) * d == x * d + y * d + z * d
  {
  }

  lemma ZeroNanos(rate: int)
    requires rate > 0
    ensures ToNanos(0, rate) == 0
  {
  }

  // ----- one fragment -----

  lemma {:induction false} Positions(pt: R.PartTrack, f: Fragment, k: nat)
    requires Contiguous(pt.samples) && f.base == pt.base && f.entries == Entries(pt.samples) && k < |pt.samples|
    ensures Position(f, k) == pt.base + pt.samples[k].dts - pt.samples[0].dts
    ensures Position(f, k + 1) == pt.base + pt.samples[k].dts + pt.samples[k].duration - pt.samples[0].dts
  {
    if k > 0 { Positions(pt, f, k - 1); }
  }

  lemma {:induction false} Increasing(samples: seq<R.Sample>, k: nat)
    requires Contiguous(samples) && k < |samples|
    ensures samples[0].dts <= samples[k].dts
    ensures samples[k].dts + samples[k].duration <= Last(samples).dts + Last(samples).duration
    decreases |samples|
  {
    if |samples| > 1 {
      var init := samples[..|samples| - 1];
      assert Contiguous(init);
      if k < |init| { Increasing(init, k); } else { Increasing(init, |init| - 1); }
    }
  }

  /** A fragment as the recorder placed it. */
  ghost predicate Good(pt: R.PartTrack, start: int, rate: int) {
    && P.TrackPlaced(pt, start, rate) && Contiguous(pt.samples)
    && forall s | s in pt.samples :: 0 <= s.dts && 0 <= s.cto
  }

  lemma EntryNear(i: nat, pt: R.PartTrack, k: nat, start: int, rate: int, slow: int)
    requires Good(pt, start, rate) && k < |pt.samples| && 0 < slow <= rate
    ensures var f, s := FragmentOf(i, pt), pt.samples[k];
      && Close(TicksToNanos(Position(f, k + 1), rate), P.EndOf(s, rate) - start, slow)
      && Close(TicksToNanos(Position(f, k) + s.cto, rate), P.ShownAt(s, rate) - start, slow)
      && Close(TicksToNanos(Position(f, k) + s.cto + s.duration, rate), P.ShownUntil(s, rate) - start, slow)
  {
    hide ToNanos;
    hide ToTicks;
    hide Close;
    var f, s, d := FragmentOf(i, pt), pt.samples[k], pt.samples[0].dts;
    assert s in pt.samples && pt.samples[0] in pt.samples;
    Positions(pt, f, k);
    Increasing(pt.samples, k);
    ZeroNanos(rate);
    SumNear(s.dts, s.duration, 0, rate);
    var e := s.dts - d;
    Near(d, e + s.duration, P.EndOf(s, rate), rate, start, slow);
    SumNear(s.dts, s.cto, 0, rate);
    Near(d, e + s.cto, P.ShownAt(s, rate), rate, start, slow);
    SumNear(s.dts, s.cto, s.duration, rate);
    Near(d, e + s.cto + s.duration, P.ShownUntil(s, rate), rate, start, slow);
  }

  // ----- the whole file -----

  lemma {:induction false} InitTables(rates: seq<int>, n: nat, i: nat)
    requires P.RatesOk(rates) && i < |rates| && n <= |rates|
    ensures Scale(InitTracks(rates)[..n], i + 1) == if i < n then rates[i] else 0
    ensures VideoId(InitTracks(rates)[..n]) == if n > 0 then 1 else 0
  {
    var tracks := InitTracks(rates);
    if n > 0 {
      InitTables(rates, n - 1, i);
      assert tracks[..n][..n - 1] == tracks[..n - 1];
    }
  }

  lemma TrackTables(rates: seq<int>, i: nat)
    requires P.RatesOk(rates) && i < |rates|
    ensures Scale(InitTracks(rates), i + 1) == rates[i] && VideoId(InitTracks(rates)) == 1
  {
    InitTables(rates, |rates|, i);
    assert InitTracks(rates)[..|rates|] == InitTracks(rates);
  }

  /** A complete file: the fragments of a segment of a reachable recorder. */
  ghost predicate Complete(seg: R.Segment, frags: seq<Fragment>) {
    && P.SegOk(seg) && FileOf(frags, P.AllParts(seg))
    && forall p | p in P.AllParts(seg) :: Plain(p)
  }

  /** With slow no faster than any of its clocks. */
  ghost predicate Setting(seg: R.Segment, frags: seq<Fragment>, slow: int) {
    && P.RatesOk(seg.rates) && Complete(seg, frags)
    && 0 < slow && (forall j | 0 <= j < |seg.rates| :: slow <= seg.rates[j])
    && AllUnstretched(InitTracks(seg.rates), frags)
  }

  lemma PartGood(seg: R.Segment, frags: seq<Fragment>, p: R.Part, i: nat)
    requires Complete(seg, frags) && p in P.AllParts(seg) && i in p.tracks
    ensures i < |seg.rates| && Good(p.tracks[i], seg.startDTS, seg.rates[i])
    ensures FragmentOf(i, p.tracks[i]) in frags
  {
    hide ToNanos;
    hide ToTicks;
    hide P.Tracked;
    hide P.Unbroken;
    hide P.VideoOf;
    assert P.Placed(p, seg.startDTS, seg.rates);
    assert Plain(p);
    if i == 0 {
      UnbrokenContiguous(P.Media(seg));
      VideoContiguous(P.AllParts(seg), p);
    }
    hide Contiguous;
  }

  lemma SourceOf(seg: R.Segment, frags: seq<Fragment>, f: Fragment) returns (p: R.Part, i: nat)
    requires Complete(seg, frags) && f in frags
    ensures p in P.AllParts(seg) && i in p.tracks && f == FragmentOf(i, p.tracks[i])
  {
    p, i :| p in P.AllParts(seg) && i in p.tracks && f == FragmentOf(i, p.tracks[i]);
  }

  lemma FragmentUnstretched(tracks: seq<InitTrack>, i: nat, pt: R.PartTrack, start: int, rate: int)
    requires Good(pt, start, rate) && Scale(tracks, i + 1) == rate
    ensures Unstretched(tracks, FragmentOf(i, pt))
  {
    hide ToNanos;
    hide ToTicks;
    var f := FragmentOf(i, pt);
    forall k | 0 <= k < |f.entries| ensures f.entries[k].duration <= STRETCHED_SECONDS * rate {
      assert f.entries[k].duration == pt.samples[k].duration;
    }
  }

  /** The recorder never writes a sample the walk takes for a stretched one. */
  lemma NothingStretched(seg: R.Segment, frags: seq<Fragment>)
    requires Complete(seg, frags)
    ensures P.RatesOk(seg.rates) && AllUnstretched(InitTracks(seg.rates), frags)
  {
    forall f | f in frags ensures Unstretched(InitTracks(seg.rates), f) {
      var p, i := SourceOf(seg, frags, f);
      PartGood(seg, frags, p, i);
      TrackTables(seg.rates, i);
      hide *;
      FragmentUnstretched(InitTracks(seg.rates), i, p.tracks[i], seg.startDTS, seg.rates[i]);
    }
  }

  lemma {:induction false} EndsHave(tracks: seq<InitTrack>, frags: seq<Fragment>, f: Fragment)
    requires AllUnstretched(tracks, frags) && f in frags
    ensures 0 < Scale(tracks, f.id) && EndOf(Scale(tracks, f.id), f) in Ends(tracks, frags)
  {
    hide TicksToNanos;
    assert Unstretched(tracks, f);
    if f != Last(frags) { EndsHave(tracks, frags[..|frags| - 1], f); }
  }

  lemma {:induction false} EndsFrom(tracks: seq<InitTrack>, frags: seq<Fragment>, x: int) returns (f: Fragment)
    requires AllUnstretched(tracks, frags) && x in Ends(tracks, frags)
    ensures f in frags && 0 < Scale(tracks, f.id) && x == EndOf(Scale(tracks, f.id), f)
  {
    hide TicksToNanos;
    f := Last(frags);
    assert Unstretched(tracks, f);
    if x != EndOf(Scale(tracks, f.id), f) { f := EndsFrom(tracks, frags[..|frags| - 1], x); }
  }

  lemma {:induction false} ShownLength(scale: nat, f: Fragment, n: nat)
    requires 0 < scale && n <= |f.entries|
    ensures |Shown(scale, f, n)| == |Until(scale, f, n)| == n
  {
    hide TicksToNanos;
    hide Position;
    if n > 0 { ShownLength(scale, f, n - 1); }
  }

  lemma {:induction false} ShownAre(scale: nat, f: Fragment, n: nat, k: nat)
    requires 0 < scale && k < n <= |f.entries|
    ensures |Shown(scale, f, n)| == |Until(scale, f, n)| == n
    ensures Shown(scale, f, n)[k] == TicksToNanos(Position(f, k) + f.entries[k].cto, scale)
    ensures Until(scale, f, n)[k] == TicksToNanos(Position(f, k) + f.entries[k].cto + f.entries[k].duration, scale)
  {
    hide TicksToNanos;
    hide Position;
    ShownLength(scale, f, n);
    ShownLength(scale, f, n - 1);
    if k < n - 1 { ShownAre(scale, f, n - 1, k); }
  }

  lemma {:induction false} VideoHas(tracks: seq<InitTrack>, frags: seq<Fragment>, f: Fragment, k: nat)
    requires AllUnstretched(tracks, frags) && f in frags && f.id == VideoId(tracks) && k < |f.entries|
    ensures 0 < Scale(tracks, f.id)
    ensures TicksToNanos(Position(f, k) + f.entries[k].cto, Scale(tracks, f.id)) in VideoShown(tracks, frags)
    ensures var e := f.entries[k];
      TicksToNanos(Position(f, k) + e.cto + e.duration, Scale(tracks, f.id)) in VideoUntil(tracks, frags)
  {
    hide TicksToNanos;
    assert Unstretched(tracks, f);
    if f == Last(frags) {
      ShownAre(Scale(tracks, f.id), f, |f.entries|, k);
      assert Shown(Scale(tracks, f.id), f, |f.entries|)[k] in Shown(Scale(tracks, f.id), f, |f.entries|);
      assert Until(Scale(tracks, f.id), f, |f.entries|)[k] in Until(Scale(tracks, f.id), f, |f.entries|);
    } else {
      VideoHas(tracks, frags[..|frags| - 1], f, k);
    }
  }

  /** Where an instant of the video comes from. */
  lemma {:induction false} VideoFrom(tracks: seq<InitTrack>, frags: seq<Fragment>, x: int, until: bool)
    returns (f: Fragment, k: nat)
    requires AllUnstretched(tracks, frags)
    requires if until then x in VideoUntil(tracks, frags) else x in VideoShown(tracks, frags)
    ensures f in frags && f.id == VideoId(tracks) && k < |f.entries| && 0 < Scale(tracks, f.id)
    ensures x == TicksToNanos(Position(f, k) + f.entries[k].cto + (if until then f.entries[k].duration else 0),
        Scale(tracks, f.id))
  {
    hide TicksToNanos;
    f := Last(frags);
    assert Unstretched(tracks, f);
    ShownLength(Scale(tracks, f.id), f, |f.entries|);
    var here := if until then Until(Scale(tracks, f.id), f, |f.entries|)
        else Shown(Scale(tracks, f.id), f, |f.entries|);
    if f.id == VideoId(tracks) && x in here {
      k :| 0 <= k < |here| && here[k] == x;
      ShownAre(Scale(tracks, f.id), f, |f.entries|, k);
    } else {
      f, k := VideoFrom(tracks, frags[..|frags| - 1], x, until);
    }
  }

  /** Every sample in the parts, with the fragment and entry that hold it. */
  lemma PlaceOf(seg: R.Segment, frags: seq<Fragment>, i: nat, s: R.Sample) returns (p: R.Part, k: nat)
    requires Complete(seg, frags) && P.Has(P.AllParts(seg), i, s)
    ensures p in P.AllParts(seg) && i in p.tracks && k < |p.tracks[i].samples| && p.tracks[i].samples[k] == s
  {
    p :| p in P.AllParts(seg) && P.InPart(p, i, s);
    k :| 0 <= k < |p.tracks[i].samples| && p.tracks[i].samples[k] == s;
  }

  lemma HasPart(parts: seq<R.Part>, p: R.Part, i: nat, s: R.Sample)
    requires p in parts && i in p.tracks && s in p.tracks[i].samples
    ensures P.Has(parts, i, s)
  {
    assert P.InPart(p, i, s);
  }

  lemma TrackedFacts(seg: R.Segment, frags: seq<Fragment>)
    requires Complete(seg, frags)
    ensures P.RatesOk(seg.rates) && P.EndTracked(P.AllParts(seg), seg.rates, seg.startDTS, seg.endDTS)
    ensures seg.hasVideo ==>
      0 < |seg.rates| && P.VideoTracked(P.AllParts(seg), seg.rates[0], seg.videoStart, seg.videoEnd)
    ensures !seg.hasVideo ==> forall s :: !P.Has(P.AllParts(seg), 0, s)
  {
    hide P.EndTracked;
    hide P.VideoTracked;
    hide P.Playable;
    hide P.Media;
    hide P.Has;
  }

  lemma EarlierTicks(a: int, b: int, rate: int)
    requires a <= b && rate > 0
    ensures TicksToNanos(a, rate) <= TicksToNanos(b, rate)
  {
    MulDivMonotone(Max(a, 0), Max(b, 0), SECOND, rate);
    hide MulDiv;
  }

  lemma LaterEntries(i: nat, pt: R.PartTrack, k: nat, start: int, rate: int)
    requires Good(pt, start, rate) && k < |pt.samples|
    ensures |FragmentOf(i, pt).entries| == |pt.samples|
    ensures TicksToNanos(Position(FragmentOf(i, pt), k + 1), rate) <= EndOf(rate, FragmentOf(i, pt))
  {
    hide ToTicks;
    hide ToNanos;
    hide TicksToNanos;
    hide Contiguous;
    hide Position;
    hide Entries;
    hide P.TrackPlaced;
    var f, n := FragmentOf(i, pt), |pt.samples|;
    SameEntries(i, pt, start, rate);
    hide Good;
    Positions(pt, f, k);
    Positions(pt, f, n - 1);
    Increasing(pt.samples, k);
    assert Last(pt.samples) == pt.samples[n - 1];
    EarlierTicks(Position(f, k + 1), Position(f, n), rate);
  }

  /** The end of any sample is measured, up to rounding. */
  lemma EndMeasured(seg: R.Segment, frags: seq<Fragment>, i: nat, s: R.Sample, slow: int, x: int)
    requires Setting(seg, frags, slow) && P.Has(P.AllParts(seg), i, s)
    requires IsMax(x, Ends(InitTracks(seg.rates), frags))
    ensures i < |seg.rates| && P.EndOf(s, seg.rates[i]) - seg.startDTS <= x + SECOND / slow + 2
  {
    hide Complete;
    hide Good;
    hide AllUnstretched;
    hide ToNanos;
    hide ToTicks;
    hide P.Has;
    hide P.EndOf;
    hide Ends;
    TrackedFacts(seg, frags);
    hide P.EndTracked;
    hide P.VideoTracked;
    var p, k := PlaceOf(seg, frags, i, s);
    PartGood(seg, frags, p, i);
    TrackTables(seg.rates, i);
    var pt, rate := p.tracks[i], seg.rates[i];
    var f := FragmentOf(i, pt);
    EndsHave(InitTracks(seg.rates), frags, f);
    hide InitTracks;
    EntryNear(i, pt, k, seg.startDTS, rate, slow);
    LaterEntries(i, pt, k, seg.startDTS, rate);
    hide FragmentOf;
    hide Position;
    hide TicksToNanos;
  }

  /** The last sample of the fragment that ends at x. */
  lemma EndSource(seg: R.Segment, frags: seq<Fragment>, slow: int, x: int) returns (i: nat, s: R.Sample)
    requires Setting(seg, frags, slow) && x in Ends(InitTracks(seg.rates), frags)
    ensures i < |seg.rates| && 0 < seg.rates[i] && P.Has(P.AllParts(seg), i, s)
    ensures Close(x, P.EndOf(s, seg.rates[i]) - seg.startDTS, slow)
  {
    hide Close;
    hide Complete;
    hide Good;
    hide AllUnstretched;
    hide ToNanos;
    hide ToTicks;
    hide Position;
    hide P.Has;
    hide P.EndOf;
    hide Ends;
    hide TicksToNanos;
    var f := EndsFrom(InitTracks(seg.rates), frags, x);
    var p;
    p, i := SourceOf(seg, frags, f);
    PartGood(seg, frags, p, i);
    TrackTables(seg.rates, i);
    hide InitTracks;
    var pt := p.tracks[i];
    SameEntries(i, pt, seg.startDTS, seg.rates[i]);
    s := pt.samples[|pt.samples| - 1];
    HasPart(P.AllParts(seg), p, i, s);
    EntryNear(i, pt, |pt.samples| - 1, seg.startDTS, seg.rates[i], slow);
  }

  /** No measured end lies past the tracked one, up to rounding. */
  lemma EndNotLater(seg: R.Segment, frags: seq<Fragment>, slow: int, x: int)
    requires Setting(seg, frags, slow) && x in Ends(InitTracks(seg.rates), frags)
    ensures x - 2 <= seg.endDTS - seg.startDTS
  {
    hide Complete;
    hide AllUnstretched;
    hide ToNanos;
    hide P.EndOf;
    hide P.Has;
    hide P.VideoTracked;
    hide Ends;
    hide InitTracks;
    TrackedFacts(seg, frags);
    var i, s := EndSource(seg, frags, slow, x);
  }

  /** The end of the longest track. */
  lemma EndAgrees(seg: R.Segment, frags: seq<Fragment>, slow: int)
    requires Setting(seg, frags, slow)
    ensures Close(MeasureFragments(InitTracks(seg.rates), frags).end, seg.endDTS - seg.startDTS, slow)
  {
    hide P.VideoTracked;
    hide Complete;
    hide AllUnstretched;
    hide MeasureFragments;
    hide Ends;
    hide ToNanos;
    hide P.Has;
    hide P.EndOf;
    hide InitTracks;
    hide ExactVideo;
    TrackedFacts(seg, frags);
    var tracks := InitTracks(seg.rates);
    MeasureIsExact(tracks, frags);
    var x := MeasureFragments(tracks, frags).end;
    DivMonotone(0, SECOND, slow);
    if x in Ends(tracks, frags) { EndNotLater(seg, frags, slow, x); }
    if seg.endDTS != seg.startDTS {
      var i: nat, s :| P.Has(P.AllParts(seg), i, s) && i < |seg.rates| && P.EndOf(s, seg.rates[i]) == seg.endDTS;
      EndMeasured(seg, frags, i, s, slow, x);
    }
  }

  lemma SameEntries(i: nat, pt: R.PartTrack, start: int, rate: int)
    requires Good(pt, start, rate)
    ensures var f := FragmentOf(i, pt);
      && rate > 0 && |pt.samples| == |f.entries| > 0 && f.id == i + 1
      && forall k | 0 <= k < |f.entries| :: f.entries[k] == Entry(pt.samples[k].duration, pt.samples[k].cto)
  {
    hide ToNanos;
    hide ToTicks;
  }

  /** What a file's video entry says about the sample behind it. */
  lemma EntryOf(seg: R.Segment, frags: seq<Fragment>, f: Fragment, k: nat, slow: int) returns (s: R.Sample)
    requires Complete(seg, frags) && f in frags && f.id == 1 && k < |f.entries|
    requires 0 < slow && forall j | 0 <= j < |seg.rates| :: slow <= seg.rates[j]
    ensures 0 < |seg.rates| && 0 < seg.rates[0] && P.Has(P.AllParts(seg), 0, s)
    ensures var rate := seg.rates[0];
      && Close(TicksToNanos(Position(f, k) + f.entries[k].cto, rate), P.ShownAt(s, rate) - seg.startDTS, slow)
      && Close(TicksToNanos(Position(f, k) + f.entries[k].cto + f.entries[k].duration, rate),
        P.ShownUntil(s, rate) - seg.startDTS, slow)
  {
    hide Complete;
    hide Good;
    hide ToNanos;
    hide ToTicks;
    hide Close;
    hide Position;
    hide P.Has;
    var p, i := SourceOf(seg, frags, f);
    PartGood(seg, frags, p, i);
    SameEntries(i, p.tracks[i], seg.startDTS, seg.rates[i]);
    s := p.tracks[0].samples[k];
    HasPart(P.AllParts(seg), p, 0, s);
    EntryNear(0, p.tracks[0], k, seg.startDTS, seg.rates[0], slow);
  }

  /** And the other way: a video sample and its entry. */
  lemma EntryFor(seg: R.Segment, frags: seq<Fragment>, s: R.Sample, slow: int) returns (f: Fragment, k: nat)
    requires Complete(seg, frags) && P.Has(P.AllParts(seg), 0, s)
    requires 0 < slow && forall j | 0 <= j < |seg.rates| :: slow <= seg.rates[j]
    ensures 0 < |seg.rates| && 0 < seg.rates[0] && f in frags && f.id == 1 && k < |f.entries|
    ensures var rate := seg.rates[0];
      && Close(TicksToNanos(Position(f, k) + f.entries[k].cto, rate), P.ShownAt(s, rate) - seg.startDTS, slow)
      && Close(TicksToNanos(Position(f, k) + f.entries[k].cto + f.entries[k].duration, rate),
        P.ShownUntil(s, rate) - seg.startDTS, slow)
  {
    hide Complete;
    hide Good;
    hide ToNanos;
    hide ToTicks;
    hide Close;
    hide Position;
    hide P.Has;
    var p;
    p, k := PlaceOf(seg, frags, 0, s);
    PartGood(seg, frags, p, 0);
    SameEntries(0, p.tracks[0], seg.startDTS, seg.rates[0]);
    f := FragmentOf(0, p.tracks[0]);
    EntryNear(0, p.tracks[0], k, seg.startDTS, seg.rates[0], slow);
  }

  /** The extent of the video. */
  lemma VideoAgrees(seg: R.Segment, frags: seq<Fragment>, slow: int)
    requires Setting(seg, frags, slow)
    ensures var g := MeasureFragments(InitTracks(seg.rates), frags);
      && g.hasVideo == seg.hasVideo
      && (seg.hasVideo ==> Close(g.videoStart, seg.videoStart - seg.startDTS, slow)
                           && Close(g.videoEnd, seg.videoEnd - seg.startDTS, slow))
  {
    hide Complete;
    hide AllUnstretched;
    hide ToNanos;
    hide ToTicks;
    hide P.Has;
    hide P.ShownAt;
    hide P.ShownUntil;
    hide P.EndTracked;
    hide VideoShown;
    hide VideoUntil;
    hide InitTracks;
    hide Position;
    hide TicksToNanos;
    hide MeasureFragments;
    hide Close;
    var tracks := InitTracks(seg.rates);
    MeasureIsExact(tracks, frags);
    var g := MeasureFragments(tracks, frags);
    if seg.hasVideo {
      FirstShownMeasured(seg, frags, slow, g);
      LastShownMeasured(seg, frags, slow, g);
      FirstShownTracked(seg, frags, slow, g);
      LastShownTracked(seg, frags, slow, g);
      CloseIs(g.videoStart, seg.videoStart - seg.startDTS, slow);
      CloseIs(g.videoEnd, seg.videoEnd - seg.startDTS, slow);
    } else if g.hasVideo {
      TrackedFacts(seg, frags);
      var f, k := VideoFrom(tracks, frags, g.videoStart, false);
      VideoIdOne(seg, frags, f);
      var s := EntryOf(seg, frags, f, k, slow);
    }
  }

  lemma CloseIs(x: int, y: int, slow: int)
    requires slow > 0 && x - 2 <= y <= x + SECOND / slow + 2
    ensures Close(x, y, slow)
  {
  }

  lemma VideoIdOne(seg: R.Segment, frags: seq<Fragment>, f: Fragment)
    requires Complete(seg, frags) && f in frags && P.RatesOk(seg.rates)
    ensures 0 < |seg.rates| && VideoId(InitTracks(seg.rates)) == 1 && Scale(InitTracks(seg.rates), 1) == seg.rates[0]
  {
    hide ToNanos;
    hide ToTicks;
    hide Complete;
    hide Good;
    var p, i := SourceOf(seg, frags, f);
    PartGood(seg, frags, p, i);
    TrackTables(seg.rates, 0);
  }

  /** What was tracked is measured. */
  lemma FirstShownMeasured(seg: R.Segment, frags: seq<Fragment>, slow: int, g: Gauge)
    requires Setting(seg, frags, slow) && seg.hasVideo
    requires ExactVideo(g, VideoShown(InitTracks(seg.rates), frags), VideoUntil(InitTracks(seg.rates), frags))
    ensures g.hasVideo && g.videoStart - 2 <= seg.videoStart - seg.startDTS
  {
    hide Complete;
    hide AllUnstretched;
    hide ToNanos;
    hide ToTicks;
    hide P.Has;
    hide P.ShownAt;
    hide P.ShownUntil;
    hide P.EndTracked;
    hide VideoShown;
    hide VideoUntil;
    hide InitTracks;
    hide Position;
    hide TicksToNanos;
    TrackedFacts(seg, frags);
    var s :| P.Has(P.AllParts(seg), 0, s) && P.ShownAt(s, seg.rates[0]) == seg.videoStart;
    var f, k := EntryFor(seg, frags, s, slow);
    VideoIdOne(seg, frags, f);
    VideoHas(InitTracks(seg.rates), frags, f, k);
  }

  lemma LastShownMeasured(seg: R.Segment, frags: seq<Fragment>, slow: int, g: Gauge)
    requires Setting(seg, frags, slow) && seg.hasVideo
    requires ExactVideo(g, VideoShown(InitTracks(seg.rates), frags), VideoUntil(InitTracks(seg.rates), frags))
    ensures seg.videoEnd - seg.startDTS <= g.videoEnd + SECOND / slow + 2
  {
    hide Complete;
    hide AllUnstretched;
    hide ToNanos;
    hide ToTicks;
    hide P.Has;
    hide P.ShownAt;
    hide P.ShownUntil;
    hide P.EndTracked;
    hide VideoShown;
    hide VideoUntil;
    hide InitTracks;
    hide Position;
    hide TicksToNanos;
    TrackedFacts(seg, frags);
    var u :| P.Has(P.AllParts(seg), 0, u) && (seg.videoEnd == 0 || P.ShownUntil(u, seg.rates[0]) == seg.videoEnd);
    SampleNonNeg(seg, frags, u);
    var h, j := EntryFor(seg, frags, u, slow);
    VideoIdOne(seg, frags, h);
    VideoHas(InitTracks(seg.rates), frags, h, j);
  }

  lemma SampleNonNeg(seg: R.Segment, frags: seq<Fragment>, s: R.Sample)
    requires Complete(seg, frags) && P.Has(P.AllParts(seg), 0, s)
    ensures 0 < |seg.rates| && 0 < seg.rates[0] && 0 <= P.ShownUntil(s, seg.rates[0])
    ensures seg.startDTS <= P.ShownUntil(s, seg.rates[0])
  {
    var p, k := PlaceOf(seg, frags, 0, s);
    PartGood(seg, frags, p, 0);
    assert s in p.tracks[0].samples;
    MulDivBounds(s.dts, SECOND, seg.rates[0]);
    MulDivBounds(s.cto, SECOND, seg.rates[0]);
    MulDivBounds(s.duration, SECOND, seg.rates[0]);
  }

  /** What is measured was tracked. */
  lemma FirstShownTracked(seg: R.Segment, frags: seq<Fragment>, slow: int, g: Gauge)
    requires Setting(seg, frags, slow) && seg.hasVideo
    requires ExactVideo(g, VideoShown(InitTracks(seg.rates), frags), VideoUntil(InitTracks(seg.rates), frags))
    requires g.hasVideo
    ensures seg.videoStart - seg.startDTS <= g.videoStart + SECOND / slow + 2
  {
    hide Complete;
    hide AllUnstretched;
    hide ToNanos;
    hide ToTicks;
    hide P.Has;
    hide P.ShownAt;
    hide P.ShownUntil;
    hide P.EndTracked;
    hide VideoShown;
    hide VideoUntil;
    hide InitTracks;
    hide Position;
    hide TicksToNanos;
    TrackedFacts(seg, frags);
    var f, k := VideoFrom(InitTracks(seg.rates), frags, g.videoStart, false);
    VideoIdOne(seg, frags, f);
    var s := EntryOf(seg, frags, f, k, slow);
  }

  lemma LastShownTracked(seg: R.Segment, frags: seq<Fragment>, slow: int, g: Gauge)
    requires Setting(seg, frags, slow) && seg.hasVideo
    requires ExactVideo(g, VideoShown(InitTracks(seg.rates), frags), VideoUntil(InitTracks(seg.rates), frags))
    ensures g.videoEnd - 2 <= seg.videoEnd - seg.startDTS
  {
    hide Complete;
    hide AllUnstretched;
    hide ToNanos;
    hide ToTicks;
    hide P.Has;
    hide P.ShownAt;
    hide P.ShownUntil;
    hide P.EndTracked;
    hide VideoShown;
    hide VideoUntil;
    hide InitTracks;
    hide Position;
    hide TicksToNanos;
    TrackedFacts(seg, frags);
    if g.videoEnd == 0 {
      var s :| P.Has(P.AllParts(seg), 0, s) && P.ShownAt(s, seg.rates[0]) == seg.videoStart;
      SampleNonNeg(seg, frags, s);
    } else {
      var f, k := VideoFrom(InitTracks(seg.rates), frags, g.videoEnd, true);
      VideoIdOne(seg, frags, f);
      var s := EntryOf(seg, frags, f, k, slow);
    }
  }

  /** The row a rebuild derives from the file against the one reported on closing
      it: same duration, same video start and end. */
  ghost predicate RowAgrees(io: R.Io, seg: R.Segment, frags: seq<Fragment>, slow: int)
    requires slow > 0
  {
    && P.RatesOk(seg.rates) && R.SegClose(io, seg).1.Some? && R.SegClose(io, seg).0.written == P.AllParts(seg)
    && var (duration, video) := Measured(InitTracks(seg.rates), frags);
       var report := R.SegClose(io, seg).1.value;
    && Close(duration, report.duration, slow)
    && (video.Some? <==> seg.hasVideo)
    && (video.Some? ==> Close(video.value.0, report.videoStart, slow)
                        && Close(video.value.1, report.videoStart + report.videoDuration, slow))
  }

  /** For a complete file the two rows agree, up to one tick of the slowest clock
      and 2 ns. */
  lemma MeasureAgrees(io: R.Io, seg: R.Segment, frags: seq<Fragment>, slow: int)
    requires Complete(seg, frags) && seg.cur.Some? && io.create && io.write && io.close
    requires 0 < slow && forall j | 0 <= j < |seg.rates| :: slow <= seg.rates[j]
    ensures RowAgrees(io, seg, frags, slow)
  {
    hide ToNanos;
    hide Complete;
    hide MeasureFragments;
    hide InitTracks;
    hide AllUnstretched;
    hide P.RatesOk;
    hide P.AllParts;
    NothingStretched(seg, frags);
    EndAgrees(seg, frags, slow);
    VideoAgrees(seg, frags, slow);
    ClosedParts(io, seg);
  }

  lemma ClosedParts(io: R.Io, seg: R.Segment)
    requires seg.cur.Some? && io.create && io.write && io.close
    ensures R.SegClose(io, seg).0.written == P.AllParts(seg)
  {
    hide ToNanos;
  }

  lemma OpenComplete(r: R.Rec, frags: seq<Fragment>)
    requires P.Inv(r) && r.seg.Some? && FileOf(frags, P.AllParts(r.seg.value))
    requires forall p | p in P.AllParts(r.seg.value) :: Plain(p)
    ensures Complete(r.seg.value, frags)
  {
    hide P.SegOk;
    hide P.HistoryOk;
    hide P.TrackOk;
    hide P.Fresh;
    hide P.LinkOk;
    hide FileOf;
    hide Plain;
  }

  /** Every run's open segment is one the theorem is about, whatever was written
      to it, as long as it has no hole inside a part's audio and no negative time. */
  lemma OpenSegmentComplete(disk: R.Disk, cfg: R.Config, events: seq<R.Event>, frags: seq<Fragment>)
    requires P.After(disk, cfg, events).seg.Some?
    requires FileOf(frags, P.AllParts(P.After(disk, cfg, events).seg.value))
    requires forall p | p in P.AllParts(P.After(disk, cfg, events).seg.value) :: Plain(p)
    ensures Complete(P.After(disk, cfg, events).seg.value, frags)
  {
    hide *;
    OpenComplete(P.After(disk, cfg, events), frags);
  }
}
