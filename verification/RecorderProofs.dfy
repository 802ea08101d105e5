/** What every run of the recorder keeps: each file's video is one unbroken run
    that starts on a keyframe, placed exactly; segments are numbered, closed and
    reported in order. */
module RecorderProofs {
  import opened Wrappers
  import opened Clock
  import opened RecorderSpec

  // ----- what makes a file playable -----

  function PartVideo(p: Part): seq<Sample> {
    if 0 in p.tracks then p.tracks[0].samples else []
  }

  /** The video samples of a list of fragments, in file order. */
  function VideoOf(parts: seq<Part>): seq<Sample> {
    if parts == [] then [] else VideoOf(parts[..|parts| - 1]) + PartVideo(Last(parts))
  }

  function AllParts(seg: Segment): seq<Part> {
    if seg.cur.Some? then seg.written + [seg.cur.value] else seg.written
  }

  function Media(seg: Segment): seq<Sample> {
    VideoOf(AllParts(seg))
  }

  /** s may come right after v: a keyframe when v is empty, otherwise the very
      next sample, decoding where v's last one ends. */
  ghost predicate Follows(v: seq<Sample>, s: Sample) {
    if v == [] then !s.nonSync
    else s.n == Last(v).n + 1 && s.dts == Last(v).dts + Last(v).duration
  }

  ghost predicate Unbroken(v: seq<Sample>) {
    v == [] || (Unbroken(v[..|v| - 1]) && Follows(v[..|v| - 1], Last(v)))
  }

  /** The samples of one track of one fragment lie at or after the segment's
      start, the base time is the first one's exact offset (it was not clamped),
      and no sample is stretched past the stall limit. */
  ghost predicate TrackPlaced(pt: PartTrack, start: int, rate: int) {
    && 0 < rate <= MAX_RATE
    && |pt.samples| > 0
    && pt.base == ToTicks(ToNanos(pt.samples[0].dts, rate) - start, rate)
    && forall k | 0 <= k < |pt.samples| ::
         start <= ToNanos(pt.samples[k].dts, rate) && pt.samples[k].duration <= 5 * rate
  }

  ghost predicate Placed(p: Part, start: int, rates: seq<int>) {
    forall i | i in p.tracks :: i < |rates| && TrackPlaced(p.tracks[i], start, rates[i])
  }

  ghost predicate AllPlaced(parts: seq<Part>, start: int, rates: seq<int>) {
    forall p | p in parts :: Placed(p, start, rates)
  }

  ghost predicate Playable(parts: seq<Part>, start: int, rates: seq<int>) {
    Unbroken(VideoOf(parts)) && AllPlaced(parts, start, rates)
  }

  ghost predicate FileOk(seg: Segment) {
    Playable(seg.written, seg.startDTS, seg.rates)
  }

  // ----- the extents the segment tracks -----

  /** Sample s of track i is in one of the parts. */
  ghost predicate Has(parts: seq<Part>, i: nat, s: Sample) {
    exists p | p in parts :: InPart(p, i, s)
  }

  ghost predicate InPart(p: Part, i: nat, s: Sample) {
    i in p.tracks && s in p.tracks[i].samples
  }

  function EndOf(s: Sample, rate: int): int
    requires rate > 0
  {
    ToNanos(s.dts, rate) + ToNanos(s.duration, rate)
  }

  function ShownAt(s: Sample, rate: int): int
    requires rate > 0
  {
    ToNanos(s.dts, rate) + ToNanos(s.cto, rate)
  }

  function ShownUntil(s: Sample, rate: int): int
    requires rate > 0
  {
    ShownAt(s, rate) + ToNanos(s.duration, rate)
  }

  ghost predicate RatesOk(rates: seq<int>) {
    forall i | 0 <= i < |rates| :: 0 < rates[i] <= MAX_RATE
  }

  /** end is the latest end of any sample, or the segment's start. */
  ghost predicate EndTracked(parts: seq<Part>, rates: seq<int>, start: int, end: int)
    requires RatesOk(rates)
  {
    && start <= end
    && (forall i: nat, s | Has(parts, i, s) && i < |rates| :: EndOf(s, rates[i]) <= end)
    && (end == start || exists i: nat, s | Has(parts, i, s) && i < |rates| :: EndOf(s, rates[i]) == end)
  }

  /** first and last bound the video's presentation and are attained. */
  ghost predicate VideoTracked(parts: seq<Part>, rate: int, first: int, last: int)
    requires rate > 0
  {
    && 0 <= last
    && (forall s | Has(parts, 0, s) :: first <= ShownAt(s, rate) && ShownUntil(s, rate) <= last)
    && (exists s | Has(parts, 0, s) :: ShownAt(s, rate) == first)
    && (last == 0 || exists s | Has(parts, 0, s) :: ShownUntil(s, rate) == last)
  }

  /** end is the latest decode end of any video sample, or zero. */
  ghost predicate ReachTracked(parts: seq<Part>, rate: int, end: int)
    requires rate > 0
  {
    && 0 <= end
    && (forall s | Has(parts, 0, s) :: EndOf(s, rate) <= end)
    && (end == 0 || exists s | Has(parts, 0, s) :: EndOf(s, rate) == end)
  }

  ghost predicate Tracked(seg: Segment) {
    && RatesOk(seg.rates)
    && EndTracked(AllParts(seg), seg.rates, seg.startDTS, seg.endDTS)
    && (if seg.hasVideo
        then 0 < |seg.rates| && VideoTracked(AllParts(seg), seg.rates[0], seg.videoStart, seg.videoEnd)
          && ReachTracked(AllParts(seg), seg.rates[0], seg.videoEndDTS)
        else seg.videoEnd == 0 && seg.videoEndDTS == 0 && forall s :: !Has(AllParts(seg), 0, s))
  }

  ghost predicate SegOk(seg: Segment) {
    && Playable(AllParts(seg), seg.startDTS, seg.rates) && (seg.hasVideo <==> Media(seg) != [])
    && Tracked(seg)
  }

  lemma {:induction false} UnbrokenPrefix(v: seq<Sample>, w: seq<Sample>)
    requires Unbroken(v + w)
    ensures Unbroken(v)
    decreases |w|
  {
    if w == [] {
      assert v + w == v;
    } else {
      assert (v + w)[..|v + w| - 1] == v + w[..|w| - 1];
      UnbrokenPrefix(v, w[..|w| - 1]);
    }
  }

  lemma UnbrokenAppend(v: seq<Sample>, s: Sample)
    requires Unbroken(v) && Follows(v, s)
    ensures Unbroken(v + [s])
  {
    assert (v + [s])[..|v|] == v;
  }

  /** The same, sample by sample. */
  lemma {:induction false} UnbrokenSamples(v: seq<Sample>, k: nat)
    requires Unbroken(v) && k < |v|
    ensures !v[0].nonSync
    ensures k > 0 ==> v[k].n == v[k - 1].n + 1 && v[k].dts == v[k - 1].dts + v[k - 1].duration
  {
    var u := v[..|v| - 1];
    if u != [] {
      UnbrokenSamples(u, if k < |u| then k else 0);
    }
  }

  lemma VideoOfAppend(parts: seq<Part>, p: Part)
    ensures VideoOf(parts + [p]) == VideoOf(parts) + PartVideo(p)
  {
    assert (parts + [p])[..|parts|] == parts;
  }

  /** Dropping the part not yet flushed leaves a playable file. */
  lemma WrittenOk(seg: Segment)
    requires Playable(AllParts(seg), seg.startDTS, seg.rates)
    ensures FileOk(seg)
  {
    if seg.cur.Some? {
      VideoOfAppend(seg.written, seg.cur.value);
      UnbrokenPrefix(VideoOf(seg.written), PartVideo(seg.cur.value));
      assert forall p | p in seg.written :: p in AllParts(seg);
    }
  }

  lemma FlushOk(io: Io, seg: Segment)
    requires seg.cur.Some? && Playable(AllParts(seg), seg.startDTS, seg.rates)
    ensures var (seg1, ok) := Flush(io, seg);
      && FileOk(seg1) && (ok ==> seg1.written == AllParts(seg))
      && seg1 == seg.(file := seg1.file, written := seg1.written)
  {
    WrittenOk(seg);
  }

  /** What one accepted sample does to a segment's media. */
  ghost predicate Wrote1(w: Wrote, seg: Segment, i: nat, s: Sample) {
    && w.seg.startDTS == seg.startDTS && w.seg.rates == seg.rates && w.seg.number == seg.number
    && Playable(AllParts(w.seg), w.seg.startDTS, w.seg.rates)
    && (w.ok ==> Media(w.seg) == Media(seg) + if i == 0 then [s] else [])
  }

  ghost predicate MayWrite(seg: Segment, i: nat, rate: int, s: Sample, dts: int) {
    && i < |seg.rates| && seg.rates[i] == rate && 0 < rate <= MAX_RATE
    && dts == ToNanos(s.dts, rate) && seg.startDTS <= dts && s.duration <= 5 * rate
    && (i == 0 ==> Follows(Media(seg), s))
  }

  lemma PartAddOk(p: Part, start: int, rates: seq<int>, i: nat, s: Sample, dts: int)
    requires i < |rates| && 0 < rates[i] <= MAX_RATE && Placed(p, start, rates)
    requires dts == ToNanos(s.dts, rates[i]) && start <= dts && s.duration <= 5 * rates[i]
    ensures var p1 := PartAdd(p, start, i, rates[i], s, dts);
      && Placed(p1, start, rates)
      && PartVideo(p1) == PartVideo(p) + if i == 0 then [s] else []
  {
    var p1 := PartAdd(p, start, i, rates[i], s, dts);
    forall j | j in p1.tracks ensures j < |rates| && TrackPlaced(p1.tracks[j], start, rates[j]) {
      if j == i {
        var a, b := PartTrackOf(p, start, i, rates[i], dts).samples, p1.tracks[i].samples;
        assert b == a + [s];
        assert forall k | 0 <= k < |a| :: b[k] == a[k];
      } else {
        assert j in p.tracks && p1.tracks[j] == p.tracks[j];
      }
    }
  }

  lemma VideoOfGrows(parts: seq<Part>, p: Part, p1: Part, add: seq<Sample>)
    requires PartVideo(p1) == PartVideo(p) + add
    ensures VideoOf(parts + [p1]) == VideoOf(parts + [p]) + add
  {
    hide *;
    VideoOfAppend(parts, p);
    VideoOfAppend(parts, p1);
    var v := VideoOf(parts);
    assert v + (PartVideo(p) + add) == (v + PartVideo(p)) + add;
  }

  /** Growing the last part by at most one fitting video sample. */
  lemma LastPartGrows(parts: seq<Part>, p: Part, p1: Part, add: seq<Sample>, start: int, rates: seq<int>)
    requires Playable(parts + [p], start, rates) && Placed(p1, start, rates)
    requires PartVideo(p1) == PartVideo(p) + add
    requires add == [] || (|add| == 1 && Follows(VideoOf(parts + [p]), add[0]))
    ensures Playable(parts + [p1], start, rates)
    ensures VideoOf(parts + [p1]) == VideoOf(parts + [p]) + add
  {
    hide Placed;
    hide Follows;
    hide Unbroken;
    hide PartVideo;
    VideoOfGrows(parts, p, p1, add);
    var v := VideoOf(parts + [p]);
    hide VideoOf;
    if add == [] {
      assert v + add == v;
    } else {
      UnbrokenAppend(v, add[0]);
      assert add == [add[0]];
    }
    forall q | q in parts + [p1] ensures Placed(q, start, rates) {
      if q != p1 { assert q in parts + [p]; }
    }
  }

  lemma PartWriteOk(cfg: Config, seg: Segment, i: nat, rate: int, s: Sample, dts: int, ops: nat)
    requires seg.cur.Some? && Playable(AllParts(seg), seg.startDTS, seg.rates)
    requires MayWrite(seg, i, rate, s, dts)
    ensures var w := PartWrite(cfg, seg, i, rate, s, dts, ops);
      Wrote1(w, seg, i, s) && w.seg.hasVideo == seg.hasVideo
  {
    var p := seg.cur.value;
    assert p in AllParts(seg);
    PartAddOk(p, seg.startDTS, seg.rates, i, s, dts);
    var p1 := PartAdd(p, seg.startDTS, i, rate, s, dts);
    LastPartGrows(seg.written, p, p1, if i == 0 then [s] else [], seg.startDTS, seg.rates);
  }

  lemma NewPartOk(seg: Segment, dts: int)
    requires FileOk(seg)
    ensures var seg1 := NewPart(seg, dts);
      Playable(AllParts(seg1), seg.startDTS, seg.rates) && Media(seg1) == VideoOf(seg.written)
  {
    var p := NewPart(seg, dts).cur.value;
    VideoOfAppend(seg.written, p);
    assert VideoOf(seg.written) + [] == VideoOf(seg.written);
  }

  /** A write that succeeds adds exactly its sample to the parts. */
  lemma PartWriteHas(cfg: Config, seg: Segment, i: nat, rate: int, s: Sample, dts: int, ops: nat)
    requires seg.cur.Some? && rate > 0 && PartWrite(cfg, seg, i, rate, s, dts, ops).ok
    ensures var seg1 := PartWrite(cfg, seg, i, rate, s, dts, ops).seg;
      forall j, u :: Has(AllParts(seg1), j, u) <==> Has(AllParts(seg), j, u) || (j == i && u == s)
  {
    hide ToNanos;
    hide ToTicks;
    var p, seg1 := seg.cur.value, PartWrite(cfg, seg, i, rate, s, dts, ops).seg;
    var p1 := seg1.cur.value;
    assert forall j, u :: InPart(p1, j, u) <==> InPart(p, j, u) || (j == i && u == s);
    hide InPart;
    hide PartWrite;
    forall j, u ensures Has(AllParts(seg1), j, u) <==> Has(AllParts(seg), j, u) || (j == i && u == s) {
      assert forall q | q in seg.written :: q in AllParts(seg1) && q in AllParts(seg);
      assert p1 in AllParts(seg1) && p in AllParts(seg);
      assert InPart(p1, j, u) <==> InPart(p, j, u) || (j == i && u == s);
    }
  }

  lemma NewPartHas(seg: Segment, dts: int)
    ensures forall j, u :: Has(AllParts(NewPart(seg, dts)), j, u) <==> Has(seg.written, j, u)
  {
    var p := NewPart(seg, dts).cur.value;
    forall j, u ensures Has(AllParts(NewPart(seg, dts)), j, u) <==> Has(seg.written, j, u) {
      assert !InPart(p, j, u);
      assert forall q | q in seg.written :: q in AllParts(NewPart(seg, dts));
    }
  }

  lemma SegWriteHas(cfg: Config, disk: Disk, ops: nat, seg: Segment, i: nat, t: Track, s: Sample, dts: int)
    requires t.rate > 0 && SegWrite(cfg, disk, ops, seg, i, t, s, dts).ok
    ensures var seg1 := SegWrite(cfg, disk, ops, seg, i, t, s, dts).seg;
      && (forall j, u :: Has(AllParts(seg1), j, u) <==> Has(AllParts(seg), j, u) || (j == i && u == s))
      && var o := Observe(seg, t.video, t.rate, s, dts);
        seg1 == o.(file := seg1.file, written := seg1.written, cur := seg1.cur, nextPart := seg1.nextPart)
  {
    hide ToNanos;
    hide ToTicks;
    hide Has;
    var o := Observe(seg, t.video, t.rate, s, dts);
    assert AllParts(o) == AllParts(seg);
    if o.cur.None? {
      NewPartHas(o, dts);
      PartWriteHas(cfg, NewPart(o, dts), i, t.rate, s, dts, ops);
    } else if o.cur.value.endDTS - o.cur.value.startDTS >= cfg.partDuration {
      var seg2 := Flush(disk(ops), o).0;
      assert seg2.written == AllParts(o);
      NewPartHas(seg2, dts);
      PartWriteHas(cfg, NewPart(seg2, dts), i, t.rate, s, dts, ops + 1);
    } else {
      PartWriteHas(cfg, o, i, t.rate, s, dts, ops);
    }
  }

  lemma EndGrows(parts: seq<Part>, parts1: seq<Part>, rates: seq<int>, start: int, end: int, i: nat, s: Sample)
    requires RatesOk(rates) && i < |rates| && EndTracked(parts, rates, start, end)
    requires forall j, u :: Has(parts1, j, u) <==> Has(parts, j, u) || (j == i && u == s)
    ensures EndTracked(parts1, rates, start, Max(end, EndOf(s, rates[i])))
  {
    hide ToNanos;
    hide Has;
    assert Has(parts1, i, s);
  }

  lemma VideoGrows(parts: seq<Part>, parts1: seq<Part>, rate: int, hasVideo: bool, first: int, last: int, s: Sample)
    requires rate > 0
    requires if hasVideo then VideoTracked(parts, rate, first, last) else last == 0 && forall u :: !Has(parts, 0, u)
    requires forall u :: Has(parts1, 0, u) <==> Has(parts, 0, u) || u == s
    ensures VideoTracked(parts1, rate, if !hasVideo || ShownAt(s, rate) < first then ShownAt(s, rate) else first,
                         Max(last, ShownUntil(s, rate)))
  {
    hide ToNanos;
    hide Has;
    assert Has(parts1, 0, s);
  }

  lemma ReachGrows(parts: seq<Part>, parts1: seq<Part>, rate: int, hasVideo: bool, end: int, s: Sample)
    requires rate > 0
    requires if hasVideo then ReachTracked(parts, rate, end) else end == 0 && forall u :: !Has(parts, 0, u)
    requires forall u :: Has(parts1, 0, u) <==> Has(parts, 0, u) || u == s
    ensures ReachTracked(parts1, rate, Max(end, EndOf(s, rate)))
  {
    hide ToNanos;
    hide Has;
    assert Has(parts1, 0, s);
  }

  /** The extents after observing a sample cover exactly the parts that hold it. */
  lemma ObservedTracked(seg: Segment, parts1: seq<Part>, i: nat, video: bool, s: Sample)
    requires Tracked(seg) && i < |seg.rates| && (video <==> i == 0)
    requires forall j, u :: Has(parts1, j, u) <==> Has(AllParts(seg), j, u) || (j == i && u == s)
    ensures var o := Observe(seg, video, seg.rates[i], s, ToNanos(s.dts, seg.rates[i]));
      && EndTracked(parts1, seg.rates, seg.startDTS, o.endDTS)
      && (if o.hasVideo then VideoTracked(parts1, seg.rates[0], o.videoStart, o.videoEnd)
            && ReachTracked(parts1, seg.rates[0], o.videoEndDTS)
          else o.videoEnd == 0 && o.videoEndDTS == 0 && forall u :: !Has(parts1, 0, u))
  {
    hide ToNanos;
    hide Has;
    EndGrows(AllParts(seg), parts1, seg.rates, seg.startDTS, seg.endDTS, i, s);
    if i == 0 {
      VideoGrows(AllParts(seg), parts1, seg.rates[0], seg.hasVideo, seg.videoStart, seg.videoEnd, s);
      ReachGrows(AllParts(seg), parts1, seg.rates[0], seg.hasVideo, seg.videoEndDTS, s);
    } else if seg.hasVideo {
      SameVideo(AllParts(seg), parts1, seg.rates[0], seg.videoStart, seg.videoEnd);
      SameReach(AllParts(seg), parts1, seg.rates[0], seg.videoEndDTS);
    }
    hide EndTracked;
    hide VideoTracked;
    hide ReachTracked;
  }

  lemma TrackedGrows(cfg: Config, disk: Disk, ops: nat, seg: Segment, i: nat, t: Track, s: Sample, dts: int)
    requires Tracked(seg) && MayWrite(seg, i, t.rate, s, dts) && (t.video <==> i == 0)
    requires SegWrite(cfg, disk, ops, seg, i, t, s, dts).ok
    ensures Tracked(SegWrite(cfg, disk, ops, seg, i, t, s, dts).seg)
  {
    SegWriteHas(cfg, disk, ops, seg, i, t, s, dts);
    var seg1 := SegWrite(cfg, disk, ops, seg, i, t, s, dts).seg;
    hide SegWrite;
    hide Has;
    ObservedTracked(seg, AllParts(seg1), i, t.video, s);
    hide EndTracked;
    hide VideoTracked;
    hide ReachTracked;
    hide ToNanos;
    hide AllParts;
  }

  lemma SameReach(parts: seq<Part>, parts1: seq<Part>, rate: int, end: int)
    requires rate > 0 && ReachTracked(parts, rate, end)
    requires forall u :: Has(parts1, 0, u) <==> Has(parts, 0, u)
    ensures ReachTracked(parts1, rate, end)
  {
    hide ToNanos;
    hide Has;
  }

  lemma SameVideo(parts: seq<Part>, parts1: seq<Part>, rate: int, first: int, last: int)
    requires rate > 0 && VideoTracked(parts, rate, first, last)
    requires forall u :: Has(parts1, 0, u) <==> Has(parts, 0, u)
    ensures VideoTracked(parts1, rate, first, last)
  {
    hide ToNanos;
    hide Has;
  }

  /** A sample that opens a part. */
  lemma OpenPartOk(cfg: Config, seg: Segment, i: nat, rate: int, s: Sample, dts: int, ops: nat)
    requires FileOk(seg) && MayWrite(seg.(cur := None), i, rate, s, dts)
    ensures var w := PartWrite(cfg, NewPart(seg, dts), i, rate, s, dts, ops);
      Wrote1(w, seg.(cur := None), i, s) && w.seg.hasVideo == seg.hasVideo
  {
    NewPartOk(seg, dts);
    var seg1, seg0 := NewPart(seg, dts), seg.(cur := None);
    assert AllParts(seg0) == seg.written;
    hide AllParts;
    hide Playable;
    PartWriteOk(cfg, seg1, i, rate, s, dts, ops);
    hide PartWrite;
  }

  /** A full part is flushed first, which may fail. */
  lemma FullPartOk(cfg: Config, io: Io, ops: nat, seg: Segment, i: nat, rate: int, s: Sample, dts: int)
    requires seg.cur.Some? && Playable(AllParts(seg), seg.startDTS, seg.rates) && MayWrite(seg, i, rate, s, dts)
    ensures var (seg1, ok) := Flush(io, seg);
      var w := if !ok then Wrote(seg1.(cur := None), false, ops + 1)
               else PartWrite(cfg, NewPart(seg1, dts), i, rate, s, dts, ops + 1);
      Wrote1(w, seg, i, s) && w.seg.hasVideo == seg.hasVideo
  {
    FlushOk(io, seg);
    var (seg1, ok) := Flush(io, seg);
    hide Flush;
    var seg0 := seg1.(cur := None);
    assert AllParts(seg0) == seg1.written;
    assert ok ==> Media(seg0) == Media(seg);
    hide AllParts;
    hide Playable;
    if ok { OpenPartOk(cfg, seg1, i, rate, s, dts, ops + 1); }
    hide PartWrite;
    hide NewPart;
  }

  /** The half of a write that stores the sample. */
  lemma StoredOk(cfg: Config, disk: Disk, ops: nat, seg: Segment, i: nat, t: Track, s: Sample, dts: int)
    requires t.rate > 0
    requires var o := Observe(seg, t.video, t.rate, s, dts);
      Playable(AllParts(o), o.startDTS, o.rates) && MayWrite(o, i, t.rate, s, dts)
    ensures var o, w := Observe(seg, t.video, t.rate, s, dts), SegWrite(cfg, disk, ops, seg, i, t, s, dts);
      Wrote1(w, o, i, s) && w.seg.hasVideo == o.hasVideo
  {
    var o := Observe(seg, t.video, t.rate, s, dts);
    WrittenOk(o);
    hide Observe;
    hide PartWrite;
    hide NewPart;
    hide Flush;
    hide Playable;
    hide FileOk;
    hide MayWrite;
    if o.cur.None? {
      assert o == o.(cur := None);
      OpenPartOk(cfg, o, i, t.rate, s, dts, ops);
    } else if o.cur.value.endDTS - o.cur.value.startDTS >= cfg.partDuration {
      FullPartOk(cfg, disk(ops), ops, o, i, t.rate, s, dts);
    } else {
      PartWriteOk(cfg, o, i, t.rate, s, dts, ops);
    }
    hide Wrote1;
  }

  lemma SegWriteOk(cfg: Config, disk: Disk, ops: nat, seg: Segment, i: nat, t: Track, s: Sample, dts: int)
    requires SegOk(seg) && MayWrite(seg, i, t.rate, s, dts) && (t.video <==> i == 0)
    ensures var w := SegWrite(cfg, disk, ops, seg, i, t, s, dts);
      Wrote1(w, seg, i, s) && (w.ok ==> SegOk(w.seg))
  {
    var o := Observe(seg, t.video, t.rate, s, dts);
    assert AllParts(o) == AllParts(seg);
    assert o.hasVideo <==> (Media(seg) + if i == 0 then [s] else []) != [];
    hide Tracked;
    hide Observe;
    hide AllParts;
    hide Playable;
    StoredOk(cfg, disk, ops, seg, i, t, s, dts);
    if SegWrite(cfg, disk, ops, seg, i, t, s, dts).ok { TrackedGrows(cfg, disk, ops, seg, i, t, s, dts); }
    hide SegWrite;
  }

  // ----- the recorder's invariant -----

  ghost predicate TrackOk(t: Track) {
    && ValidTrack(t)
    && (t.next.Some? ==> t.next.value.n + 1 == t.seen)
    && t.lastDuration <= 5 * t.rate
  }

  /** The video track is the first one. */
  ghost predicate TracksOk(tracks: seq<Track>) {
    forall i | 0 <= i < |tracks| :: TrackOk(tracks[i]) && (tracks[i].video <==> i == 0)
  }

  /** Every closed segment has the next number and holds a playable file; reports
      come in number order, so no segment is reported twice. */
  ghost predicate HistoryOk(r: Rec) {
    && (forall k | 0 <= k < |r.closed| :: r.closed[k].number == k && FileOk(r.closed[k]))
    && r.nextNumber == |r.closed| + (if r.seg.Some? then 1 else 0)
    && (r.seg.Some? ==> r.seg.value.number == |r.closed|)
    && (forall k | 0 <= k < |r.reports| :: r.reports[k].number < |r.closed|)
    && (forall j, k | 0 <= j < k < |r.reports| :: r.reports[j].number < r.reports[k].number)
  }

  /** The pending sample continues the media v already in the segment, unless it
      has drifted, which closes the segment when its turn comes. */
  ghost predicate LinkOk(t: Track, v: seq<Sample>)
    requires ValidTrack(t)
  {
    v != [] ==>
      && t.anchored && t.next.Some? && t.next.value.n == Last(v).n + 1
      && (t.next.value.dts == Last(v).dts + Last(v).duration || Drifted(t, t.next.value))
  }

  ghost predicate CurrentOk(r: Rec)
    requires TracksOk(r.tracks)
  {
    r.seg.Some? ==>
      && 0 < |r.tracks| && r.cfg.record
      && SegOk(r.seg.value) && r.seg.value.rates == Rates(r.tracks)
      && LinkOk(r.tracks[0], Media(r.seg.value))
  }

  /** No segment was opened yet in this session, and nothing asks to wait for a
      keyframe: the next finalized sample opens one. */
  predicate Unopened(r: Rec) {
    r.cfg.record && r.live && r.seg.None? && !r.resync
  }

  ghost predicate Base(r: Rec) {
    && TracksOk(r.tracks) && HistoryOk(r) && CurrentOk(r)
    && (r.live ==> 0 < |r.tracks|)
    && (r.live && !r.reordering ==> r.hasLastPTS == r.videoStarted)
    && (Unopened(r) ==>
          !r.tracks[0].anchored && (r.tracks[0].next.Some? ==> !r.tracks[0].next.value.nonSync))
  }

  /** With no video sample pending, decoding has not started either, so the next
      picture passed on is a random access point. */
  ghost predicate Fresh(r: Rec)
    requires r.live ==> 0 < |r.tracks|
  {
    Unopened(r) && r.tracks[0].next.None? ==> if r.reordering then !r.extractor else !r.videoStarted
  }

  ghost predicate Inv(r: Rec) {
    Base(r) && Fresh(r)
  }

  lemma FinalDurationBound(rate: int, last: nat, raw: nat)
    requires 0 < rate <= MAX_RATE && last <= 5 * rate
    ensures FinalDuration(rate, last, raw) <= 5 * rate
    ensures raw <= 5 * rate ==> FinalDuration(rate, last, raw) == raw
  {
  }

  lemma LookaheadOk(t: Track, smp: Sample)
    requires TrackOk(t)
    ensures var look := Lookahead(t, smp);
      && TrackOk(look.track) && look.track.rate == t.rate && look.track.video == t.video
      && look.track.next.Some? && look.track.next.value.nonSync == smp.nonSync
      && (look.Hold? <==> t.next.None?)
      && (look.Hold? ==> look.track.anchored == t.anchored)
      && (look.Jump? ==> t.anchored)
      && (look.Final? ==>
            var (t1, s) := (look.track, look.sample);
            && t1.anchored && s == t.next.value.(duration := s.duration) && s.duration <= 5 * t.rate
            && t1.next.value.n == s.n + 1
            && (look.gap || t1.next.value.dts == s.dts + s.duration || Drifted(t1, t1.next.value))
            && (t.anchored ==> !Drifted(t, s)))
  {
    if t.next.Some? {
      var p := t.next.value;
      var t2 := if t.anchored then t else Anchor(t, p);
      var raw := if smp.dts < p.dts || Drifted(t2, smp) then 0 else smp.dts - p.dts;
      FinalDurationBound(t.rate, t.lastDuration, raw);
    }
  }

  lemma HistoryFields(r1: Rec, r: Rec)
    requires HistoryOk(r)
    requires r1.closed == r.closed && r1.reports == r.reports && r1.nextNumber == r.nextNumber && r1.seg == r.seg
    ensures HistoryOk(r1)
  {
  }

  lemma SegCloseOk(io: Io, seg: Segment)
    requires Playable(AllParts(seg), seg.startDTS, seg.rates)
    ensures var (seg1, report) := SegClose(io, seg);
      FileOk(seg1) && seg1.number == seg.number && (report.Some? ==> report.value.number == seg.number)
  {
    if seg.cur.Some? { FlushOk(io, seg); } else { WrittenOk(seg); }
  }

  lemma CloseOk(disk: Disk, r: Rec)
    requires HistoryOk(r) && r.seg.Some?
    requires Playable(AllParts(r.seg.value), r.seg.value.startDTS, r.seg.value.rates)
    ensures var r1 := CloseSegment(disk, r);
      && HistoryOk(r1)
      && r1 == r.(seg := None, ops := r1.ops, closed := r1.closed, reports := r1.reports)
  {
    hide Playable;
    hide SegClose;
    hide FileOk;
    hide AllParts;
    SegCloseOk(disk(r.ops), r.seg.value);
  }

  lemma OpenOk(r: Rec, start: (int, int))
    requires HistoryOk(r) && r.seg.None? && ValidTracks(r.tracks)
    ensures var r1 := OpenSegment(r, start);
      && HistoryOk(r1) && r1.seg.Some? && SegOk(r1.seg.value) && Media(r1.seg.value) == []
      && r1.seg.value.startDTS == start.0 && r1.seg.value.rates == Rates(r.tracks)
      && r1 == r.(seg := r1.seg, nextNumber := r1.nextNumber)
  {
  }

  /** A segment starts no later than the sample that opens it, nor than any
      sample pending on another track up to one second before it. */
  lemma {:induction false} StartNotAfter(tracks: seq<Track>, k: nat, i: nat, dts: int, ntp: int)
    requires ValidTracks(tracks) && k <= |tracks|
    ensures StartOver(tracks, k, i, dts, ntp).0 <= dts
    ensures forall j | 0 <= j < k && j != i :: var o := Pending(tracks[j]);
      o.Some? && o.value <= dts && dts - o.value <= MAX_BASETIME ==> StartOver(tracks, k, i, dts, ntp).0 <= o.value
  {
    if k > 0 { StartNotAfter(tracks, k - 1, i, dts, ntp); }
  }

  lemma {:induction false} MediaPlaced(parts: seq<Part>, start: int, rates: seq<int>, s: Sample)
    requires AllPlaced(parts, start, rates) && s in VideoOf(parts) && 0 < |rates| && rates[0] > 0
    ensures start <= ToNanos(s.dts, rates[0])
  {
    var init, p := parts[..|parts| - 1], Last(parts);
    if s in VideoOf(init) {
      MediaPlaced(init, start, rates, s);
    } else {
      assert s in PartVideo(p) && Placed(p, start, rates);
    }
  }

  /** A recorder about to store sample s, just finalized on track i. */
  ghost predicate Storing(r: Rec, i: nat, s: Sample, gap: bool) {
    && TracksOk(r.tracks) && HistoryOk(r) && r.cfg.record && i < |r.tracks|
    && r.tracks[i].next.Some? && s.duration <= 5 * r.tracks[i].rate
    && (r.seg.Some? ==> SegOk(r.seg.value) && r.seg.value.rates == Rates(r.tracks))
    && (i == 0 ==>
          && r.hasVideo && r.tracks[0].anchored && r.tracks[0].next.value.n == s.n + 1
          && (gap || r.tracks[0].next.value.dts == s.dts + s.duration || Drifted(r.tracks[0], r.tracks[0].next.value)))
  }

  /** Where s stands with respect to the open segment. */
  ghost predicate Fits(r: Rec, i: nat, s: Sample)
    requires TracksOk(r.tracks) && 0 < |r.tracks|
  {
    if r.seg.None? then i == 0 && !r.resync ==> !s.nonSync
    else if i == 0 then Media(r.seg.value) != [] ==> Follows(Media(r.seg.value), s)
    else LinkOk(r.tracks[0], Media(r.seg.value))
  }

  lemma NotLate(r: Rec, s: Sample)
    requires TracksOk(r.tracks) && 0 < |r.tracks| && r.seg.Some?
    requires SegOk(r.seg.value) && r.seg.value.rates == Rates(r.tracks)
    requires Media(r.seg.value) != [] && Follows(Media(r.seg.value), s)
    ensures r.seg.value.startDTS <= ToNanos(s.dts, r.tracks[0].rate)
  {
    var seg, l := r.seg.value, Last(Media(r.seg.value));
    assert l in VideoOf(AllParts(seg));
    MediaPlaced(AllParts(seg), seg.startDTS, seg.rates, l);
    MulDivMonotone(l.dts, s.dts, SECOND, r.tracks[0].rate);
  }

  /** After a sample was dealt with: the invariant's part about segments, and
      that losing the segment leaves the recorder waiting for a keyframe. */
  ghost predicate Stored(r1: Rec, r: Rec) {
    && r1.tracks == r.tracks && TracksOk(r1.tracks) && HistoryOk(r1) && CurrentOk(r1)
    && (r1.seg.None? ==> r1.resync)
    && r1 == r.(resync := r1.resync, seg := r1.seg, nextNumber := r1.nextNumber,
                ops := r1.ops, closed := r1.closed, reports := r1.reports)
  }

  /** What admitting s on track i made of r. */
  ghost predicate Admitted(r1: Rec, r: Rec, i: nat, s: Sample, gap: bool)
    requires Storing(r, i, s, gap)
  {
    && Storing(r1, i, s, gap) && Fits(r1, i, s)
    && r1.seg.Some? && r1.seg.value.startDTS <= ToNanos(s.dts, r.tracks[i].rate)
    && (i == 0 ==> Follows(Media(r1.seg.value), s))
    && r1 == r.(resync := r1.resync, seg := r1.seg, nextNumber := r1.nextNumber,
                ops := r1.ops, closed := r1.closed, reports := r1.reports)
  }

  lemma OpenedFor(r: Rec, i: nat, s: Sample, gap: bool, start: (int, int))
    requires Storing(r, i, s, gap) && r.seg.None?
    requires start.0 <= ToNanos(s.dts, r.tracks[i].rate)
    requires i == 0 ==> !s.nonSync
    ensures Admitted(OpenSegment(r, start), r, i, s, gap)
  {
    hide ToNanos;
    hide FileOk;
    OpenOk(r, start);
  }

  /** A sample arriving late never belongs to a run already under way. */
  lemma LateHasNoMedia(r: Rec, i: nat, s: Sample, gap: bool)
    requires Storing(r, i, s, gap) && Fits(r, i, s) && r.seg.Some? && i == 0
    requires ToNanos(s.dts, r.tracks[i].rate) < r.seg.value.startDTS
    ensures Media(r.seg.value) == []
  {
    hide ToNanos;
    hide Playable;
    hide HistoryOk;
    if Media(r.seg.value) != [] { NotLate(r, s); }
  }

  lemma CloseForVideo(disk: Disk, r: Rec, s: Sample, gap: bool, start: (int, int))
    requires Storing(r, 0, s, gap) && r.seg.Some? && !s.nonSync
    requires start.0 <= ToNanos(s.dts, r.tracks[0].rate)
    ensures Admitted(OpenSegment(CloseSegment(disk, r), start), r, 0, s, gap)
  {
    hide ToNanos;
    hide Playable;
    hide HistoryOk;
    hide OpenSegment;
    hide CloseSegment;
    CloseOk(disk, r);
    OpenedFor(CloseSegment(disk, r), 0, s, gap, start);
  }

  lemma OpenFacts(r: Rec, i: nat, s: Sample, gap: bool)
    requires Storing(r, i, s, gap) && Fits(r, i, s) && r.seg.Some?
    ensures ValidTracks(r.tracks) && (r.tracks[i].video <==> i == 0)
    ensures r.seg.value.hasVideo <==> Media(r.seg.value) != []
  {
    hide ToNanos;
    hide Playable;
    hide HistoryOk;
    hide Tracked;
    hide LinkOk;
  }

  lemma AdmitOpen(disk: Disk, r: Rec, i: nat, s: Sample, gap: bool, dts: int)
    requires Storing(r, i, s, gap) && Fits(r, i, s) && r.seg.Some? && dts == ToNanos(s.dts, r.tracks[i].rate)
    ensures var a := Admit(disk, r, i, s, dts, false);
      && (a.None? && i == 0 ==> Media(r.seg.value) == [])
      && (a.Some? ==> Admitted(a.value, r, i, s, gap))
  {
    hide ToNanos;
    hide Playable;
    hide HistoryOk;
    hide OpenSegment;
    hide CloseSegment;
    hide Rates;
    hide SegOk;
    hide TracksOk;
    hide Tracked;
    hide LinkOk;
    OpenFacts(r, i, s, gap);
    if dts < r.seg.value.startDTS {
      if i == 0 { LateHasNoMedia(r, i, s, gap); }
    } else if i == 0 && !r.seg.value.hasVideo {
      if !s.nonSync { AdmitFirst(disk, r, s, gap, dts); }
    }
  }

  /** The first video of an open segment, which may be closed for it. */
  lemma AdmitFirst(disk: Disk, r: Rec, s: Sample, gap: bool, dts: int)
    requires Storing(r, 0, s, gap) && Fits(r, 0, s) && r.seg.Some? && dts == ToNanos(s.dts, r.tracks[0].rate)
    requires ValidTracks(r.tracks) && r.tracks[0].video && !r.seg.value.hasVideo && !s.nonSync
    requires r.seg.value.startDTS <= dts && Media(r.seg.value) == []
    ensures var a := Admit(disk, r, 0, s, dts, false); a.Some? && Admitted(a.value, r, 0, s, gap)
  {
    hide ToNanos;
    hide OpenSegment;
    hide CloseSegment;
    hide Storing;
    var start := SegmentStart(r.tracks, 0, dts, s.ntp);
    StartNotAfter(r.tracks, |r.tracks|, 0, dts, s.ntp);
    CloseForVideo(disk, r, s, gap, start);
  }

  lemma AdmitOk(disk: Disk, r: Rec, i: nat, s: Sample, gap: bool, dts: int, audioOnly: bool)
    requires Storing(r, i, s, gap) && Fits(r, i, s) && dts == ToNanos(s.dts, r.tracks[i].rate)
    ensures var a := Admit(disk, r, i, s, dts, audioOnly);
      if a.None? then Stored(r, r) else Admitted(a.value, r, i, s, gap)
  {
    hide ToNanos;
    hide HistoryOk;
    if r.seg.None? {
      hide OpenSegment;
      var start := SegmentStart(r.tracks, i, dts, s.ntp);
      StartNotAfter(r.tracks, |r.tracks|, i, dts, s.ntp);
      var r1 := if r.resync && r.hasVideo then r.(resync := false) else r;
      assert HistoryOk(r1) by { HistoryFields(r1, r); }
      if i != 0 || !s.nonSync { OpenedFor(r1, i, s, gap, start); }
    } else {
      hide SegOk;
      hide CloseSegment;
      hide OpenSegment;
      hide Storing;
      AdmitOpen(disk, r, i, s, gap, dts);
      assert Admit(disk, r, i, s, dts, false) == Admit(disk, r, i, s, dts, audioOnly);
    }
  }

  lemma ClosedStored(disk: Disk, r: Rec)
    requires TracksOk(r.tracks) && HistoryOk(r) && r.seg.Some?
    requires Playable(AllParts(r.seg.value), r.seg.value.startDTS, r.seg.value.rates)
    ensures Stored(CloseSegment(disk, r).(resync := true), r)
  {
    hide Playable;
    hide CloseSegment;
    CloseOk(disk, r);
    HistoryFields(CloseSegment(disk, r).(resync := true), CloseSegment(disk, r));
  }

  lemma RotatedStored(disk: Disk, r: Rec, start: (int, int))
    requires TracksOk(r.tracks) && HistoryOk(r) && r.seg.Some? && 0 < |r.tracks| && r.cfg.record
    requires Playable(AllParts(r.seg.value), r.seg.value.startDTS, r.seg.value.rates)
    ensures Stored(OpenSegment(CloseSegment(disk, r), start), r)
  {
    hide Playable;
    hide CloseSegment;
    hide OpenSegment;
    CloseOk(disk, r);
    OpenOk(CloseSegment(disk, r), start);
  }

  lemma KeptStored(r: Rec, i: nat, s: Sample, gap: bool, seg: Segment, ops: nat)
    requires Storing(r, i, s, gap) && Fits(r, i, s) && r.seg.Some? && SegOk(seg)
    requires seg.rates == r.seg.value.rates && seg.number == r.seg.value.number
    requires Media(seg) == Media(r.seg.value) + if i == 0 then [s] else []
    requires !(gap && i == 0)
    ensures Stored(r.(seg := Some(seg), ops := ops), r)
  {
    hide Playable;
    hide ToNanos;
    if i == 0 {
      assert Last(Media(seg)) == s;
    } else {
      assert Media(seg) == Media(r.seg.value);
    }
  }

  lemma PersistOk(disk: Disk, r: Rec, i: nat, s: Sample, gap: bool, dts: int)
    requires Storing(r, i, s, gap) && Fits(r, i, s) && r.seg.Some?
    requires dts == ToNanos(s.dts, r.tracks[i].rate) && r.seg.value.startDTS <= dts
    requires i == 0 ==> Follows(Media(r.seg.value), s)
    ensures Stored(Persist(disk, r, i, s, gap, dts), r)
  {
    hide ToNanos;
    hide SegWrite;
    hide Playable;
    hide CloseSegment;
    hide OpenSegment;
    hide NextStart;
    hide Rotates;
    hide Stored;
    var t, seg := r.tracks[i], r.seg.value;
    SegWriteOk(r.cfg, disk, r.ops, seg, i, t, s, dts);
    var w := SegWrite(r.cfg, disk, r.ops, seg, i, t, s, dts);
    var r1 := r.(seg := Some(w.seg), ops := w.ops);
    assert HistoryOk(r1);
    if !w.ok || (gap && (!r.hasVideo || t.video)) {
      ClosedStored(disk, r1);
      StoredVia(Persist(disk, r, i, s, gap, dts), r1, r);
    } else if Rotates(r1, i, dts) {
      RotatedStored(disk, r1, NextStart(r.tracks));
      StoredVia(Persist(disk, r, i, s, gap, dts), r1, r);
    } else {
      KeptStored(r, i, s, gap, w.seg, w.ops);
    }
  }

  lemma StoredVia(r2: Rec, r1: Rec, r: Rec)
    requires Stored(r2, r1)
    requires r1 == r.(seg := r1.seg, ops := r1.ops)
    ensures Stored(r2, r)
  {
  }

  lemma StoreSampleOk(disk: Disk, r: Rec, i: nat, s: Sample, gap: bool, audioOnly: bool)
    requires Storing(r, i, s, gap) && Fits(r, i, s)
    ensures Stored(StoreSample(disk, r, i, s, gap, audioOnly), r)
  {
    hide Admit;
    hide Persist;
    hide HistoryOk;
    hide CurrentOk;
    var dts := ToNanos(s.dts, r.tracks[i].rate);
    AdmitOk(disk, r, i, s, gap, dts, audioOnly);
    var a := Admit(disk, r, i, s, dts, audioOnly);
    if a.Some? {
      PersistOk(disk, a.value, i, s, gap, dts);
    }
  }

  /** What a sample given to write() on track i must be like: the first one of a
      session is a keyframe when it is video. */
  ghost predicate MayStart(r: Rec, i: nat, smp: Sample)
    requires r.live ==> 0 < |r.tracks|
  {
    i == 0 && Unopened(r) && r.tracks[0].next.None? ==> !smp.nonSync
  }

  /** What write() leaves alone. */
  ghost predicate SameSession(r1: Rec, r: Rec, i: nat) {
    && r1.cfg == r.cfg && r1.live == r.live && r1.reordering == r.reordering
    && r1.videoStarted == r.videoStarted && r1.hasLastPTS == r.hasLastPTS && r1.extractor == r.extractor
    && |r1.tracks| == |r.tracks| && (forall j | 0 <= j < |r.tracks| && j != i :: r1.tracks[j] == r.tracks[j])
    && (Unopened(r1) ==> Unopened(r))
  }

  lemma TrackSet(tracks: seq<Track>, i: nat, t: Track)
    requires TracksOk(tracks) && i < |tracks| && TrackOk(t)
    requires t.rate == tracks[i].rate && t.video == tracks[i].video
    ensures TracksOk(tracks[i := t]) && Rates(tracks[i := t]) == Rates(tracks)
  {
  }

  /** A track's first sample waits in lookahead. */
  lemma HoldOk(r: Rec, i: nat, smp: Sample)
    requires Base(r) && r.live && i < |r.tracks| && MayStart(r, i, smp)
    requires Lookahead(r.tracks[i], smp).Hold?
    ensures var look := Lookahead(r.tracks[i], smp);
      var r1 := r.(hasVideo := r.hasVideo || r.tracks[i].video, tracks := r.tracks[i := look.track]);
      Base(r1) && SameSession(r1, r, i) && r1.tracks[i].next.Some?
  {
    hide ToNanos;
    hide SegOk;
    hide Lookahead;
    LookaheadOk(r.tracks[i], smp);
    var look := Lookahead(r.tracks[i], smp);
    TrackSet(r.tracks, i, look.track);
    var r1 := r.(hasVideo := r.hasVideo || r.tracks[i].video, tracks := r.tracks[i := look.track]);
    HistoryFields(r1, r);
    hide HistoryOk;
  }

  /** Ending the segment after a clock jump. */
  lemma JumpedOk(disk: Disk, r: Rec, i: nat, t: Track)
    requires Base(r) && r.live && i < |r.tracks|
    requires TrackOk(t) && t.rate == r.tracks[i].rate && t.video == r.tracks[i].video && t.next.Some?
    ensures var r1 := r.(hasVideo := r.hasVideo || r.tracks[i].video, tracks := r.tracks[i := t]);
      var r2 := CloseIfOpen(disk, r1).(resync := true);
      Base(r2) && SameSession(r2, r, i) && r2.tracks[i].next.Some?
  {
    hide SegOk;
    hide CloseIfOpen;
    hide HistoryOk;
    hide LinkOk;
    hide TrackOk;
    hide Rates;
    TrackSet(r.tracks, i, t);
    hide TracksOk;
    var r1 := r.(hasVideo := r.hasVideo || r.tracks[i].video, tracks := r.tracks[i := t]);
    HistoryFields(r1, r);
    CloseIfOpenOk(disk, r1);
    var r2 := CloseIfOpen(disk, r1);
    HistoryFields(r2.(resync := true), r2);
  }

  /** A clock jump ends the segment. */
  lemma JumpOk(disk: Disk, r: Rec, i: nat, smp: Sample)
    requires Base(r) && r.live && i < |r.tracks|
    requires Lookahead(r.tracks[i], smp).Jump?
    ensures var look := Lookahead(r.tracks[i], smp);
      var r1 := r.(hasVideo := r.hasVideo || r.tracks[i].video, tracks := r.tracks[i := look.track]);
      var r2 := CloseIfOpen(disk, r1).(resync := true);
      Base(r2) && SameSession(r2, r, i) && r2.tracks[i].next.Some?
  {
    hide Lookahead;
    hide CloseIfOpen;
    hide HistoryOk;
    LookaheadOk(r.tracks[i], smp);
    hide LinkOk;
    hide Drifted;
    hide TrackOk;
    hide Base;
    hide SameSession;
    JumpedOk(disk, r, i, Lookahead(r.tracks[i], smp).track);
  }

  lemma CloseIfOpenOk(disk: Disk, r: Rec)
    requires HistoryOk(r)
    requires r.seg.Some? ==> SegOk(r.seg.value)
    ensures var r1 := CloseIfOpen(disk, r);
      && HistoryOk(r1) && r1.seg.None?
      && r1 == r.(seg := None, ops := r1.ops, closed := r1.closed, reports := r1.reports)
  {
    hide Playable;
    hide CloseSegment;
    hide HistoryOk;
    if r.seg.Some? { CloseOk(disk, r); }
  }

  lemma FinalStored(disk: Disk, r: Rec, i: nat, smp: Sample, audioOnly: bool)
    requires Base(r) && r.live && i < |r.tracks| && r.cfg.record
    requires Lookahead(r.tracks[i], smp).Final?
    ensures var look := Lookahead(r.tracks[i], smp);
      var r1 := r.(hasVideo := r.hasVideo || r.tracks[i].video, tracks := r.tracks[i := look.track]);
      Storing(r1, i, look.sample, look.gap) && Fits(r1, i, look.sample)
  {
    hide ToNanos;
    hide Playable;
    hide Lookahead;
    LookaheadOk(r.tracks[i], smp);
    var look := Lookahead(r.tracks[i], smp);
    TrackSet(r.tracks, i, look.track);
    var r1 := r.(hasVideo := r.hasVideo || r.tracks[i].video, tracks := r.tracks[i := look.track]);
    HistoryFields(r1, r);
  }

  /** Storing a finalized sample, seen from before the lookahead. */
  lemma StoredBase(r2: Rec, r1: Rec, r: Rec, i: nat, t: Track)
    requires Base(r) && r.live && i < |r.tracks| && t.next.Some?
    requires r1 == r.(hasVideo := r1.hasVideo, tracks := r.tracks[i := t])
    requires Stored(r2, r1)
    ensures Base(r2) && SameSession(r2, r, i) && r2.tracks[i].next.Some?
  {
    hide HistoryOk;
    hide CurrentOk;
    hide TrackOk;
  }

  /** Without recording there is never a segment. */
  lemma LiveOnlyBase(r: Rec, i: nat, t: Track, hasVideo: bool)
    requires Base(r) && r.live && i < |r.tracks| && !r.cfg.record && t.next.Some? && TrackOk(t)
    requires t.rate == r.tracks[i].rate && t.video == r.tracks[i].video
    ensures var r1 := r.(hasVideo := hasVideo, tracks := r.tracks[i := t]);
      Base(r1) && SameSession(r1, r, i) && r1.tracks[i].next.Some?
  {
    hide TrackOk;
    HistoryFields(r.(hasVideo := hasVideo, tracks := r.tracks[i := t]), r);
    hide HistoryOk;
    assert r.seg.None?;
  }

  lemma FinalOk(disk: Disk, r: Rec, i: nat, smp: Sample, audioOnly: bool)
    requires Base(r) && r.live && i < |r.tracks|
    requires Lookahead(r.tracks[i], smp).Final?
    ensures var r1 := Write(disk, r, i, smp, audioOnly);
      Base(r1) && SameSession(r1, r, i) && r1.tracks[i].next.Some?
  {
    LookaheadOk(r.tracks[i], smp);
    var look := Lookahead(r.tracks[i], smp);
    assert look.track.next.Some? && TrackOk(look.track);
    var r1 := r.(hasVideo := r.hasVideo || r.tracks[i].video, tracks := r.tracks[i := look.track]);
    TrackSet(r.tracks, i, look.track);
    assert Valid(r1) && r1.tracks[i].next.Some?;
    hide *;
    if r.cfg.record {
      FinalStored(disk, r, i, smp, audioOnly);
      StoreSampleOk(disk, r1, i, look.sample, look.gap, audioOnly);
      StoredBase(StoreSample(disk, r1, i, look.sample, look.gap, audioOnly), r1, r, i, look.track);
    } else {
      LiveOnlyStores(disk, r1, i, look.sample, look.gap, audioOnly);
      LiveOnlyBase(r, i, look.track, r1.hasVideo);
    }
    assert Write(disk, r, i, smp, audioOnly) == StoreSample(disk, r1, i, look.sample, look.gap, audioOnly) by {
      WriteFinal(disk, r, i, smp, audioOnly);
    }
  }

  lemma WriteFinal(disk: Disk, r: Rec, i: nat, smp: Sample, audioOnly: bool)
    requires Valid(r) && i < |r.tracks| && Lookahead(r.tracks[i], smp).Final?
    ensures var look := Lookahead(r.tracks[i], smp);
      var r1 := r.(hasVideo := r.hasVideo || r.tracks[i].video, tracks := r.tracks[i := look.track]);
      Valid(r1) && r1.tracks[i].next.Some? &&
      Write(disk, r, i, smp, audioOnly) == StoreSample(disk, r1, i, look.sample, look.gap, audioOnly)
  {
    hide StoreSample;
  }

  lemma WriteOk(disk: Disk, r: Rec, i: nat, smp: Sample, audioOnly: bool)
    requires Base(r) && r.live && i < |r.tracks| && MayStart(r, i, smp)
    ensures var r1 := Write(disk, r, i, smp, audioOnly);
      Base(r1) && SameSession(r1, r, i) && r1.tracks[i].next.Some?
  {
    assert ValidTrack(r.tracks[i]);
    hide Base;
    hide MayStart;
    hide SameSession;
    hide Lookahead;
    hide StoreSample;
    hide CloseIfOpen;
    match Lookahead(r.tracks[i], smp)
    case Hold(_) => HoldOk(r, i, smp);
    case Jump(_) => JumpOk(disk, r, i, smp);
    case Final(_, _, _) => FinalOk(disk, r, i, smp, audioOnly);
  }

  lemma LiveOnlyStores(disk: Disk, r: Rec, i: nat, s: Sample, gap: bool, audioOnly: bool)
    requires Valid(r) && i < |r.tracks| && r.tracks[i].next.Some? && !r.cfg.record
    ensures StoreSample(disk, r, i, s, gap, audioOnly) == r
  {
  }

  // ----- steps and runs -----

  /** videoDecodeTime finds the video clock gone back: a resync. */
  lemma ClockBackOk(disk: Disk, r: Rec)
    requires Base(r) && r.live && !r.reordering
    ensures var r1 := DropTimeBase(disk, r);
      && TracksOk(r1.tracks) && HistoryOk(r1) && CurrentOk(r1) && r1.seg.None? && r1.resync
      && r1.live && r1.cfg == r.cfg && |r1.tracks| == |r.tracks| && !r1.reordering && r1.videoStarted == r.videoStarted
  {
    CloseIfOpenOk(disk, r);
    TrackSet(r.tracks, 0, r.tracks[0].(next := None, anchored := false));
    HistoryFields(DropTimeBase(disk, r), CloseIfOpen(disk, r));
    hide HistoryOk;
    hide SegOk;
    hide CloseIfOpen;
  }

  lemma FlagsOk(r1: Rec, r: Rec)
    requires Base(r)
    requires r1 == r.(reordering := r1.reordering, videoStarted := r1.videoStarted, hasLastPTS := r1.hasLastPTS,
                      lastPTS := r1.lastPTS, extractor := r1.extractor)
    requires r.live && !r1.reordering ==> r1.hasLastPTS == r1.videoStarted
    ensures Base(r1)
  {
    HistoryFields(r1, r);
    hide HistoryOk;
    hide SegOk;
  }

  lemma PtsWentBackOk(disk: Disk, r: Rec, pic: Picture)
    requires Inv(r) && r.live && !r.reordering && r.videoStarted && r.hasLastPTS
    ensures var (r1, dts) := PtsWentBack(disk, r, pic);
      && Base(r1) && r1.live && |r1.tracks| == |r.tracks|
      && (if dts.None? then Fresh(r1) else MayStart(r1, 0, VideoSample(pic, dts.value)))
  {
    hide ToNanos;
    var (r1, dts) := PtsWentBack(disk, r, pic);
    if !r1.reordering {
      ClockBackOk(disk, r);
      HistoryFields(r1, DropTimeBase(disk, r));
      hide HistoryOk;
      hide SegOk;
      hide DropTimeBase;
    } else {
      FlagsOk(r1, r);
      hide Base;
      hide DropTimeBase;
    }
  }

  lemma TimeFromPtsOk(disk: Disk, r: Rec, pic: Picture)
    requires Inv(r) && r.live && !r.reordering
    ensures var (r1, dts) := TimeFromPts(disk, r, pic);
      && Base(r1) && r1.live && |r1.tracks| == |r.tracks|
      && (if dts.None? then Fresh(r1) else MayStart(r1, 0, VideoSample(pic, dts.value)))
  {
    hide ToNanos;
    hide PtsWentBack;
    hide VideoSample;
    if r.hasLastPTS && pic.pts < r.lastPTS {
      assert r.videoStarted;
      assert r.(videoStarted := true) == r;
      PtsWentBackOk(disk, r, pic);
      hide Base;
    } else {
      FlagsOk(TimeFromPts(disk, r, pic).0, r);
      hide Base;
      assert forall d :: VideoSample(pic, d).nonSync == !pic.randomAccess by { SampleSync(pic); }
    }
  }

  lemma SampleSync(pic: Picture)
    ensures forall d :: VideoSample(pic, d).nonSync == !pic.randomAccess
  {
  }

  lemma DecodeTimeOk(disk: Disk, r: Rec, pic: Picture)
    requires Inv(r) && r.live
    ensures var (r1, dts) := DecodeTime(disk, r, pic);
      && Base(r1) && r1.live && |r1.tracks| == |r.tracks|
      && (if dts.None? then Fresh(r1) else MayStart(r1, 0, VideoSample(pic, dts.value)))
  {
    if r.reordering {
      FlagsOk(TimeFromExtractor(r, pic).0, r);
      hide Base;
      hide ToNanos;
    } else {
      TimeFromPtsOk(disk, r, pic);
      hide TimeFromPts;
      hide Base;
    }
  }

  lemma WriteVideoOk(disk: Disk, r: Rec, pic: Picture)
    requires Inv(r) && r.live
    ensures Inv(WriteVideo(disk, r, pic))
  {
    DecodeTimeOk(disk, r, pic);
    hide DecodeTime;
    hide Write;
    hide HistoryOk;
    hide CurrentOk;
    hide TrackOk;
    var (r1, dts) := DecodeTime(disk, r, pic);
    if dts.Some? {
      WriteOk(disk, r1, 0, VideoSample(pic, dts.value), false);
    }
  }

  lemma WriteAudioOk(disk: Disk, r: Rec, i: nat, s: Sample, mayStart: bool, audioOnly: bool)
    requires Inv(r) && r.live && 0 < i < |r.tracks|
    ensures Inv(WriteAudio(disk, r, i, s, mayStart, audioOnly))
  {
    hide Write;
    hide HistoryOk;
    hide CurrentOk;
    hide TrackOk;
    if r.videoStarted || mayStart {
      WriteOk(disk, r, i, s, audioOnly);
    }
  }

  lemma HangupOk(disk: Disk, r: Rec)
    requires Inv(r)
    ensures Inv(CloseIfOpen(disk, r).(live := false))
  {
    hide CloseIfOpen;
    hide HistoryOk;
    hide SegOk;
    hide TrackOk;
    hide LinkOk;
    CloseIfOpenOk(disk, r);
    var r1 := CloseIfOpen(disk, r);
    HistoryFields(r1.(live := false), r1);
  }

  lemma ConnectOk(r: Rec, rates: seq<int>)
    requires Inv(r)
    requires |rates| > 0 && forall i | 0 <= i < |rates| :: 0 < rates[i] <= MAX_RATE
    ensures Inv(Reconnect(r, rates))
  {
    AbandonOk(r);
    var r1 := Abandon(r);
    HistoryFields(Reconnect(r, rates), r1);
    assert r1.seg.None?;
    hide Abandon;
    hide HistoryOk;
    hide SegOk;
  }

  /** A segment left open keeps a playable file. */
  lemma AbandonOk(r: Rec)
    requires HistoryOk(r) && (r.seg.Some? ==> SegOk(r.seg.value))
    ensures HistoryOk(Abandon(r))
  {
    hide Playable;
    hide Tracked;
    hide AllParts;
    hide VideoOf;
    if r.seg.Some? { WrittenOk(r.seg.value); }
  }

  /** Every step keeps the invariant, whatever the samples, clocks and disk do. */
  lemma StepKeepsInv(disk: Disk, r: Rec, ev: Event)
    requires Inv(r)
    ensures Inv(Step(disk, r, ev))
  {
    hide HistoryOk;
    hide CurrentOk;
    hide TrackOk;
    hide WriteVideo;
    hide WriteAudio;
    hide CloseIfOpen;
    hide Reconnect;
    assert Valid(r) by { ValidTracksOf(r); }
    if EventOk(r, ev) {
      match ev
      case Video(pic) => if r.live { WriteVideoOk(disk, r, pic); }
      case Audio(i, s, mayStart, audioOnly) => if r.live { WriteAudioOk(disk, r, i, s, mayStart, audioOnly); }
      case Hangup => HangupOk(disk, r);
      case Connect(rates) => ConnectOk(r, rates);
    }
  }

  lemma ValidTracksOf(r: Rec)
    requires TracksOk(r.tracks)
    ensures Valid(r)
  {
  }

  /** The recorder after a sequence of events. */
  function Run(disk: Disk, r: Rec, events: seq<Event>): (r1: Rec)
    requires Inv(r)
    ensures Inv(r1)
    decreases |events|
  {
    if events == [] then r
    else
      ValidTracksOf(r);
      StepKeepsInv(disk, r, events[0]);
      Run(disk, Step(disk, r, events[0]), events[1..])
  }

  /** A recorder that ran from its start. */
  function After(disk: Disk, cfg: Config, events: seq<Event>): (r: Rec)
    ensures Inv(r)
  {
    Run(disk, Initial(cfg), events)
  }

  /** The segments written to so far: those done with, and the one still open. */
  function Files(r: Rec): seq<Segment> {
    r.closed + if r.seg.Some? then [r.seg.value] else []
  }

  /** What the open segment's file already holds is playable too. */
  lemma FilesOk(r: Rec, k: nat)
    requires Inv(r) && k < |Files(r)|
    ensures FileOk(Files(r)[k])
  {
    hide Tracked;
    hide FileOk;
    hide Playable;
    hide AllParts;
    if r.seg.Some? { WrittenOk(r.seg.value); }
  }

  /** Over every run of any number of sessions: each file's video is one unbroken
      run, wherever the recorder is stopped. It starts on a keyframe; every next
      sample is the track's next one and decodes exactly where the one before it
      ends; none lies before the segment's start; none is longer than five seconds. */
  lemma EveryFileIsPlayable(disk: Disk, cfg: Config, events: seq<Event>, k: nat, j: nat)
    requires k < |Files(After(disk, cfg, events))|
    requires j < |VideoOf(Files(After(disk, cfg, events))[k].written)|
    ensures var seg := Files(After(disk, cfg, events))[k];
      var v := VideoOf(seg.written);
      && !v[0].nonSync
      && (j > 0 ==> v[j].n == v[j - 1].n + 1 && v[j].dts == v[j - 1].dts + v[j - 1].duration)
      && 0 < |seg.rates| && 0 < seg.rates[0]
      && seg.startDTS <= ToNanos(v[j].dts, seg.rates[0])
      && v[j].duration <= 5 * seg.rates[0]
  {
    var seg := Files(After(disk, cfg, events))[k];
    var v := VideoOf(seg.written);
    FilesOk(After(disk, cfg, events), k);
    hide After;
    hide Inv;
    hide Files;
    UnbrokenSamples(v, j);
    VideoRate(seg.written, seg.startDTS, seg.rates, v[j]);
  }

  lemma {:induction false} VideoRate(parts: seq<Part>, start: int, rates: seq<int>, s: Sample)
    requires AllPlaced(parts, start, rates) && s in VideoOf(parts)
    ensures 0 < |rates| && 0 < rates[0] && start <= ToNanos(s.dts, rates[0]) && s.duration <= 5 * rates[0]
  {
    var init, p := parts[..|parts| - 1], Last(parts);
    if s in VideoOf(init) {
      VideoRate(init, start, rates, s);
    } else {
      assert s in PartVideo(p) && Placed(p, start, rates);
    }
  }

  /** The same for every track: each fragment's base time is its first sample's
      exact offset from the segment start, never clamped. */
  lemma EveryBaseTimeIsExact(disk: Disk, cfg: Config, events: seq<Event>, k: nat, p: Part, i: nat, s: Sample)
    requires k < |Files(After(disk, cfg, events))|
    requires p in Files(After(disk, cfg, events))[k].written
    requires i in p.tracks && s in p.tracks[i].samples
    ensures var seg := Files(After(disk, cfg, events))[k];
      && i < |seg.rates| && 0 < seg.rates[i]
      && p.tracks[i].base == ToTicks(ToNanos(p.tracks[i].samples[0].dts, seg.rates[i]) - seg.startDTS, seg.rates[i])
      && seg.startDTS <= ToNanos(s.dts, seg.rates[i]) && s.duration <= 5 * seg.rates[i]
  {
    hide ToNanos;
    hide ToTicks;
    hide After;
    hide Unbroken;
    var seg := Files(After(disk, cfg, events))[k];
    FilesOk(After(disk, cfg, events), k);
    hide Inv;
    hide Files;
    assert Placed(p, seg.startDTS, seg.rates);
  }

  /** Across every run the closed segments carry the numbers 0, 1, 2, ... in
      order, at most one more is open, and no segment is reported twice. */
  lemma SegmentsNumberedOnce(disk: Disk, cfg: Config, events: seq<Event>)
    ensures var r := Run(disk, Initial(cfg), events);
      && (forall k | 0 <= k < |r.closed| :: r.closed[k].number == k)
      && r.nextNumber == |r.closed| + (if r.seg.Some? then 1 else 0)
      && (r.seg.Some? ==> r.seg.value.number == |r.closed|)
      && (forall j, k | 0 <= j < k < |r.reports| :: r.reports[j].number < r.reports[k].number < |r.closed|)
  {
    var r := Run(disk, Initial(cfg), events);
    assert HistoryOk(r);
  }

  // ----- where a segment starts -----

  lemma {:induction false} NewestBounds(tracks: seq<Track>, k: nat, j: nat)
    requires ValidTracks(tracks) && j < k <= |tracks|
    ensures NewestPending(tracks, k) >= 0
    ensures Pending(tracks[j]).Some? ==> Pending(tracks[j]).value <= NewestPending(tracks, k)
  {
    if k - 1 > 0 { NewestBounds(tracks, k - 1, if j < k - 1 then j else 0); }
  }

  lemma {:induction false} OldestBounds(tracks: seq<Track>, k: nat, newest: int, j: nat)
    requires ValidTracks(tracks) && j < k <= |tracks|
    ensures newest - MAX_BASETIME <= OldestPending(tracks, k, newest).0 <= newest
    ensures Pending(tracks[j]).Some? && newest - Pending(tracks[j]).value <= MAX_BASETIME
            ==> OldestPending(tracks, k, newest).0 <= Pending(tracks[j]).value || Pending(tracks[j]).value > newest
  {
    if k - 1 > 0 { OldestBounds(tracks, k - 1, newest, if j < k - 1 then j else 0); }
  }

  /** A sample pending at a rotation is early enough for the new segment exactly
      when it lies within one second of the newest pending sample (of zero, when
      all are negative); any other is discarded as late. */
  lemma RotationKeepsPending(tracks: seq<Track>, j: nat)
    requires ValidTracks(tracks) && j < |tracks| && Pending(tracks[j]).Some?
    ensures var d := Pending(tracks[j]).value;
      NextStart(tracks).0 <= d <==> NewestPending(tracks, |tracks|) - d <= MAX_BASETIME
  {
    NewestBounds(tracks, |tracks|, j);
    OldestBounds(tracks, |tracks|, NewestPending(tracks, |tracks|), j);
  }

  /** With no negative decode time pending, the rotated segment starts on a
      pending sample, at its wall clock. */
  lemma {:induction false} RotationStartIsPending(tracks: seq<Track>, k: nat, newest: int)
    requires ValidTracks(tracks) && k <= |tracks|
    requires forall j | 0 <= j < k && Pending(tracks[j]).Some? :: 0 <= Pending(tracks[j]).value
    requires exists j | 0 <= j < k :: Pending(tracks[j]).Some?
    requires newest == NewestPending(tracks, k)
    ensures exists j | 0 <= j < k :: StartsOn(tracks[j], OldestPending(tracks, k, newest))
  {
    hide ToNanos;
    NewestAttained(tracks, k);
    var j :| 0 <= j < k && Pending(tracks[j]) == Some(newest);
    forall i | 0 <= i < k ensures Pending(tracks[i]).None? || Pending(tracks[i]).value <= newest {
      NewestBounds(tracks, k, i);
    }
    OldestAttained(tracks, k, newest);
  }

  ghost predicate StartsOn(t: Track, start: (int, int))
    requires ValidTrack(t)
  {
    Pending(t) == Some(start.0) && t.next.value.ntp == start.1
  }

  lemma {:induction false} NewestAttained(tracks: seq<Track>, k: nat)
    requires ValidTracks(tracks) && k <= |tracks|
    requires forall j | 0 <= j < k && Pending(tracks[j]).Some? :: 0 <= Pending(tracks[j]).value
    ensures (exists j | 0 <= j < k :: Pending(tracks[j]) == Some(NewestPending(tracks, k)))
         || (NewestPending(tracks, k) == 0 && forall j | 0 <= j < k :: Pending(tracks[j]).None?)
  {
    if k > 0 {
      NewestAttained(tracks, k - 1);
      if Pending(tracks[k - 1]) != Some(NewestPending(tracks, k)) {
        assert NewestPending(tracks, k) == NewestPending(tracks, k - 1);
      }
    }
  }

  lemma {:induction false} OldestAttained(tracks: seq<Track>, k: nat, newest: int)
    requires ValidTracks(tracks) && k <= |tracks|
    requires forall j | 0 <= j < k :: Pending(tracks[j]).None? || Pending(tracks[j]).value <= newest
    ensures if exists j | 0 <= j < k :: Pending(tracks[j]).Some? && newest - Pending(tracks[j]).value <= MAX_BASETIME
            then exists i | 0 <= i < k :: StartsOn(tracks[i], OldestPending(tracks, k, newest))
            else OldestPending(tracks, k, newest) == (newest, 0)
  {
    hide ToNanos;
    if k > 0 {
      OldestAttained(tracks, k - 1, newest);
      var o, before := Pending(tracks[k - 1]), OldestPending(tracks, k - 1, newest);
      if o.Some? && newest - o.value <= MAX_BASETIME && o.value <= before.0 {
        assert StartsOn(tracks[k - 1], OldestPending(tracks, k, newest));
      } else {
        assert OldestPending(tracks, k, newest) == before;
      }
    }
  }
}
