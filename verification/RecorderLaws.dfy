/** Which samples the recorder stores and in which segment, and when a segment
    ends. Segments are counted in the order they were opened: the k-th closed one,
    then the open one. */
module RecorderLaws {
  import opened Wrappers
  import opened Clock
  import opened RecorderSpec
  import opened RecorderProofs

  function Time(r: Rec, i: nat, s: Sample): int
    requires Valid(r) && i < |r.tracks|
  {
    ToNanos(s.dts, r.tracks[i].rate)
  }

  /** An open segment takes what does not lie before it, but no video before a
      keyframe. Without one, what lost the last segment decides: with video it takes
      a keyframe, or audio while the video is down, to open the next. */
  predicate Wanted(r: Rec, i: nat, s: Sample, audioOnly: bool)
    requires Valid(r) && i < |r.tracks|
  {
    match r.seg
    case Some(seg) => seg.startDTS <= Time(r, i, s) && (r.tracks[i].video && s.nonSync ==> seg.hasVideo)
    case None => r.resync && r.hasVideo ==> if r.tracks[i].video then !s.nonSync else audioOnly
  }

  /** Video that comes more than five seconds into a segment without any. */
  predicate Restarts(r: Rec, i: nat, s: Sample)
    requires Valid(r) && i < |r.tracks|
  {
    r.seg.Some? && r.tracks[i].video && !r.seg.value.hasVideo && Time(r, i, s) - r.seg.value.startDTS > 5 * SECOND
  }

  /** The open segment's current part, unless it is long enough already. */
  function Building(r: Rec): Option<Part> {
    if r.seg.Some? && r.seg.value.cur.Some?
       && r.seg.value.cur.value.endDTS - r.seg.value.cur.value.startDTS < r.cfg.partDuration
    then r.seg.value.cur else None
  }

  predicate TooLarge(r: Rec, already: nat, s: Sample) {
    r.cfg.maxPartSize > 0 && already + s.size > r.cfg.maxPartSize
  }

  predicate FlushFails(io: Io, seg: Segment) {
    !io.write || (!seg.file && !io.create)
  }

  /** The part is too large with s in it, or the one before it cannot be written. */
  predicate Fails(disk: Disk, r: Rec, i: nat, s: Sample)
    requires Valid(r) && i < |r.tracks|
  {
    if r.seg.None? || Restarts(r, i, s) then TooLarge(r, 0, s)
    else if Building(r).Some? then TooLarge(r, Building(r).value.size, s)
    else TooLarge(r, 0, s) || (r.seg.value.cur.Some? && FlushFails(disk(r.ops), r.seg.value))
  }

  /** The segment s belongs to. */
  function Home(r: Rec, i: nat, s: Sample): nat
    requires Valid(r) && i < |r.tracks|
  {
    if Restarts(r, i, s) then |r.closed| + 1 else |r.closed|
  }

  /** Sample s of track i is in segment k: in its file, or in the part the open
      segment still builds. */
  ghost predicate InFile(r: Rec, k: nat, i: nat, s: Sample) {
    if k < |r.closed| then Has(r.closed[k].written, i, s)
    else k == |r.closed| && r.seg.Some? && Has(AllParts(r.seg.value), i, s)
  }

  /** Segment k itself. */
  function FileOf(r: Rec, k: nat): Segment
    requires Filed(r, k)
  {
    if k < |r.closed| then r.closed[k] else r.seg.value
  }

  predicate Filed(r: Rec, k: nat) {
    k < |r.closed| || (k == |r.closed| && r.seg.Some?)
  }

  predicate SameHead(a: Segment, b: Segment) {
    a.startDTS == b.startDTS && a.startNTP == b.startNTP && a.number == b.number && a.rates == b.rates
  }

  ghost predicate Working(disk: Disk) {
    forall n :: disk(n).create && disk(n).write
  }

  /** Segments closed before stay as they are; tracks and flags are not touched. */
  predicate Extends(r1: Rec, r: Rec) {
    && r1 == r.(resync := r1.resync, seg := r1.seg, nextNumber := r1.nextNumber, ops := r1.ops, closed := r1.closed,
                reports := r1.reports)
    && |r.closed| <= |r1.closed| && r1.closed[..|r.closed|] == r.closed
  }

  // ----- a write into the open segment -----

  predicate SegFails(cfg: Config, io: Io, seg: Segment, s: Sample) {
    if seg.cur.Some? && seg.cur.value.endDTS - seg.cur.value.startDTS < cfg.partDuration
    then cfg.maxPartSize > 0 && seg.cur.value.size + s.size > cfg.maxPartSize
    else (cfg.maxPartSize > 0 && s.size > cfg.maxPartSize) || (seg.cur.Some? && FlushFails(io, seg))
  }

  lemma SegWriteFails(cfg: Config, disk: Disk, ops: nat, seg: Segment, i: nat, t: Track, s: Sample, dts: int)
    requires t.rate > 0
    ensures SegWrite(cfg, disk, ops, seg, i, t, s, dts).ok <==> !SegFails(cfg, disk(ops), seg, s)
  {
    hide ToNanos;
    hide PartAdd;
  }

  /** A write that fails adds nothing, and only a failing disk loses anything. */
  lemma FailedAdds(cfg: Config, disk: Disk, ops: nat, seg: Segment, i: nat, t: Track, s: Sample, dts: int)
    requires t.rate > 0 && !SegWrite(cfg, disk, ops, seg, i, t, s, dts).ok
    ensures var seg1 := SegWrite(cfg, disk, ops, seg, i, t, s, dts).seg;
      && (forall j, u :: Has(AllParts(seg1), j, u) ==> Has(AllParts(seg), j, u))
      && (disk(ops).create && disk(ops).write ==> forall j, u :: Has(AllParts(seg), j, u) ==> Has(AllParts(seg1), j, u))
  {
    hide ToNanos;
    hide PartAdd;
    var o := Observe(seg, t.video, t.rate, s, dts);
    assert AllParts(o) == AllParts(seg);
    NewPartHas(o, dts);
    if o.cur.Some? {
      var seg2 := Flush(disk(ops), o).0;
      NewPartHas(seg2, dts);
      FewerHas(o.written, AllParts(o));
    }
    hide NewPart;
    hide Has;
  }

  lemma FewerHas(parts: seq<Part>, more: seq<Part>)
    requires parts <= more
    ensures forall j, u :: Has(parts, j, u) ==> Has(more, j, u)
  {
    hide InPart;
    forall j, u | Has(parts, j, u) ensures Has(more, j, u) {
      var p :| p in parts && InPart(p, j, u);
      assert p in more;
    }
  }

  // ----- closing -----

  /** The file of a closed segment holds at most what the segment held, and all of
      it when the disk takes the last part. */
  lemma ClosedHolds(io: Io, seg: Segment)
    ensures var written := SegClose(io, seg).0.written;
      && (forall j, u :: Has(written, j, u) ==> Has(AllParts(seg), j, u))
      && (io.create && io.write ==> written == AllParts(seg))
  {
    FewerHas(seg.written, AllParts(seg));
    hide Has;
  }

  lemma CloseExactly(disk: Disk, r: Rec)
    requires r.seg.Some?
    ensures var r1, k := CloseSegment(disk, r), |r.closed|;
      && r1.seg.None? && r1.resync == r.resync && r1.nextNumber == r.nextNumber
      && |r1.closed| == k + 1 && Extends(r1, r) && SameHead(r1.closed[k], r.seg.value)
      && (forall j, u :: InFile(r1, k, j, u) ==> InFile(r, k, j, u))
      && (Working(disk) ==> forall j, u :: InFile(r, k, j, u) ==> InFile(r1, k, j, u))
  {
    ClosedHolds(disk(r.ops), r.seg.value);
    hide SegClose;
    hide Has;
    hide AllParts;
  }

  lemma OpenExactly(r: Rec, start: (int, int))
    requires r.seg.None?
    ensures var r1, k := OpenSegment(r, start), |r.closed|;
      && r1 == r.(seg := r1.seg, nextNumber := r1.nextNumber) && r1.seg.Some?
      && (r1.seg.value.startDTS, r1.seg.value.startNTP) == start
      && r1.seg.value.number == r.nextNumber && r1.seg.value.rates == Rates(r.tracks)
      && !r1.seg.value.hasVideo && r1.seg.value.cur.None? && AllParts(r1.seg.value) == []
      && (forall j, u :: !InFile(r1, k, j, u))
      && (forall n: nat, j, u | n < k :: InFile(r1, n, j, u) == InFile(r, n, j, u))
  {
    var r1 := OpenSegment(r, start);
    assert forall j, u :: !Has(AllParts(r1.seg.value), j, u);
    hide Has;
  }

  /** What ends a segment once s of track i is in it: a stall of the video, or of any
      track when there is no video. */
  predicate Stalls(r: Rec, i: nat, gap: bool)
    requires i < |r.tracks|
  {
    gap && (r.tracks[i].video || !r.hasVideo)
  }

  /** Otherwise the next segment starts at a keyframe of the video, or of any track
      when the video is missing for over five seconds, that is far enough from the
      segment's start. */
  predicate Due(r: Rec, i: nat, s: Sample, start: int, videoEnd: int)
    requires Valid(r) && i < |r.tracks| && r.tracks[i].next.Some?
  {
    var next := r.tracks[i].next.value;
    && !next.nonSync && Time(r, i, next) >= start + r.cfg.segmentDuration
    && (r.tracks[i].video || !r.hasVideo || Time(r, i, s) > videoEnd + 5 * SECOND)
  }

  function VideoEnd(r: Rec): int
    requires r.seg.Some?
  {
    if r.seg.value.hasVideo then r.seg.value.videoEndDTS else r.seg.value.startDTS
  }

  /** What becomes of the segment with number k that s is in. */
  predicate Goes(r1: Rec, r: Rec, k: nat, i: nat, s: Sample, gap: bool, start: int, videoEnd: int)
    requires Valid(r) && i < |r.tracks| && r.tracks[i].next.Some?
  {
    if Stalls(r, i, gap) then r1.seg.None? && r1.resync && |r1.closed| == k + 1
    else if Due(r, i, s, start, videoEnd) then
      && r1.seg.Some? && r1.resync == r.resync && |r1.closed| == k + 1
      && (r1.seg.value.startDTS, r1.seg.value.startNTP) == NextStart(r.tracks) && AllParts(r1.seg.value) == []
      && r1.seg.value.rates == Rates(r.tracks)
    else r1.seg.Some? && r1.resync == r.resync && |r1.closed| == k && r1.seg.value.startDTS == start
  }

  lemma SegWriteHead(cfg: Config, disk: Disk, ops: nat, seg: Segment, i: nat, t: Track, s: Sample, dts: int)
    requires t.rate > 0
    ensures SameHead(SegWrite(cfg, disk, ops, seg, i, t, s, dts).seg, seg)
  {
    hide ToNanos;
    hide PartAdd;
  }

  /** The segment is closed, and maybe another one opened. */
  ghost predicate Finished(disk: Disk, r1: Rec, r: Rec) {
    var k := |r.closed|;
    && r.seg.Some? && Extends(r1, r) && |r1.closed| == k + 1 && SameHead(r1.closed[k], r.seg.value)
    && (forall j, u :: InFile(r1, k, j, u) ==> InFile(r, k, j, u))
    && (Working(disk) ==> forall j, u :: InFile(r, k, j, u) ==> InFile(r1, k, j, u))
  }

  lemma CloseFinished(disk: Disk, r: Rec)
    requires r.seg.Some?
    ensures Finished(disk, CloseSegment(disk, r).(resync := true), r)
  {
    CloseExactly(disk, r);
    ResyncSame(CloseSegment(disk, r));
    hide CloseSegment;
    hide InFile;
  }

  lemma RotateFinished(disk: Disk, r: Rec, start: (int, int))
    requires r.seg.Some?
    ensures var r1 := OpenSegment(CloseSegment(disk, r), start);
      && Finished(disk, r1, r) && r1.seg.Some? && r1.resync == r.resync && AllParts(r1.seg.value) == []
      && (r1.seg.value.startDTS, r1.seg.value.startNTP) == start && r1.seg.value.rates == Rates(r.tracks)
  {
    CloseExactly(disk, r);
    OpenExactly(CloseSegment(disk, r), start);
    hide CloseSegment;
    hide OpenSegment;
    hide InFile;
  }

  lemma FinishExactly(disk: Disk, r: Rec, i: nat, ok: bool, gap: bool, s: Sample)
    requires Valid(r) && i < |r.tracks| && r.seg.Some? && r.tracks[i].next.Some?
    ensures var r1 := FinishWrite(disk, r, i, ok, gap, Time(r, i, s));
      && Extends(r1, r) && Filed(r1, |r.closed|) && SameHead(FileOf(r1, |r.closed|), r.seg.value)
      && (!ok ==> r1.seg.None? && r1.resync && |r1.closed| == |r.closed| + 1)
      && (ok ==> Goes(r1, r, |r.closed|, i, s, gap, r.seg.value.startDTS, VideoEnd(r)))
      && (forall j, u :: InFile(r1, |r.closed|, j, u) ==> InFile(r, |r.closed|, j, u))
      && (Working(disk) ==> forall j, u :: InFile(r, |r.closed|, j, u) ==> InFile(r1, |r.closed|, j, u))
  {
    CloseFinished(disk, r);
    RotateFinished(disk, r, NextStart(r.tracks));
    hide CloseSegment;
    hide InFile;
    hide NextStart;
    hide OpenSegment;
    hide ToNanos;
  }

  lemma ResyncSame(r: Rec)
    ensures forall n, j, u :: InFile(r.(resync := true), n, j, u) == InFile(r, n, j, u)
  {
  }

  /** Sample s on its way into the open segment. */
  ghost predicate Persisted(disk: Disk, r1: Rec, r: Rec, i: nat, s: Sample, gap: bool)
    requires Valid(r) && i < |r.tracks| && r.seg.Some? && r.tracks[i].next.Some?
  {
    var k, fails := |r.closed|, SegFails(r.cfg, disk(r.ops), r.seg.value, s);
    && Extends(r1, r) && Filed(r1, k) && SameHead(FileOf(r1, k), r.seg.value)
    && (fails ==> r1.seg.None? && r1.resync && |r1.closed| == k + 1)
    && (!fails ==> Goes(r1, r, k, i, s, gap, r.seg.value.startDTS, VideoEnd(r)))
    && (forall j, u :: InFile(r1, k, j, u) ==> InFile(r, k, j, u) || (!fails && j == i && u == s))
    && (!fails && Working(disk) ==> InFile(r1, k, i, s))
    && (Working(disk) ==> forall j, u :: InFile(r, k, j, u) ==> InFile(r1, k, j, u))
  }

  lemma ExtendsVia(r2: Rec, r1: Rec, r: Rec)
    requires Extends(r2, r1) && r1 == r.(seg := r1.seg, ops := r1.ops)
    ensures Extends(r2, r)
  {
  }

  lemma PersistExactly(disk: Disk, r: Rec, i: nat, s: Sample, gap: bool)
    requires Valid(r) && i < |r.tracks| && r.seg.Some? && r.tracks[i].next.Some?
    ensures Persisted(disk, Persist(disk, r, i, s, gap, Time(r, i, s)), r, i, s, gap)
  {
    var t, seg := r.tracks[i], r.seg.value;
    var dts := Time(r, i, s);
    SegWriteFails(r.cfg, disk, r.ops, seg, i, t, s, dts);
    SegWriteHead(r.cfg, disk, r.ops, seg, i, t, s, dts);
    var w := SegWrite(r.cfg, disk, r.ops, seg, i, t, s, dts);
    if w.ok { SegWriteHas(r.cfg, disk, r.ops, seg, i, t, s, dts); }
    else { FailedAdds(r.cfg, disk, r.ops, seg, i, t, s, dts); }
    hide SegWrite;
    hide SegFails;
    hide FinishWrite;
    hide Has;
    hide AllParts;
    var r1 := r.(seg := Some(w.seg), ops := w.ops);
    FinishExactly(disk, r1, i, w.ok, gap, s);
    ExtendsVia(FinishWrite(disk, r1, i, w.ok, gap, dts), r1, r);
    hide Time;
    hide Extends;
  }

  // ----- which samples are stored -----

  /** The recorder with the segment s goes into. */
  function Ready(disk: Disk, r: Rec, i: nat, s: Sample): Rec
    requires Valid(r) && i < |r.tracks|
  {
    var start := SegmentStart(r.tracks, i, Time(r, i, s), s.ntp);
    if r.seg.None? then OpenSegment(r.(resync := r.resync && !r.hasVideo), start)
    else if Restarts(r, i, s) then OpenSegment(CloseSegment(disk, r), start)
    else r
  }

  lemma AdmitExactly(disk: Disk, r: Rec, i: nat, s: Sample, audioOnly: bool)
    requires Valid(r) && i < |r.tracks|
    ensures Admit(disk, r, i, s, Time(r, i, s), audioOnly)
         == if Wanted(r, i, s, audioOnly) then Some(Ready(disk, r, i, s)) else None
  {
    hide OpenSegment;
    hide CloseSegment;
    hide SegmentStart;
    hide ToNanos;
  }

  /** The start of the segment s goes into, and how far its video reaches. */
  function Start(r: Rec, i: nat, s: Sample): int
    requires Valid(r) && i < |r.tracks|
  {
    if r.seg.Some? && !Restarts(r, i, s) then r.seg.value.startDTS
    else SegmentStart(r.tracks, i, Time(r, i, s), s.ntp).0
  }

  function Reach(r: Rec, i: nat, s: Sample): int
    requires Valid(r) && i < |r.tracks|
  {
    if r.seg.Some? && !Restarts(r, i, s) then VideoEnd(r) else Start(r, i, s)
  }

  /** The segment s goes into is the open one, or the next one, started for s. */
  predicate HeadIs(seg: Segment, r: Rec, i: nat, s: Sample)
    requires Valid(r) && i < |r.tracks|
  {
    if r.seg.Some? && !Restarts(r, i, s) then SameHead(seg, r.seg.value)
    else
      && (seg.startDTS, seg.startNTP) == SegmentStart(r.tracks, i, Time(r, i, s), s.ntp)
      && seg.number == r.nextNumber && seg.rates == Rates(r.tracks)
  }

  ghost predicate Prepared(disk: Disk, r1: Rec, r: Rec, i: nat, s: Sample)
    requires Valid(r) && i < |r.tracks|
  {
    var k := Home(r, i, s);
    && r1.resync == (r.resync && (r.seg.Some? || !r.hasVideo))
    && r1.seg.Some? && |r1.closed| == k && Extends(r1, r)
    && HeadIs(r1.seg.value, r, i, s) && VideoEnd(r1) == Reach(r, i, s)
    && (forall j, u :: InFile(r1, k, j, u) == InFile(r, k, j, u))
    && (Working(disk) ==> forall j, u :: InFile(r, |r.closed|, j, u) ==> InFile(r1, |r.closed|, j, u))
    && (k > |r.closed| ==> Left(r1, r))
    && (SegFails(r1.cfg, disk(r1.ops), r1.seg.value, s) <==> Fails(disk, r, i, s))
  }

  lemma ReadyOpens(disk: Disk, r: Rec, i: nat, s: Sample)
    requires Valid(r) && i < |r.tracks| && r.seg.None?
    ensures Prepared(disk, Ready(disk, r, i, s), r, i, s)
  {
    hide SegmentStart;
    hide ToNanos;
    hide OpenSegment;
    hide Has;
    OpenExactly(r.(resync := r.resync && !r.hasVideo), SegmentStart(r.tracks, i, Time(r, i, s), s.ntp));
  }

  lemma ReadyRestarts(disk: Disk, r: Rec, i: nat, s: Sample)
    requires Valid(r) && i < |r.tracks| && Restarts(r, i, s)
    ensures Prepared(disk, Ready(disk, r, i, s), r, i, s)
  {
    hide SegmentStart;
    hide ToNanos;
    hide OpenSegment;
    hide CloseSegment;
    hide Working;
    CloseExactly(disk, r);
    OpenExactly(CloseSegment(disk, r), SegmentStart(r.tracks, i, Time(r, i, s), s.ntp));
    hide Has;
  }

  lemma ReadyExactly(disk: Disk, r: Rec, i: nat, s: Sample)
    requires Valid(r) && i < |r.tracks|
    ensures Prepared(disk, Ready(disk, r, i, s), r, i, s)
  {
    if r.seg.None? { ReadyOpens(disk, r, i, s); }
    else if Restarts(r, i, s) { ReadyRestarts(disk, r, i, s); }
    else {
      hide SegmentStart;
      hide ToNanos;
      hide Has;
    }
  }

  /** What becomes of the segment that s goes into. */
  ghost predicate Moves(disk: Disk, r1: Rec, r: Rec, i: nat, s: Sample, gap: bool)
    requires Valid(r) && i < |r.tracks| && r.tracks[i].next.Some?
  {
    && Extends(r1, r) && Filed(r1, Home(r, i, s)) && HeadIs(FileOf(r1, Home(r, i, s)), r, i, s)
    && if Fails(disk, r, i, s) then r1.seg.None? && r1.resync && |r1.closed| == Home(r, i, s) + 1
       else Goes(r1, r.(resync := r.resync && (r.seg.Some? || !r.hasVideo)), Home(r, i, s), i, s, gap,
                 Start(r, i, s), Reach(r, i, s))
  }

  /** The segment gains s unless its write fails, and no working disk loses anything. */
  ghost predicate Gains(disk: Disk, r1: Rec, r: Rec, i: nat, s: Sample)
    requires Valid(r) && i < |r.tracks|
  {
    var k, fails := Home(r, i, s), Fails(disk, r, i, s);
    && (forall j, u :: InFile(r1, k, j, u) ==> InFile(r, k, j, u) || (!fails && j == i && u == s))
    && (Working(disk) && !fails ==> InFile(r1, k, i, s))
    && (Working(disk) ==> forall j, u :: InFile(r, |r.closed|, j, u) ==> InFile(r1, |r.closed|, j, u))
    && (k > |r.closed| ==> Left(r1, r))
  }

  /** The open segment was closed for a new one. */
  ghost predicate Left(r1: Rec, r: Rec) {
    && r.seg.Some? && |r.closed| < |r1.closed| && SameHead(r1.closed[|r.closed|], r.seg.value)
    && forall j, u :: InFile(r1, |r.closed|, j, u) ==> InFile(r, |r.closed|, j, u)
  }

  /** A finalized sample of track i: it goes where it belongs unless it is unwanted
      or its write fails, and a wanted sample without a segment opens one no later
      than itself. */
  ghost predicate Placing(disk: Disk, r1: Rec, r: Rec, i: nat, s: Sample, gap: bool, audioOnly: bool)
    requires Valid(r) && i < |r.tracks| && r.tracks[i].next.Some?
  {
    if Wanted(r, i, s, audioOnly)
    then Start(r, i, s) <= Time(r, i, s) && Moves(disk, r1, r, i, s, gap) && Gains(disk, r1, r, i, s)
    else r1 == r
  }

  lemma GoesSame(r2: Rec, r1: Rec, r: Rec, k: nat, i: nat, s: Sample, gap: bool, start: int, videoEnd: int)
    requires Valid(r) && i < |r.tracks| && r.tracks[i].next.Some?
    requires r1.tracks == r.tracks && r1.cfg == r.cfg && r1.hasVideo == r.hasVideo && r1.resync == r.resync
    requires Goes(r2, r1, k, i, s, gap, start, videoEnd)
    ensures Goes(r2, r, k, i, s, gap, start, videoEnd)
  {
    hide NextStart;
    hide ToNanos;
  }

  lemma SameLater(r2: Rec, r1: Rec, r: Rec, i: nat, s: Sample)
    requires Valid(r) && i < |r.tracks| && Extends(r1, r) && Extends(r2, r1) && |r1.closed| == Home(r, i, s)
    ensures Extends(r2, r)
    ensures Home(r, i, s) > |r.closed| && Left(r1, r) ==> Left(r2, r)
    ensures forall j, u :: Home(r, i, s) > |r.closed| ==> InFile(r2, |r.closed|, j, u) == InFile(r1, |r.closed|, j, u)
  {
    hide Has;
    assert |r1.closed| > |r.closed| ==> r2.closed[|r.closed|] == r1.closed[|r.closed|];
  }

  lemma MovesVia(disk: Disk, r2: Rec, r1: Rec, r: Rec, i: nat, s: Sample, gap: bool)
    requires Valid(r) && i < |r.tracks| && r.tracks[i].next.Some?
    requires Prepared(disk, r1, r, i, s) && Persisted(disk, r2, r1, i, s, gap)
    ensures Moves(disk, r2, r, i, s, gap)
  {
    SameLater(r2, r1, r, i, s);
    var r0 := r.(resync := r.resync && (r.seg.Some? || !r.hasVideo));
    hide Goes;
    hide InFile;
    hide Fails;
    hide SegFails;
    hide Home;
    hide Start;
    hide Reach;
    hide VideoEnd;
    hide Extends;
    if !Fails(disk, r, i, s) { GoesSame(r2, r1, r0, Home(r, i, s), i, s, gap, Start(r, i, s), Reach(r, i, s)); }
  }

  lemma GainsVia(disk: Disk, r2: Rec, r1: Rec, r: Rec, i: nat, s: Sample, gap: bool)
    requires Valid(r) && i < |r.tracks| && r.tracks[i].next.Some?
    requires Prepared(disk, r1, r, i, s) && Persisted(disk, r2, r1, i, s, gap)
    ensures Gains(disk, r2, r, i, s)
  {
    SameLater(r2, r1, r, i, s);
    assert Home(r, i, s) == |r.closed| || Home(r, i, s) > |r.closed|;
    hide Goes;
    hide InFile;
    hide Fails;
    hide SegFails;
    hide Home;
    hide Start;
    hide Reach;
    hide VideoEnd;
    hide Extends;
    hide Working;
  }

  /** A wanted sample has its segment open for it. */
  lemma ReadyOpen(disk: Disk, r: Rec, i: nat, s: Sample)
    requires Valid(r) && i < |r.tracks|
    ensures var r1 := Ready(disk, r, i, s); r1.seg.Some? && r1.tracks == r.tracks && Valid(r1)
  {
    hide ToNanos;
    hide StartOver;
  }

  lemma StoreUnfolds(disk: Disk, r: Rec, i: nat, s: Sample, gap: bool, audioOnly: bool)
    requires Valid(r) && i < |r.tracks| && r.tracks[i].next.Some? && r.cfg.record
    ensures var r1 := Ready(disk, r, i, s);
      && r1.seg.Some? && r1.tracks == r.tracks && Valid(r1)
      && StoreSample(disk, r, i, s, gap, audioOnly)
         == if Wanted(r, i, s, audioOnly) then Persist(disk, r1, i, s, gap, Time(r, i, s)) else r
  {
    hide *;
    ReadyOpen(disk, r, i, s);
    AdmitExactly(disk, r, i, s, audioOnly);
    StoreIsPersist(disk, r, i, s, gap, audioOnly);
  }

  lemma StoreIsPersist(disk: Disk, r: Rec, i: nat, s: Sample, gap: bool, audioOnly: bool)
    requires Valid(r) && i < |r.tracks| && r.tracks[i].next.Some? && r.cfg.record
    ensures var a := Admit(disk, r, i, s, Time(r, i, s), audioOnly);
      StoreSample(disk, r, i, s, gap, audioOnly)
      == if a.Some? then Persist(disk, a.value, i, s, gap, Time(r, i, s)) else r
  {
    hide Admit;
    hide Persist;
    hide ToNanos;
  }

  lemma StoreExactly(disk: Disk, r: Rec, i: nat, s: Sample, gap: bool, audioOnly: bool)
    requires Valid(r) && i < |r.tracks| && r.tracks[i].next.Some? && r.cfg.record
    ensures Placing(disk, StoreSample(disk, r, i, s, gap, audioOnly), r, i, s, gap, audioOnly)
  {
    hide Moves;
    hide Gains;
    hide Persisted;
    hide Prepared;
    hide Ready;
    hide Persist;
    hide StoreSample;
    hide Wanted;
    hide StartOver;
    hide ToNanos;
    hide ValidTracks;
    StoreUnfolds(disk, r, i, s, gap, audioOnly);
    if Wanted(r, i, s, audioOnly) {
      StartBefore(r, i, s, audioOnly);
      ReadyExactly(disk, r, i, s);
      var r1 := Ready(disk, r, i, s);
      PersistExactly(disk, r1, i, s, gap);
      MovesVia(disk, Persist(disk, r1, i, s, gap, Time(r, i, s)), r1, r, i, s, gap);
      GainsVia(disk, Persist(disk, r1, i, s, gap, Time(r, i, s)), r1, r, i, s, gap);
    }
  }

  lemma StartBefore(r: Rec, i: nat, s: Sample, audioOnly: bool)
    requires Valid(r) && i < |r.tracks| && Wanted(r, i, s, audioOnly)
    ensures Start(r, i, s) <= Time(r, i, s)
  {
    StartNotAfter(r.tracks, |r.tracks|, i, Time(r, i, s), s.ntp);
    hide StartOver;
    hide ToNanos;
  }

  // ----- one sample of lookahead -----

  /** What a track does with one more sample: the first waits; with the pending
      sample's wall clock over five seconds off its stream clock it is dropped and
      the clocks are tied to it again; otherwise the pending sample is final. */
  lemma LookaheadExactly(t: Track, smp: Sample)
    requires ValidTrack(t)
    ensures var look := Lookahead(t, smp);
      var t1, new_ := look.track, smp.(n := t.seen);
      && t1.rate == t.rate && t1.video == t.video && t1.seen == t.seen + 1
      && (t.next.None? ==> look == Hold(t.(next := Some(new_), seen := t.seen + 1)))
      && (t.next.Some? ==>
            var p := t.next.value;
            && (look.Jump? <==> t.anchored && Off(t, p))
            && (look.Jump? ==> t1.next == Some(new_) && t1.lastDuration == t.lastDuration)
            && (look.Jump? || !t.anchored ==> AnchoredAt(t1, p))
            && (!look.Jump? ==>
                  && look.Final? && look.sample == p.(duration := look.sample.duration)
                  && (t.anchored ==> SameAnchor(t1, t))
                  && t1.next == Some(new_.(dts := Max(p.dts, smp.dts))) && t1.lastDuration == look.sample.duration
                  && SpacedOut(t, t1, p, smp, look.gap, look.sample.duration)))
  {
    hide ToNanos;
  }

  /** A sample's wall clock is over five seconds ahead of or behind its stream clock. */
  predicate Off(t: Track, s: Sample)
    requires t.rate > 0
  {
    var late := (s.ntp - t.startNTP) - (ToNanos(s.dts, t.rate) - t.startDTS);
    late > 5 * SECOND || late < -(5 * SECOND)
  }

  predicate AnchoredAt(t: Track, s: Sample)
    requires t.rate > 0
  {
    t.anchored && t.startDTS == ToNanos(s.dts, t.rate) && t.startNTP == s.ntp
  }

  predicate SameAnchor(t1: Track, t: Track) {
    t1.anchored && t1.startDTS == t.startDTS && t1.startNTP == t.startNTP
  }

  /** A sample lasts until the next one, or not at all when the next one went back or
      jumped; over a distance of more than five seconds it lasts as long as the one
      before it, or a 25th of a second. */
  predicate SpacedOut(t: Track, t1: Track, p: Sample, smp: Sample, gap: bool, duration: nat)
    requires t1.rate > 0
  {
    var jumps := smp.dts < p.dts || Off(t1, smp);
    && (gap <==> !jumps && smp.dts - p.dts > 5 * t.rate)
    && (jumps ==> duration == 0)
    && (!jumps && !gap ==> duration == (smp.dts - p.dts) % 0x1_0000_0000)
    && (gap ==> duration == (if t.lastDuration > 0 then t.lastDuration else Max(1, t.rate / 25)) % 0x1_0000_0000)
  }

  // ----- recTrack.write -----

  /** The open segment is closed and the recorder waits for a keyframe. */
  ghost predicate Ended(disk: Disk, r1: Rec, r: Rec) {
    var k := |r.closed|;
    && Extends(r1, r) && r1.seg.None? && r1.resync && |r1.closed| == k + (if r.seg.Some? then 1 else 0)
    && (r.seg.Some? ==> SameHead(r1.closed[k], r.seg.value))
    && (forall j, u :: InFile(r1, k, j, u) ==> InFile(r, k, j, u))
    && (Working(disk) ==> forall j, u :: InFile(r, k, j, u) ==> InFile(r1, k, j, u))
  }

  lemma EndExactly(disk: Disk, r: Rec)
    ensures Ended(disk, CloseIfOpen(disk, r).(resync := true), r)
  {
    hide CloseSegment;
    hide Has;
    if r.seg.Some? {
      CloseExactly(disk, r);
      ResyncSame(CloseSegment(disk, r));
    }
  }

  lemma StillValid(r: Rec, i: nat, t: Track, hasVideo: bool)
    requires Valid(r) && i < |r.tracks| && ValidTrack(t)
    ensures Valid(r.(hasVideo := hasVideo, tracks := r.tracks[i := t]))
  {
  }

  /** A sample on track i: what is final is placed, and a clock jump ends the segment. */
  lemma WriteExactly(disk: Disk, r: Rec, i: nat, smp: Sample, audioOnly: bool)
    requires Valid(r) && i < |r.tracks|
    ensures var look := Lookahead(r.tracks[i], smp);
      var r0 := r.(hasVideo := r.hasVideo || r.tracks[i].video, tracks := r.tracks[i := look.track]);
      var r1 := Write(disk, r, i, smp, audioOnly);
      && Valid(r0)
      && (look.Hold? ==> r1 == r0)
      && (look.Jump? ==> Ended(disk, r1, r0))
      && (look.Final? ==> if r.cfg.record then Placing(disk, r1, r0, i, look.sample, look.gap, audioOnly) else r1 == r0)
  {
    LookaheadExactly(r.tracks[i], smp);
    var look := Lookahead(r.tracks[i], smp);
    hide Lookahead;
    hide CloseIfOpen;
    hide StoreSample;
    hide Placing;
    hide Ended;
    StillValid(r, i, look.track, r.hasVideo || r.tracks[i].video);
    hide ValidTracks;
    var r0 := r.(hasVideo := r.hasVideo || r.tracks[i].video, tracks := r.tracks[i := look.track]);
    match look
    case Hold(_) =>
    case Jump(_) => EndExactly(disk, r0);
    case Final(_, s, gap) =>
      if r.cfg.record { StoreExactly(disk, r0, i, s, gap, audioOnly); }
      else { LiveOnlyStores(disk, r0, i, s, gap, audioOnly); }
  }

  // ----- what is stored stays stored -----

  ghost predicate Keeps(r1: Rec, r: Rec) {
    forall k: nat, j, u :: InFile(r, k, j, u) ==> InFile(r1, k, j, u)
  }

  lemma KeepsIfExtends(r1: Rec, r: Rec)
    requires Extends(r1, r) && forall j, u :: InFile(r, |r.closed|, j, u) ==> InFile(r1, |r.closed|, j, u)
    ensures Keeps(r1, r)
  {
    hide Has;
    forall k: nat, j, u | InFile(r, k, j, u) ensures InFile(r1, k, j, u) {
      if k < |r.closed| { assert r1.closed[k] == r.closed[k]; }
    }
  }

  lemma SameFiles(r1: Rec, r: Rec)
    requires r1.closed == r.closed && r1.seg == r.seg
    ensures Keeps(r1, r)
  {
  }

  lemma KeepsVia(r2: Rec, r1: Rec, r: Rec)
    requires Keeps(r1, r) && Keeps(r2, r1)
    ensures Keeps(r2, r)
  {
    hide InFile;
  }

  lemma EndKeeps(disk: Disk, r: Rec)
    requires Working(disk)
    ensures Keeps(CloseIfOpen(disk, r), r)
  {
    EndExactly(disk, r);
    var r1 := CloseIfOpen(disk, r);
    hide CloseIfOpen;
    hide Has;
    KeepsIfExtends(r1.(resync := true), r);
    SameFiles(r1, r1.(resync := true));
    hide InFile;
  }

  lemma WriteKeeps(disk: Disk, r: Rec, i: nat, smp: Sample, audioOnly: bool)
    requires Valid(r) && i < |r.tracks| && Working(disk)
    ensures Keeps(Write(disk, r, i, smp, audioOnly), r)
  {
    WriteExactly(disk, r, i, smp, audioOnly);
    var look, r1 := Lookahead(r.tracks[i], smp), Write(disk, r, i, smp, audioOnly);
    var r0 := r.(hasVideo := r.hasVideo || r.tracks[i].video, tracks := r.tracks[i := look.track]);
    SameFiles(r0, r);
    hide Write;
    hide Lookahead;
    hide InFile;
    hide Extends;
    hide Moves;
    if r1 != r0 {
      if look.Final? { PlacedExtends(disk, r1, r0, i, look.sample, look.gap); }
      KeepsIfExtends(r1, r0);
      KeepsVia(r1, r0, r);
    }
  }

  lemma PlacedExtends(disk: Disk, r1: Rec, r: Rec, i: nat, s: Sample, gap: bool)
    requires Valid(r) && i < |r.tracks| && r.tracks[i].next.Some?
    ensures Moves(disk, r1, r, i, s, gap) ==> Extends(r1, r)
  {
  }

  lemma DecodeTimeKeeps(disk: Disk, r: Rec, pic: Picture)
    requires Valid(r) && 0 < |r.tracks| && Working(disk)
    ensures Keeps(DecodeTime(disk, r, pic).0, r)
  {
    var r1 := DecodeTime(disk, r, pic).0;
    hide CloseIfOpen;
    hide ToNanos;
    hide InFile;
    EndKeeps(disk, r.(videoStarted := true));
    SameFiles(r.(videoStarted := true), r);
    KeepsVia(CloseIfOpen(disk, r.(videoStarted := true)), r.(videoStarted := true), r);
    if r1.closed == r.closed && r1.seg == r.seg {
      SameFiles(r1, r);
    } else {
      SameFiles(r1, CloseIfOpen(disk, r.(videoStarted := true)));
      KeepsVia(r1, CloseIfOpen(disk, r.(videoStarted := true)), r);
    }
  }

  /** Every event keeps what is stored, but for a session that starts on a segment
      left open. */
  lemma StepKeeps(disk: Disk, r: Rec, ev: Event)
    requires Inv(r) && Working(disk) && (ev.Connect? ==> r.seg.None?)
    ensures Valid(r) && Keeps(Step(disk, r, ev), r)
  {
    ValidTracksOf(r);
    hide HistoryOk;
    hide CurrentOk;
    hide TracksOk;
    hide Keeps;
    hide CloseIfOpen;
    hide DecodeTime;
    hide Write;
    SameFiles(r, r);
    if r.live || ev.Hangup? || ev.Connect? {
      match ev
      case Video(pic) =>
        DecodeTimeKeeps(disk, r, pic);
        DecodeTimeOk(disk, r, pic);
        var (r1, dts) := DecodeTime(disk, r, pic);
        if dts.Some? {
          ValidTracksOf(r1);
          WriteKeeps(disk, r1, 0, VideoSample(pic, dts.value), false);
          KeepsVia(Write(disk, r1, 0, VideoSample(pic, dts.value), false), r1, r);
        }
      case Audio(i, s, _, audioOnly) => if i < |r.tracks| { WriteKeeps(disk, r, i, s, audioOnly); }
      case Hangup =>
        EndKeeps(disk, r);
        SameFiles(CloseIfOpen(disk, r).(live := false), CloseIfOpen(disk, r));
        KeepsVia(CloseIfOpen(disk, r).(live := false), CloseIfOpen(disk, r), r);
      case Connect(rates) => if EventOk(r, ev) { SameFiles(Reconnect(r, rates), r); }
    }
  }

  /** Sessions end before the next one starts. */
  predicate Orderly(events: seq<Event>, open: bool)
    decreases |events|
  {
    if events == [] then true
    else match events[0]
      case Hangup => Orderly(events[1..], false)
      case Connect(_) => !open && Orderly(events[1..], true)
      case _ => Orderly(events[1..], open)
  }

  lemma {:induction false} RunKeeps(disk: Disk, r: Rec, events: seq<Event>, open: bool)
    requires Inv(r) && Working(disk) && Orderly(events, open) && (open || (r.seg.None? && !r.live))
    ensures Keeps(Run(disk, r, events), r)
    decreases |events|
  {
    if events == [] {
      SameFiles(r, r);
    } else {
      ValidTracksOf(r);
      StepKeepsInv(disk, r, events[0]);
      StepKeeps(disk, r, events[0]);
      var r1 := Step(disk, r, events[0]);
      var open1 := events[0].Connect? || (open && !events[0].Hangup?);
      StaysClosed(disk, r, events[0], open);
      hide Step;
      hide Inv;
      hide Keeps;
      RunKeeps(disk, r1, events[1..], open1);
      KeepsVia(Run(disk, r1, events[1..]), r1, r);
    }
  }

  lemma StaysClosed(disk: Disk, r: Rec, ev: Event, open: bool)
    requires Inv(r) && Valid(r) && (open || (r.seg.None? && !r.live))
    ensures ev.Hangup? || (!open && !ev.Connect?) ==> Step(disk, r, ev).seg.None? && !Step(disk, r, ev).live
  {
    hide HistoryOk;
    hide CurrentOk;
    hide WriteVideo;
    hide WriteAudio;
    hide CloseSegment;
    hide Reconnect;
    if r.seg.Some? { CloseExactly(disk, r); }
  }

  // ----- runs -----

  /** A sample that reaches recTrack.write: the recorder then, its track, and whether
      the video is down. */
  datatype Arrival = Arrival(r: Rec, i: nat, smp: Sample, audioOnly: bool)

  function Arrives(disk: Disk, r: Rec, ev: Event): Option<Arrival>
    requires Valid(r) && (r.live ==> 0 < |r.tracks|)
  {
    if !r.live || !EventOk(r, ev) then None
    else match ev
      case Video(pic) =>
        var (r1, dts) := DecodeTime(disk, r, pic);
        if dts.Some? then Some(Arrival(r1, 0, VideoSample(pic, dts.value), false)) else None
      case Audio(i, s, mayStart, audioOnly) =>
        if r.videoStarted || mayStart then Some(Arrival(r, i, s, audioOnly)) else None
      case _ => None
  }

  lemma StepArrives(disk: Disk, r: Rec, ev: Event)
    requires Inv(r) && Valid(r) && Arrives(disk, r, ev).Some?
    ensures var a := Arrives(disk, r, ev).value;
      Base(a.r) && Valid(a.r) && a.i < |a.r.tracks| && Step(disk, r, ev) == Write(disk, a.r, a.i, a.smp, a.audioOnly)
  {
    hide HistoryOk;
    hide CurrentOk;
    hide TracksOk;
    hide Fresh;
    hide Write;
    hide DecodeTime;
    hide MayStart;
    if ev.Video? { DecodeTimeOk(disk, r, ev.pic); }
    ValidTracksOf(Arrives(disk, r, ev).value.r);
  }

  /** The recorder once the track looked at the sample. */
  function Looked(a: Arrival): Rec
    requires Valid(a.r) && a.i < |a.r.tracks|
  {
    a.r.(hasVideo := a.r.hasVideo || a.r.tracks[a.i].video,
         tracks := a.r.tracks[a.i := Lookahead(a.r.tracks[a.i], a.smp).track])
  }

  lemma LookedValid(a: Arrival)
    requires Valid(a.r) && a.i < |a.r.tracks|
    ensures Valid(Looked(a))
  {
    LookaheadExactly(a.r.tracks[a.i], a.smp);
    hide Lookahead;
  }

  /** The sample it made final, if it is wanted and its write does not fail. */
  function Accepted(disk: Disk, a: Arrival): Option<Sample>
    requires Valid(a.r) && a.i < |a.r.tracks|
  {
    LookedValid(a);
    var look := Lookahead(a.r.tracks[a.i], a.smp);
    if look.Final? && a.r.cfg.record && Wanted(Looked(a), a.i, look.sample, a.audioOnly)
       && !Fails(disk, Looked(a), a.i, look.sample)
    then Some(look.sample) else None
  }

  lemma AcceptedStored(disk: Disk, a: Arrival)
    requires Valid(a.r) && a.i < |a.r.tracks| && Working(disk) && Accepted(disk, a).Some?
    ensures Valid(Looked(a))
    ensures InFile(Write(disk, a.r, a.i, a.smp, a.audioOnly),
                   Home(Looked(a), a.i, Accepted(disk, a).value), a.i, Accepted(disk, a).value)
  {
    WriteExactly(disk, a.r, a.i, a.smp, a.audioOnly);
    hide Write;
    hide Lookahead;
    hide InFile;
    hide Home;
    hide Fails;
    hide Wanted;
    hide Moves;
  }

  /** From any state a run can reach, with a disk that works: a finalized sample that is
      wanted and fits its part is in its segment, and stays there whatever happens later. */
  lemma StoredForGood(disk: Disk, r: Rec, ev: Event, a: Arrival, after: seq<Event>)
    requires Inv(r) && Valid(r) && Arrives(disk, r, ev) == Some(a)
    requires Working(disk) && Orderly(after, true)
    ensures Valid(a.r) && a.i < |a.r.tracks| && Valid(Looked(a)) && Inv(Step(disk, r, ev))
    ensures var s := Accepted(disk, a);
      s.Some? ==> InFile(Run(disk, Step(disk, r, ev), after), Home(Looked(a), a.i, s.value), a.i, s.value)
  {
    StepKeepsInv(disk, r, ev);
    StepArrives(disk, r, ev);
    RunKeeps(disk, Step(disk, r, ev), after, true);
    LookedValid(a);
    if Accepted(disk, a).Some? { AcceptedStored(disk, a); }
    hide *;
    StoredStays(Run(disk, Step(disk, r, ev), after), Step(disk, r, ev));
  }

  lemma StoredStays(r1: Rec, r: Rec)
    requires Keeps(r1, r)
    ensures forall k: nat, j, u :: InFile(r, k, j, u) ==> InFile(r1, k, j, u)
  {
  }

  /** So is every video keyframe that is finalized with no segment open, or at or
      after the open one's start. */
  lemma KeyframesAreRecorded(disk: Disk, r: Rec, pic: Picture, a: Arrival, s: Sample, after: seq<Event>)
    requires Inv(r) && Valid(r) && Arrives(disk, r, Video(pic)) == Some(a)
    requires Working(disk) && Orderly(after, true)
    requires Valid(a.r) && a.i < |a.r.tracks| && a.r.cfg.record
    requires Lookahead(a.r.tracks[a.i], a.smp).Final? && Lookahead(a.r.tracks[a.i], a.smp).sample == s && !s.nonSync
    requires a.r.seg.Some? ==> a.r.seg.value.startDTS <= ToNanos(s.dts, a.r.tracks[a.i].rate)
    ensures Valid(Looked(a)) && Inv(Step(disk, r, Video(pic)))
    ensures !Fails(disk, Looked(a), a.i, s) ==>
      InFile(Run(disk, Step(disk, r, Video(pic)), after), Home(Looked(a), a.i, s), a.i, s)
  {
    LookedValid(a);
    if !Fails(disk, Looked(a), a.i, s) { KeyframeAccepted(disk, r, pic, a, s); }
    StoredForGood(disk, r, Video(pic), a, after);
    hide *;
  }

  lemma KeyframeAccepted(disk: Disk, r: Rec, pic: Picture, a: Arrival, s: Sample)
    requires Inv(r) && Valid(r) && Arrives(disk, r, Video(pic)) == Some(a)
    requires Valid(a.r) && a.i < |a.r.tracks| && a.r.cfg.record
    requires Lookahead(a.r.tracks[a.i], a.smp).Final? && Lookahead(a.r.tracks[a.i], a.smp).sample == s && !s.nonSync
    requires a.r.seg.Some? ==> a.r.seg.value.startDTS <= ToNanos(s.dts, a.r.tracks[a.i].rate)
    requires Valid(Looked(a)) && !Fails(disk, Looked(a), a.i, s)
    ensures Accepted(disk, a) == Some(s)
  {
    StepArrives(disk, r, Video(pic));
    ArrivesFirst(disk, r, pic);
    VideoFirst(a.r);
    LookaheadExactly(a.r.tracks[a.i], a.smp);
    hide Inv;
    hide Base;
    hide Lookahead;
    hide Fails;
    hide Write;
    hide Step;
    hide Arrives;
    hide ToNanos;
  }

  lemma ArrivesFirst(disk: Disk, r: Rec, pic: Picture)
    requires Valid(r) && (r.live ==> 0 < |r.tracks|)
    ensures Arrives(disk, r, Video(pic)).Some? ==> Arrives(disk, r, Video(pic)).value.i == 0
  {
    hide DecodeTime;
  }

  lemma VideoFirst(r: Rec)
    requires TracksOk(r.tracks) && 0 < |r.tracks|
    ensures r.tracks[0].video
  {
  }

  // ----- no keyframe comes late in a file -----

  /** Every video keyframe of segment k but its first one lies within the minimum
      length from the segment's start. */
  ghost predicate EarlyIn(r: Rec, k: nat)
    requires Filed(r, k)
  {
    var f := FileOf(r, k);
    && 0 < |f.rates| && 0 < f.rates[0]
    && forall u, v | InFile(r, k, 0, u) && InFile(r, k, 0, v) && v.n < u.n && !u.nonSync ::
         ToNanos(u.dts, f.rates[0]) < f.startDTS + r.cfg.segmentDuration
  }

  /** So will be the pending one, if the open segment has video. */
  ghost predicate NextEarly(r: Rec)
    requires Valid(r) && r.seg.Some? && 0 < |r.tracks|
  {
    forall u | InFile(r, |r.closed|, 0, u) ::
      r.tracks[0].next.Some? && EarlyNext(r, u, r.tracks[0].next.value, r.seg.value.startDTS)
  }

  predicate EarlyNext(r: Rec, u: Sample, next: Sample, start: int)
    requires Valid(r) && 0 < |r.tracks|
  {
    u.n < next.n && (next.nonSync || Time(r, 0, next) < start + r.cfg.segmentDuration)
  }

  ghost predicate Early(r: Rec)
    requires Valid(r)
  {
    EarlyFiles(r) && (r.seg.Some? ==> 0 < |r.tracks| && NextEarly(r))
  }

  ghost predicate EarlyFiles(r: Rec) {
    forall k: nat | Filed(r, k) :: EarlyIn(r, k)
  }

  /** A segment that loses samples or gains a fitting one. */
  lemma EarlyStays(r1: Rec, k1: nat, r: Rec, k: nat)
    requires Filed(r, k) && Filed(r1, k1) && SameHead(FileOf(r1, k1), FileOf(r, k)) && r1.cfg == r.cfg && EarlyIn(r, k)
    requires forall u :: InFile(r1, k1, 0, u) ==> InFile(r, k, 0, u)
    ensures EarlyIn(r1, k1)
  {
    hide InFile;
    hide FileOf;
    hide ToNanos;
  }

  lemma EarlyGains(r1: Rec, r: Rec, k: nat, s: Sample)
    requires Filed(r, k) && Filed(r1, k) && SameHead(FileOf(r1, k), FileOf(r, k)) && r1.cfg == r.cfg && EarlyIn(r, k)
    requires forall u :: InFile(r1, k, 0, u) ==> InFile(r, k, 0, u) || u == s
    requires forall u :: InFile(r, k, 0, u) ==> u.n < s.n
    requires (exists u :: InFile(r, k, 0, u)) && !s.nonSync ==>
      ToNanos(s.dts, FileOf(r, k).rates[0]) < FileOf(r, k).startDTS + r.cfg.segmentDuration
    ensures EarlyIn(r1, k)
  {
    hide InFile;
    hide FileOf;
    hide ToNanos;
  }

  /** Segments closed before. */
  lemma EarlyKept(r1: Rec, r: Rec, k: nat)
    requires Extends(r1, r) && k < |r.closed| && EarlyIn(r, k)
    ensures EarlyIn(r1, k)
  {
    hide Has;
    hide ToNanos;
    EarlyStays(r1, k, r, k);
  }

  lemma EarlyEnded(disk: Disk, r1: Rec, r: Rec)
    requires EarlyFiles(r) && Ended(disk, r1, r)
    ensures EarlyFiles(r1)
  {
    hide Has;
    hide ToNanos;
    hide EarlyIn;
    hide Working;
    forall k: nat | Filed(r1, k) ensures EarlyIn(r1, k) {
      if k < |r.closed| { EarlyKept(r1, r, k); } else { EarlyStays(r1, k, r, k); }
    }
  }

  lemma EarlyFresh(r: Rec, k: nat, s: Sample)
    requires Filed(r, k) && 0 < |FileOf(r, k).rates| && 0 < FileOf(r, k).rates[0]
    requires forall u :: InFile(r, k, 0, u) ==> u == s
    ensures EarlyIn(r, k)
  {
    hide InFile;
    hide ToNanos;
  }

  /** Sample s of track i is about to be placed, and early if its segment has video;
      on another track the pending video sample is. */
  ghost predicate EarlyTurn(r: Rec, i: nat, s: Sample)
    requires Valid(r) && i < |r.tracks| && r.tracks[i].next.Some?
  {
    && (r.tracks[i].video <==> i == 0) && (i == 0 ==> r.tracks[0].next.value.n == s.n + 1)
    && EarlyFiles(r)
    && (r.seg.Some? ==>
          && r.seg.value.rates == Rates(r.tracks)
          && (i != 0 ==> NextEarly(r))
          && (i == 0 ==> forall u :: InFile(r, |r.closed|, 0, u) ==> EarlyNext(r, u, s, r.seg.value.startDTS)))
  }

  lemma EarlyHome(disk: Disk, r1: Rec, r: Rec, i: nat, s: Sample, gap: bool)
    requires Valid(r) && i < |r.tracks| && r.tracks[i].next.Some? && EarlyTurn(r, i, s)
    requires Moves(disk, r1, r, i, s, gap) && Gains(disk, r1, r, i, s)
    ensures EarlyIn(r1, Home(r, i, s))
  {
    hide Goes;
    hide Fails;
    hide ToNanos;
    hide SegmentStart;
    hide Working;
    hide Has;
    hide EarlyIn;
    var k := Home(r, i, s);
    if r.seg.Some? && !Restarts(r, i, s) {
      if i == 0 { EarlyGains(r1, r, k, s); } else { EarlyStays(r1, k, r, k); }
    } else {
      assert Rates(r.tracks)[0] == r.tracks[0].rate;
      EarlyFresh(r1, k, s);
    }
  }

  /** A segment closed for a new one. */
  lemma EarlyLeft(disk: Disk, r1: Rec, r: Rec, i: nat, s: Sample)
    requires Valid(r) && i < |r.tracks| && r.tracks[i].next.Some? && EarlyTurn(r, i, s) && r1.cfg == r.cfg
    requires Gains(disk, r1, r, i, s) && Home(r, i, s) > |r.closed|
    ensures |r.closed| < |r1.closed| && EarlyIn(r1, |r.closed|)
  {
    hide Fails;
    hide ToNanos;
    hide Working;
    hide Has;
    hide EarlyIn;
    EarlyStays(r1, |r.closed|, r, |r.closed|);
  }

  /** A segment with nothing in it. */
  lemma EarlyEmpty(r: Rec)
    requires Valid(r) && r.seg.Some? && 0 < |r.tracks| && AllParts(r.seg.value) == []
    requires r.seg.value.rates == Rates(r.tracks)
    ensures EarlyIn(r, |r.closed|) && NextEarly(r)
  {
    hide ToNanos;
    assert forall u :: !InFile(r, |r.closed|, 0, u);
    assert Rates(r.tracks)[0] == r.tracks[0].rate;
  }

  /** A segment that goes on. */
  lemma NextStays(disk: Disk, r1: Rec, r: Rec, i: nat, s: Sample, gap: bool)
    requires Valid(r) && i < |r.tracks| && r.tracks[i].next.Some? && EarlyTurn(r, i, s)
    requires Moves(disk, r1, r, i, s, gap) && Gains(disk, r1, r, i, s)
    requires r1.seg.Some? && |r1.closed| == Home(r, i, s)
    ensures NextEarly(r1)
  {
    hide Fails;
    hide ToNanos;
    hide SegmentStart;
    hide Working;
    hide Has;
    hide EarlyIn;
    hide VideoEnd;
    hide NextStart;
    hide Stalls;
    hide Left;
    if i == 0 { NextOfVideo(disk, r1, r, s, gap); }
  }

  lemma NextOfVideo(disk: Disk, r1: Rec, r: Rec, s: Sample, gap: bool)
    requires Valid(r) && 0 < |r.tracks| && r.tracks[0].next.Some? && EarlyTurn(r, 0, s)
    requires Moves(disk, r1, r, 0, s, gap) && Gains(disk, r1, r, 0, s)
    requires r1.seg.Some? && |r1.closed| == Home(r, 0, s)
    ensures NextEarly(r1)
  {
    hide Fails;
    hide ToNanos;
    hide SegmentStart;
    hide Working;
    hide Has;
    hide EarlyIn;
    hide VideoEnd;
    hide NextStart;
    hide Left;
    hide Extends;
    var next := r.tracks[0].next.value;
    assert r1.tracks == r.tracks && r1.cfg == r.cfg by { MovesFrame(disk, r1, r, 0, s, gap); }
    assert next.nonSync || Time(r, 0, next) < r1.seg.value.startDTS + r.cfg.segmentDuration;
    forall u | InFile(r1, |r1.closed|, 0, u) ensures EarlyNext(r1, u, next, r1.seg.value.startDTS) {
      assert u == s || InFile(r, |r.closed|, 0, u);
    }
  }

  lemma MovesFrame(disk: Disk, r1: Rec, r: Rec, i: nat, s: Sample, gap: bool)
    requires Valid(r) && i < |r.tracks| && r.tracks[i].next.Some? && Moves(disk, r1, r, i, s, gap)
    ensures Extends(r1, r) && r1.tracks == r.tracks && r1.cfg == r.cfg
    ensures r1.seg.Some? && |r1.closed| > Home(r, i, s) ==>
      |r1.closed| == Home(r, i, s) + 1 && AllParts(r1.seg.value) == [] && r1.seg.value.rates == Rates(r.tracks)
    ensures r1.seg.Some? || |r1.closed| == Home(r, i, s) + 1
    ensures |r1.closed| == Home(r, i, s) || |r1.closed| == Home(r, i, s) + 1
  {
    hide ToNanos;
    hide SegmentStart;
    hide NextStart;
    hide VideoEnd;
    hide Fails;
    hide Rates;
    hide SameHead;
  }

  /** A finalized sample keeps all of that. */
  lemma EarlyPlaced(disk: Disk, r1: Rec, r: Rec, i: nat, s: Sample, gap: bool, audioOnly: bool)
    requires Valid(r) && i < |r.tracks| && r.tracks[i].next.Some? && EarlyTurn(r, i, s)
    requires Placing(disk, r1, r, i, s, gap, audioOnly) && Wanted(r, i, s, audioOnly)
    ensures Valid(r1) && Early(r1)
  {
    hide Moves;
    hide Gains;
    hide ToNanos;
    hide SegmentStart;
    hide Restarts;
    hide EarlyIn;
    hide NextEarly;
    MovesFrame(disk, r1, r, i, s, gap);
    EarlyHome(disk, r1, r, i, s, gap);
    forall k: nat | Filed(r1, k) ensures EarlyIn(r1, k) {
      if k < |r.closed| { EarlyKept(r1, r, k); }
      else if k < Home(r, i, s) { EarlyLeft(disk, r1, r, i, s); }
      else if k > Home(r, i, s) { EarlyEmpty(r1); }
    }
    if r1.seg.Some? {
      if |r1.closed| == Home(r, i, s) { NextStays(disk, r1, r, i, s, gap); } else { EarlyEmpty(r1); }
    }
  }

  /** With the pending video late the open segment has no video. */
  lemma LateHasNone(r: Rec, s: Sample, gap: bool, u: Sample, audioOnly: bool)
    requires Storing(r, 0, s, gap) && Fits(r, 0, s) && r.seg.Some? && Valid(r) && !Wanted(r, 0, s, audioOnly)
    ensures !InFile(r, |r.closed|, 0, u)
  {
    hide ToNanos;
    hide Playable;
    hide HistoryOk;
    hide Has;
    hide EndTracked;
    hide VideoTracked;
    hide ReachTracked;
    if Time(r, 0, s) < r.seg.value.startDTS { LateHasNoMedia(r, 0, s, gap); }
  }

  lemma TurnComes(r: Rec, i: nat, smp: Sample)
    requires Base(r) && r.live && Valid(r) && i < |r.tracks| && Early(r) && Lookahead(r.tracks[i], smp).Final?
    ensures var look := Lookahead(r.tracks[i], smp);
      var r0 := r.(hasVideo := r.hasVideo || r.tracks[i].video, tracks := r.tracks[i := look.track]);
      Valid(r0) && EarlyTurn(r0, i, look.sample)
  {
    LookaheadExactly(r.tracks[i], smp);
    LookaheadOk(r.tracks[i], smp);
    var look := Lookahead(r.tracks[i], smp);
    hide Lookahead;
    hide ToNanos;
    hide HistoryOk;
    hide SegOk;
    hide LinkOk;
    hide Has;
    StillValid(r, i, look.track, r.hasVideo || r.tracks[i].video);
    TrackSet(r.tracks, i, look.track);
    var r0 := r.(hasVideo := r.hasVideo || r.tracks[i].video, tracks := r.tracks[i := look.track]);
    SameEarly(r0, r);
    hide EarlyIn;
  }

  lemma SameEarly(r1: Rec, r: Rec)
    requires r1.closed == r.closed && r1.seg == r.seg && r1.cfg == r.cfg && EarlyFiles(r)
    ensures EarlyFiles(r1)
    ensures forall k: nat, j, u :: InFile(r1, k, j, u) == InFile(r, k, j, u)
  {
    hide Has;
    hide ToNanos;
    forall k: nat | Filed(r1, k) ensures EarlyIn(r1, k) { EarlyStays(r1, k, r, k); }
  }

  /** A sample dropped, or none final yet. */
  lemma EarlyHeld(r1: Rec, r: Rec, i: nat)
    requires Base(r) && r.live && Valid(r) && i < |r.tracks| && Early(r) && Valid(r1)
    requires |r1.tracks| == |r.tracks| && r1 == r.(hasVideo := r1.hasVideo, tracks := r.tracks[i := r1.tracks[i]])
    requires i == 0 && r.seg.Some? ==> forall u :: !InFile(r, |r.closed|, 0, u)
    ensures Early(r1)
  {
    SameEarly(r1, r);
    hide EarlyIn;
    hide InFile;
    hide ToNanos;
    hide HistoryOk;
    hide CurrentOk;
    hide TracksOk;
  }

  lemma EarlyWrite(disk: Disk, r: Rec, i: nat, smp: Sample, audioOnly: bool)
    requires Base(r) && r.live && Valid(r) && i < |r.tracks| && Early(r)
    ensures var r1 := Write(disk, r, i, smp, audioOnly); Valid(r1) && Early(r1)
  {
    var look := Lookahead(r.tracks[i], smp);
    var r0 := r.(hasVideo := r.hasVideo || r.tracks[i].video, tracks := r.tracks[i := look.track]);
    WriteExactly(disk, r, i, smp, audioOnly);
    LookaheadExactly(r.tracks[i], smp);
    StillValid(r, i, look.track, r.hasVideo || r.tracks[i].video);
    var r1 := Write(disk, r, i, smp, audioOnly);
    hide Lookahead;
    hide Write;
    hide Base;
    hide Early;
    hide ValidTracks;
    hide Placing;
    hide Ended;
    match look
    case Hold(_) => NothingPending(r, i); EarlyHeld(r0, r, i);
    case Jump(_) => JumpedEarly(disk, r1, r0, r);
    case Final(_, s, gap) =>
      if !r.cfg.record {
        NoSegment(r);
        EarlyHeld(r0, r, i);
      } else {
        FinalEarly(disk, r1, r, i, smp, audioOnly);
      }
  }

  lemma JumpedEarly(disk: Disk, r1: Rec, r0: Rec, r: Rec)
    requires Valid(r) && Early(r) && r0.closed == r.closed && r0.seg == r.seg && r0.cfg == r.cfg && Valid(r0)
    requires Ended(disk, r1, r0)
    ensures Valid(r1) && Early(r1)
  {
    SameEarly(r0, r);
    EarlyEnded(disk, r1, r0);
    hide EarlyFiles;
    hide InFile;
  }

  lemma NoSegment(r: Rec)
    requires Base(r) && !r.cfg.record
    ensures r.seg.None?
  {
  }

  /** With no sample pending on the video track the open segment has no video. */
  lemma NothingPending(r: Rec, i: nat)
    requires Base(r) && Valid(r) && i < |r.tracks| && Early(r) && r.tracks[i].next.None?
    ensures i == 0 && r.seg.Some? ==> forall u :: !InFile(r, |r.closed|, 0, u)
  {
    hide EarlyFiles;
    hide InFile;
    hide HistoryOk;
    hide CurrentOk;
    hide TracksOk;
  }

  lemma FinalEarly(disk: Disk, r1: Rec, r: Rec, i: nat, smp: Sample, audioOnly: bool)
    requires Base(r) && r.live && Valid(r) && i < |r.tracks| && Early(r) && r.cfg.record
    requires Lookahead(r.tracks[i], smp).Final?
    requires var look := Lookahead(r.tracks[i], smp);
      var r0 := r.(hasVideo := r.hasVideo || r.tracks[i].video, tracks := r.tracks[i := look.track]);
      Valid(r0) && look.track.next.Some? && Placing(disk, r1, r0, i, look.sample, look.gap, audioOnly)
    ensures Valid(r1) && Early(r1)
  {
    var look := Lookahead(r.tracks[i], smp);
    var r0 := r.(hasVideo := r.hasVideo || r.tracks[i].video, tracks := r.tracks[i := look.track]);
    TurnComes(r, i, smp);
    hide Lookahead;
    hide Moves;
    hide Gains;
    hide Base;
    hide Early;
    hide ValidTracks;
    hide Wanted;
    hide InFile;
    hide EarlyTurn;
    if Wanted(r0, i, look.sample, audioOnly) {
      EarlyPlaced(disk, r1, r0, i, look.sample, look.gap, audioOnly);
    } else {
      if i == 0 { DroppedVideo(disk, r, smp, audioOnly); }
      EarlyHeld(r0, r, i);
    }
  }

  lemma DroppedVideo(disk: Disk, r: Rec, smp: Sample, audioOnly: bool)
    requires Base(r) && r.live && Valid(r) && 0 < |r.tracks| && r.cfg.record
    requires Lookahead(r.tracks[0], smp).Final?
    requires var look := Lookahead(r.tracks[0], smp);
      var r0 := r.(hasVideo := r.hasVideo || r.tracks[0].video, tracks := r.tracks[0 := look.track]);
      Valid(r0) && !Wanted(r0, 0, look.sample, audioOnly)
    ensures r.seg.Some? ==> forall u :: !InFile(r, |r.closed|, 0, u)
  {
    FinalStored(disk, r, 0, smp, audioOnly);
    var look := Lookahead(r.tracks[0], smp);
    var r0 := r.(hasVideo := r.hasVideo || r.tracks[0].video, tracks := r.tracks[0 := look.track]);
    hide Lookahead;
    hide Storing;
    hide Fits;
    hide Wanted;
    hide Base;
    hide Has;
    if r.seg.Some? {
      forall u ensures !InFile(r, |r.closed|, 0, u) { LateHasNone(r0, look.sample, look.gap, u, audioOnly); }
    }
  }

  /** What a picture's decode time touches. */
  lemma PictureTouches(disk: Disk, r: Rec, pic: Picture)
    requires Valid(r) && 0 < |r.tracks|
    ensures var r1, r2 := DecodeTime(disk, r, pic).0, CloseIfOpen(disk, r.(videoStarted := true));
      && r1.cfg == r.cfg && Valid(r1) && |r1.tracks| == |r.tracks|
      && ((r1.closed == r.closed && r1.seg == r.seg && r1.tracks == r.tracks)
          || (r1.closed == r2.closed && r1.seg == r2.seg))
  {
    CloseKeeps(disk, r.(videoStarted := true));
    hide CloseIfOpen;
    hide ToNanos;
  }

  lemma CloseKeeps(disk: Disk, r: Rec)
    ensures var r1 := CloseIfOpen(disk, r);
      r1 == r.(seg := r1.seg, ops := r1.ops, closed := r1.closed, reports := r1.reports)
  {
    hide SegClose;
  }

  lemma EarlyPicture(disk: Disk, r: Rec, pic: Picture)
    requires Base(r) && r.live && Valid(r) && Early(r)
    ensures var r1 := DecodeTime(disk, r, pic).0; Valid(r1) && Early(r1)
  {
    PictureTouches(disk, r, pic);
    var r0, r1 := r.(videoStarted := true), DecodeTime(disk, r, pic).0;
    hide DecodeTime;
    hide CloseIfOpen;
    hide EarlyFiles;
    hide InFile;
    hide Base;
    hide ValidTracks;
    if r1.closed == r.closed && r1.seg == r.seg && r1.tracks == r.tracks {
      SameEarly(r1, r);
    } else {
      EndExactly(disk, r0);
      SameEarly(r0, r);
      EarlyEnded(disk, CloseIfOpen(disk, r0).(resync := true), r0);
      SameEarly(r1, CloseIfOpen(disk, r0).(resync := true));
    }
  }

  lemma EarlyHangup(disk: Disk, r: Rec)
    requires Valid(r) && Early(r)
    ensures var r1 := CloseIfOpen(disk, r).(live := false); Valid(r1) && Early(r1)
  {
    var r1, r2 := CloseIfOpen(disk, r).(live := false), CloseIfOpen(disk, r).(resync := true);
    EndExactly(disk, r);
    EarlyEnded(disk, r2, r);
    hide CloseIfOpen;
    hide EarlyFiles;
    hide InFile;
    SameEarly(r1, r2);
  }

  lemma EarlyAbandon(r: Rec)
    requires EarlyFiles(r)
    ensures EarlyFiles(Abandon(r))
  {
    var r1 := Abandon(r);
    if r.seg.Some? {
      FewerHas(r.seg.value.written, AllParts(r.seg.value));
      hide Has;
      hide EarlyIn;
      EarlyStays(r1, |r.closed|, r, |r.closed|);
      forall k: nat | Filed(r1, k) ensures EarlyIn(r1, k) {
        if k < |r.closed| { EarlyStays(r1, k, r, k); }
      }
    }
  }

  lemma EarlyConnect(r: Rec, rates: seq<int>)
    requires Valid(r) && Early(r) && |rates| > 0 && forall i | 0 <= i < |rates| :: 0 < rates[i] <= MAX_RATE
    ensures Valid(Reconnect(r, rates)) && Early(Reconnect(r, rates))
  {
    EarlyAbandon(r);
    hide EarlyFiles;
    hide InFile;
    SameEarly(Reconnect(r, rates), Abandon(r));
  }

  lemma StepEarly(disk: Disk, r: Rec, ev: Event)
    requires Inv(r) && Valid(r) && Early(r)
    ensures Valid(Step(disk, r, ev)) && Early(Step(disk, r, ev))
  {
    hide Base;
    hide Early;
    hide CloseIfOpen;
    hide Reconnect;
    hide DecodeTime;
    hide Write;
    hide ValidTracks;
    hide Fresh;
    if r.live || ev.Hangup? || ev.Connect? {
      match ev
      case Video(pic) =>
        VideoTracks(r);
        EarlyPicture(disk, r, pic);
        DecodeTimeOk(disk, r, pic);
        var (r1, dts) := DecodeTime(disk, r, pic);
        if dts.Some? { EarlyWrite(disk, r1, 0, VideoSample(pic, dts.value), false); }
      case Audio(i, s, _, audioOnly) => if i < |r.tracks| { EarlyWrite(disk, r, i, s, audioOnly); }
      case Hangup => EarlyHangup(disk, r);
      case Connect(rates) => if EventOk(r, ev) { EarlyConnect(r, rates); }
    }
  }

  lemma VideoTracks(r: Rec)
    requires Base(r)
    ensures r.live ==> 0 < |r.tracks|
  {
  }

  lemma {:induction false} RunEarly(disk: Disk, r: Rec, events: seq<Event>)
    requires Inv(r) && Valid(r) && Early(r)
    ensures var r1 := Run(disk, r, events); Valid(r1) && Early(r1) && r1.cfg == r.cfg
    decreases |events|
  {
    if events != [] {
      StepKeepsInv(disk, r, events[0]);
      StepEarly(disk, r, events[0]);
      StepCfg(disk, r, events[0]);
      var r1 := Step(disk, r, events[0]);
      hide Step;
      hide Inv;
      hide Early;
      hide ValidTracks;
      RunEarly(disk, r1, events[1..]);
    }
  }

  lemma StepCfg(disk: Disk, r: Rec, ev: Event)
    requires Inv(r) && Valid(r)
    ensures Step(disk, r, ev).cfg == r.cfg
  {
    VideoTracks(r);
    hide *;
    match ev
    case Video(pic) => VideoCfg(disk, r, pic);
    case Audio(i, s, mayStart, audioOnly) => AudioCfg(disk, r, i, s, mayStart, audioOnly);
    case Hangup => EndCfg(disk, r);
    case Connect(rates) => ConnectCfg(disk, r, rates);
  }

  lemma EndCfg(disk: Disk, r: Rec)
    requires Valid(r) && (r.live ==> 0 < |r.tracks|)
    ensures Step(disk, r, Hangup).cfg == r.cfg
  {
    CloseKeeps(disk, r);
    hide CloseIfOpen;
  }

  lemma ConnectCfg(disk: Disk, r: Rec, rates: seq<int>)
    requires Valid(r) && (r.live ==> 0 < |r.tracks|)
    ensures Step(disk, r, Connect(rates)).cfg == r.cfg
  {
  }

  lemma AudioCfg(disk: Disk, r: Rec, i: nat, s: Sample, mayStart: bool, audioOnly: bool)
    requires Valid(r) && (r.live ==> 0 < |r.tracks|)
    ensures Step(disk, r, Audio(i, s, mayStart, audioOnly)).cfg == r.cfg
  {
    if i < |r.tracks| { WriteCfg(disk, r, i, s, audioOnly); }
    hide Write;
  }

  lemma VideoCfg(disk: Disk, r: Rec, pic: Picture)
    requires Valid(r) && (r.live ==> 0 < |r.tracks|)
    ensures Step(disk, r, Video(pic)).cfg == r.cfg
  {
    if r.live { PictureCfg(disk, r, pic); }
    hide WriteVideo;
  }

  lemma PictureCfg(disk: Disk, r: Rec, pic: Picture)
    requires Valid(r) && 0 < |r.tracks|
    ensures WriteVideo(disk, r, pic).cfg == r.cfg
  {
    PictureTouches(disk, r, pic);
    hide DecodeTime;
    hide CloseIfOpen;
    hide Write;
    hide ValidTracks;
    hide VideoSample;
    var (r1, dts) := DecodeTime(disk, r, pic);
    if dts.Some? { WriteCfg(disk, r1, 0, VideoSample(pic, dts.value), false); }
  }

  lemma WriteCfg(disk: Disk, r: Rec, i: nat, smp: Sample, audioOnly: bool)
    requires Valid(r) && i < |r.tracks|
    ensures Write(disk, r, i, smp, audioOnly).cfg == r.cfg
  {
    LookaheadExactly(r.tracks[i], smp);
    WriteExactly(disk, r, i, smp, audioOnly);
    hide Write;
    hide Lookahead;
    hide Goes;
    hide Gains;
    hide Fails;
  }

  /** Over every run: in each file every video keyframe but the first lies within the
      minimum segment duration from the segment's start; a later one opens the next. */
  lemma KeyframesComeEarly(disk: Disk, cfg: Config, events: seq<Event>, k: nat, j: nat)
    requires k < |Files(After(disk, cfg, events))|
    requires 0 < j < |VideoOf(Files(After(disk, cfg, events))[k].written)|
    ensures var seg := Files(After(disk, cfg, events))[k];
      var s := VideoOf(seg.written)[j];
      && 0 < |seg.rates| && 0 < seg.rates[0]
      && (s.nonSync || ToNanos(s.dts, seg.rates[0]) < seg.startDTS + cfg.segmentDuration)
  {
    hide Inv;
    hide Valid;
    hide ToNanos;
    var r := After(disk, cfg, events);
    StartsEarly(cfg);
    RunEarly(disk, Initial(cfg), events);
    assert r.cfg == cfg && EarlyFiles(r);
    FilesOk(r, k);
    hide Early;
    hide Run;
    hide After;
    EarlyVideo(r, k, j);
    hide *;
  }

  lemma StartsEarly(cfg: Config)
    ensures Inv(Initial(cfg)) && Valid(Initial(cfg)) && Early(Initial(cfg))
  {
  }

  lemma EarlyVideo(r: Rec, k: nat, j: nat)
    requires EarlyFiles(r) && k < |Files(r)| && FileOk(Files(r)[k]) && 0 < j < |VideoOf(Files(r)[k].written)|
    ensures var seg := Files(r)[k];
      var s := VideoOf(seg.written)[j];
      && 0 < |seg.rates| && 0 < seg.rates[0]
      && (s.nonSync || ToNanos(s.dts, seg.rates[0]) < seg.startDTS + r.cfg.segmentDuration)
  {
    hide Has;
    hide ToNanos;
    hide Unbroken;
    hide AllPlaced;
    hide VideoOf;
    var seg := Files(r)[k];
    var v := VideoOf(seg.written);
    Counted(v, j);
    InVideo(seg.written, v[0]);
    InVideo(seg.written, v[j]);
    FewerHas(seg.written, AllParts(seg));
    assert Filed(r, k) && FileOf(r, k) == seg;
    assert InFile(r, k, 0, v[0]) && InFile(r, k, 0, v[j]);
  }

  /** Numbers grow along the video. */
  lemma {:induction false} Counted(v: seq<Sample>, j: nat)
    requires Unbroken(v) && j < |v|
    ensures v[j].n == v[0].n + j
  {
    if j > 0 {
      UnbrokenSamples(v, j);
      Counted(v, j - 1);
    }
  }

  lemma {:induction false} InVideo(parts: seq<Part>, s: Sample)
    requires s in VideoOf(parts)
    ensures Has(parts, 0, s)
  {
    var init, p := parts[..|parts| - 1], Last(parts);
    if s in VideoOf(init) {
      InVideo(init, s);
      FewerHas(init, parts);
    } else {
      assert InPart(p, 0, s);
    }
  }

  // ----- when the video is behind, and what closing reports -----

  /** The audio ends a segment when the video is over five seconds behind: no video
      sample of the segment ends later, nor, without any, does the segment start later. */
  lemma VideoIsBehind(r: Rec, dts: int)
    requires Inv(r) && r.seg.Some?
    ensures var seg := r.seg.value;
      && 0 < |seg.rates| && 0 < seg.rates[0]
      && (dts > VideoEnd(r) + 5 * SECOND <==>
            if exists u :: Has(AllParts(seg), 0, u)
            then forall u | Has(AllParts(seg), 0, u) :: dts > Max(0, EndOf(u, seg.rates[0])) + 5 * SECOND
            else dts > seg.startDTS + 5 * SECOND)
  {
    hide ToNanos;
    hide Has;
    hide Playable;
    hide HistoryOk;
    hide EndTracked;
    hide LinkOk;
    assert r.seg.value.rates == Rates(r.tracks) && r.tracks[0].rate == r.seg.value.rates[0];
  }

  /** A segment closed has a file if it had one, or if its last part could create it;
      the part is in the file if it could be written; the segment is reported, as what
      it is, exactly when the file could be closed. */
  lemma ClosingReports(disk: Disk, r: Rec)
    requires r.seg.Some?
    ensures var r1, seg, io := CloseSegment(disk, r), r.seg.value, disk(r.ops);
      && |r1.closed| == |r.closed| + 1
      && var c := Last(r1.closed);
        && (c.file <==> seg.file || (seg.cur.Some? && io.create))
        && c.written == seg.written + (if seg.cur.Some? && !FlushFails(io, seg) then [seg.cur.value] else [])
        && (if c.file && io.close
            then
              && |r1.reports| == |r.reports| + 1 && r1.reports[..|r.reports|] == r.reports
              && Last(r1.reports).number == seg.number && Last(r1.reports).startNTP == seg.startNTP
            else r1.reports == r.reports)
  {
  }

  // ----- the decode time of a picture -----

  /** With presentation times in order a picture is timed by its own, from a random
      access point on. A time that goes back by up to a second shows that the stream
      reorders; from then on the extractor times what follows a random access point.
      By more, the clock was set back: the segment ends, and the next random access
      point starts again. */
  lemma PictureTimes(disk: Disk, r: Rec, pic: Picture)
    requires Valid(r) && 0 < |r.tracks| && !r.reordering
    ensures var (r1, dts) := DecodeTime(disk, r, pic);
      var seen := r.videoStarted || pic.randomAccess;
      var back := seen && r.hasLastPTS && pic.pts < r.lastPTS;
      var far := ToNanos(r.lastPTS - pic.pts, r.tracks[0].rate) > SECOND;
      && (dts.Some? <==> seen && (!back || (far && pic.randomAccess)))
      && (dts.Some? ==> dts.value == pic.pts && r1.videoStarted && r1.hasLastPTS && r1.lastPTS == pic.pts)
      && (r1.reordering <==> back && !far)
      && (back && !far ==> !r1.extractor)
      && (back && far ==>
            && Ended(disk, r1.(hasLastPTS := true, videoStarted := true, lastPTS := r.lastPTS, tracks := r.tracks),
                     r.(videoStarted := true))
            && r1.tracks == r.tracks[0 := r.tracks[0].(next := None, anchored := false)]
            && (r1.hasLastPTS <==> pic.randomAccess) && (r1.videoStarted <==> pic.randomAccess))
      && (!(back && far) ==> r1.seg == r.seg && r1.closed == r.closed && r1.tracks == r.tracks)
  {
    EndExactly(disk, r.(videoStarted := true));
    if (r.videoStarted || pic.randomAccess) && r.hasLastPTS && pic.pts < r.lastPTS
       && ToNanos(r.lastPTS - pic.pts, r.tracks[0].rate) > SECOND
    {
      FarBack(disk, r, pic);
    }
    CloseKeeps(disk, r.(videoStarted := true));
    hide CloseIfOpen;
    hide ToNanos;
    hide Ended;
  }

  lemma FarBack(disk: Disk, r: Rec, pic: Picture)
    requires Valid(r) && 0 < |r.tracks| && !r.reordering && r.hasLastPTS && pic.pts < r.lastPTS
    requires (r.videoStarted || pic.randomAccess) && ToNanos(r.lastPTS - pic.pts, r.tracks[0].rate) > SECOND
    ensures var r1 := DecodeTime(disk, r, pic).0;
      r1.(hasLastPTS := true, videoStarted := true, lastPTS := r.lastPTS, tracks := r.tracks)
      == CloseIfOpen(disk, r.(videoStarted := true)).(resync := true)
  {
    CloseKeeps(disk, r.(videoStarted := true));
    hide CloseIfOpen;
    hide ToNanos;
  }

  lemma ExtractorTimes(disk: Disk, r: Rec, pic: Picture)
    requires Valid(r) && 0 < |r.tracks| && r.reordering
    ensures var (r1, dts) := DecodeTime(disk, r, pic);
      && (r.extractor || pic.randomAccess ==> dts == pic.extracted && (r1.extractor <==> dts.Some?))
      && (!r.extractor && !pic.randomAccess ==> dts == None && r1 == r)
      && r1 == r.(videoStarted := r1.videoStarted, extractor := r1.extractor)
      && (r1.videoStarted <==> r.videoStarted || (!r.extractor && pic.randomAccess))
  {
  }

  // ----- where a segment starts -----

  /** A segment opened for a sample starts with it, or with a sample pending on
      another track. */
  lemma {:induction false} StartIsPending(tracks: seq<Track>, k: nat, i: nat, dts: int, ntp: int)
    requires ValidTracks(tracks) && k <= |tracks|
    ensures var start := StartOver(tracks, k, i, dts, ntp);
      start == (dts, ntp) || exists j | 0 <= j < k && j != i ::
        Pending(tracks[j]) == Some(start.0) && tracks[j].next.value.ntp == start.1 && start.0 < dts
  {
    hide ToNanos;
    if k > 0 {
      StartIsPending(tracks, k - 1, i, dts, ntp);
      StartNotAfter(tracks, k - 1, i, dts, ntp);
    }
  }

  // ----- fragments -----

  /** A sample that is taken joins the open segment's part unless that lasts long
      enough already; then the part goes to the file and s starts the next one. */
  lemma PartTaken(cfg: Config, disk: Disk, ops: nat, seg: Segment, i: nat, t: Track, s: Sample, dts: int)
    requires t.rate > 0 && SegWrite(cfg, disk, ops, seg, i, t, s, dts).ok
    ensures var seg1 := SegWrite(cfg, disk, ops, seg, i, t, s, dts).seg;
      var end := dts + ToNanos(s.duration, t.rate);
      && seg1.cur.Some?
      && var p1 := seg1.cur.value;
        if seg.cur.Some? && seg.cur.value.endDTS - seg.cur.value.startDTS < cfg.partDuration then
          var p := seg.cur.value;
          && seg1.written == seg.written && seg1.nextPart == seg.nextPart
          && p1 == p.(size := p.size + s.size, endDTS := Max(p.endDTS, end), tracks := p1.tracks)
          && i in p1.tracks && p1.tracks == p.tracks[i := p1.tracks[i]]
          && p1.tracks[i].samples == (if i in p.tracks then p.tracks[i].samples else []) + [s]
        else
          && seg1.written == AllParts(seg) && seg1.nextPart == seg.nextPart + 1
          && p1 == Part(seg.nextPart, dts, Max(dts, end), s.size, p1.tracks)
          && p1.tracks.Keys == {i} && p1.tracks[i].samples == [s]
  {
    hide ToNanos;
    hide ToTicks;
  }

  // ----- what comes in, and a new session -----

  /** A picture is written as it is, and shown at its presentation time wherever the
      offset from its decode time fits 32 bits. */
  lemma PictureWritten(pic: Picture, dts: int)
    ensures var s := VideoSample(pic, dts);
      && s.dts == dts && s.ntp == pic.ntp && s.size == pic.size && (s.nonSync <==> !pic.randomAccess)
      && (-0x8000_0000 <= pic.pts - dts < 0x8000_0000 <==> s.dts + s.cto == pic.pts)
  {
  }

  /** A session starts with nothing pending, no clock anchored and no segment, and its
      first picture must be a random access point. */
  lemma SessionStarts(disk: Disk, r: Rec, rates: seq<int>, pic: Picture)
    requires Inv(r) && Valid(r) && EventOk(r, Connect(rates))
    ensures var r1 := Step(disk, r, Connect(rates));
      && r1.live && r1.seg.None? && !r1.resync && !r1.hasVideo && |r1.tracks| == |rates| && Valid(r1)
      && (forall i | 0 <= i < |rates| ::
            r1.tracks[i] == Track(rates[i], i == 0, None, 0, false, 0, 0, 0))
      && r1.cfg == r.cfg && r1.nextNumber == r.nextNumber && r1.reports == r.reports
      && (Arrives(disk, r1, Video(pic)).Some? ==> pic.randomAccess)
      && (pic.randomAccess && r.cfg.dtsFromPts ==> Arrives(disk, r1, Video(pic)).Some?)
      && (pic.randomAccess && !r.cfg.dtsFromPts ==> Arrives(disk, r1, Video(pic)).Some? == pic.extracted.Some?)
  {
    VideoTracks(r);
    hide Inv;
    hide Arrives;
    Reconnects(disk, r, rates);
    hide Step;
    FirstPicture(disk, Step(disk, r, Connect(rates)), pic);
  }

  lemma Reconnects(disk: Disk, r: Rec, rates: seq<int>)
    requires Valid(r) && (r.live ==> 0 < |r.tracks|) && EventOk(r, Connect(rates))
    ensures var r1 := Step(disk, r, Connect(rates));
      && r1.live && r1.seg.None? && !r1.resync && !r1.hasVideo && r1.tracks == SessionTracks(rates) && Valid(r1)
      && !r1.videoStarted && !r1.hasLastPTS && !r1.extractor && r1.reordering == !r.cfg.dtsFromPts
      && r1.cfg == r.cfg && r1.nextNumber == r.nextNumber && r1.reports == r.reports
  {
  }

  lemma FirstPicture(disk: Disk, r: Rec, pic: Picture)
    requires Valid(r) && r.live && 0 < |r.tracks| && !r.videoStarted && !r.hasLastPTS && !r.extractor
    ensures var a := Arrives(disk, r, Video(pic));
      && (a.Some? ==> pic.randomAccess)
      && (pic.randomAccess ==> a.Some? == (!r.reordering || pic.extracted.Some?))
  {
    hide ToNanos;
    hide VideoSample;
    hide CloseIfOpen;
  }

  // ----- a session that starts on a segment left open -----

  /** It keeps what is stored exactly when the part not yet written holds nothing the
      file lacks. */
  lemma ConnectKeepsIff(disk: Disk, r: Rec, rates: seq<int>)
    requires Inv(r) && Valid(r) && r.seg.Some? && EventOk(r, Connect(rates))
    ensures var seg := r.seg.value;
      Keeps(Step(disk, r, Connect(rates)), r)
      <==> forall i, s :: Has(AllParts(seg), i, s) ==> Has(seg.written, i, s)
  {
    var seg, k := r.seg.value, |r.closed|;
    var r1 := Abandon(r);
    VideoTracks(r);
    hide Inv;
    hide Has;
    assert r1.closed[k].written == seg.written && r1.closed[..k] == r.closed;
    assert forall i, s :: InFile(r, k, i, s) <==> Has(AllParts(seg), i, s);
    assert forall i, s :: InFile(Step(disk, r, Connect(rates)), k, i, s) <==> Has(seg.written, i, s);
    assert forall n: nat, i, s | n < k :: InFile(Step(disk, r, Connect(rates)), n, i, s) == InFile(r, n, i, s);
  }

  /** So every video sample of that part is lost; the part is where PartTaken puts every
      sample that is taken. */
  lemma AbandonedPartLost(disk: Disk, r: Rec, rates: seq<int>, s: Sample)
    requires Inv(r) && Valid(r) && r.seg.Some? && EventOk(r, Connect(rates))
    requires r.seg.value.cur.Some? && s in PartVideo(r.seg.value.cur.value)
    ensures InFile(r, |r.closed|, 0, s) && !InFile(Step(disk, r, Connect(rates)), |r.closed|, 0, s)
  {
    var seg, r1 := r.seg.value, Abandon(r);
    var p := seg.cur.value;
    VideoTracks(r);
    MediaUnbroken(r);
    hide Inv;
    VideoOfAppend(seg.written, p);
    OnlyOnce(VideoOf(seg.written), PartVideo(p), s);
    if Has(seg.written, 0, s) { HasVideoSample(seg.written, s); }
    assert InPart(p, 0, s) && p in AllParts(seg);
    assert r1.closed[|r.closed|].written == seg.written;
  }

  lemma MediaUnbroken(r: Rec)
    requires Inv(r) && r.seg.Some?
    ensures Unbroken(Media(r.seg.value))
  {
  }

  /** Numbers grow along the video, so no sample comes twice. */
  lemma OnlyOnce(v: seq<Sample>, w: seq<Sample>, s: Sample)
    requires Unbroken(v + w) && s in w
    ensures s !in v
  {
    var all := v + w;
    var j :| 0 <= j < |w| && w[j] == s;
    Counted(all, |v| + j);
    assert all[|v| + j] == s;
    if s in v {
      var k :| 0 <= k < |v| && v[k] == s;
      assert all[k] == v[k];
      Counted(all, k);
    }
  }

  lemma {:induction false} HasVideoSample(parts: seq<Part>, s: Sample)
    requires Has(parts, 0, s)
    ensures s in VideoOf(parts)
  {
    var p :| p in parts && InPart(p, 0, s);
    var init := parts[..|parts| - 1];
    if p in init {
      assert Has(init, 0, s);
      HasVideoSample(init, s);
    } else {
      assert p == parts[|parts| - 1] && s in PartVideo(p);
    }
  }
}
