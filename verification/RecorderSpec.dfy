/** The recorder's segmenting machine as functions on values: recorder/track.go,
    recorder/segment.go and videoDecodeTime in recorder/recorder.go. Times are
    nanoseconds unless they are called ticks. The class in Recorder.dfy does the
    same updates in place; RecorderProofs.dfy proves what they keep. */
module RecorderSpec {
  import opened Wrappers
  import opened Clock

  const MAX_SAMPLE_GAP: int := 5 * SECOND
  const DRIFT_TOLERANCE: int := 5 * SECOND
  const MAX_BASETIME: int := SECOND
  const MAX_REORDER_BACK: int := SECOND

  /** The fastest clock whose 5 s gap limit fits the 32-bit duration field. */
  const MAX_RATE: int := 858_993_459
  const UINT32: int := 0x1_0000_0000

  /** One access unit. n counts the samples its track received, so a run without
      holes in n skipped nothing. */
  datatype Sample = Sample(n: nat, dts: int, ntp: int, cto: int, nonSync: bool, size: nat, duration: nat)

  /** recTrack: one sample of lookahead and the clock anchor. */
  datatype Track = Track(rate: int, video: bool, next: Option<Sample>, lastDuration: nat,
                         anchored: bool, startDTS: int, startNTP: int, seen: nat)

  datatype PartTrack = PartTrack(base: nat, samples: seq<Sample>)

  /** One fragment (moof+mdat); tracks are keyed by their index in the recorder. */
  datatype Part = Part(number: nat, startDTS: int, endDTS: int, size: nat, tracks: map<nat, PartTrack>)

  /** written holds the fragments that reached the file, rates the timescales in
      the file's init. */
  datatype Segment = Segment(startDTS: int, startNTP: int, number: nat, rates: seq<int>,
                             file: bool, written: seq<Part>, cur: Option<Part>, nextPart: nat,
                             endDTS: int, hasVideo: bool, videoStart: int, videoEnd: int, videoEndDTS: int)

  datatype Report = Report(number: nat, startNTP: int, duration: int, videoStart: int, videoDuration: int)

  /** How the disk answers one flush or close: creating the file, writing the
      fragment, closing the file. */
  datatype Io = Io(create: bool, write: bool, close: bool)
  type Disk = nat -> Io

  datatype Config = Config(record: bool, dtsFromPts: bool, segmentDuration: int,
                           partDuration: int, maxPartSize: nat)

  /** The recorder. live is true from PLAY until the client is closed; ops counts
      disk operations; closed and reports are the histories of the segments done
      with and of OnSegment calls. */
  datatype Rec = Rec(cfg: Config, tracks: seq<Track>, hasVideo: bool, resync: bool,
                     seg: Option<Segment>, nextNumber: nat,
                     reordering: bool, videoStarted: bool, hasLastPTS: bool, lastPTS: int, extractor: bool,
                     live: bool, ops: nat, closed: seq<Segment>, reports: seq<Report>)

  ghost predicate ValidTrack(t: Track) {
    0 < t.rate <= MAX_RATE
  }

  ghost predicate ValidTracks(tracks: seq<Track>) {
    forall i | 0 <= i < |tracks| :: ValidTrack(tracks[i])
  }

  ghost predicate Valid(r: Rec) {
    ValidTracks(r.tracks)
  }

  // ----- lookahead -----

  /** Wall clock minus stream clock since the anchor. */
  function Drift(t: Track, s: Sample): int
    requires ValidTrack(t)
  {
    (s.ntp - t.startNTP) - (ToNanos(s.dts, t.rate) - t.startDTS)
  }

  predicate Drifted(t: Track, s: Sample)
    requires ValidTrack(t)
  {
    Drift(t, s) < -DRIFT_TOLERANCE || Drift(t, s) > DRIFT_TOLERANCE
  }

  function Anchor(t: Track, s: Sample): Track
    requires ValidTrack(t)
  {
    t.(anchored := true, startDTS := ToNanos(s.dts, t.rate), startNTP := s.ntp)
  }

  /** The duration given to a sample whose successor is raw ticks away. */
  function FinalDuration(rate: int, last: nat, raw: int): nat {
    (if raw > rate * 5 then
       if last > 0 then last
       else if rate / 25 <= 0 then 1 else rate / 25
     else raw) % UINT32
  }

  /** What one more sample makes of the pending one: nothing pending yet, a
      clock jump (the pending sample is dropped), or a finalized sample. */
  datatype Look = Hold(track: Track) | Jump(track: Track) | Final(track: Track, sample: Sample, gap: bool)

  function Lookahead(t: Track, smp: Sample): (look: Look)
    requires ValidTrack(t)
    ensures look.track.next.Some? && look.track.seen == t.seen + 1
  {
    var incoming := smp.(n := t.seen);
    var t1 := t.(next := Some(incoming), seen := t.seen + 1);
    match t.next
    case None => Hold(t1)
    case Some(p) =>
      if t.anchored && Drifted(t, p) then
        Jump(Anchor(t1, p))
      else
        var t2 := if t.anchored then t1 else Anchor(t1, p);
        var backwards := incoming.dts < p.dts;
        var raw := if backwards || Drifted(t2, incoming) then 0 else incoming.dts - p.dts;
        var duration := FinalDuration(t.rate, t.lastDuration, raw);
        var next := if backwards then incoming.(dts := p.dts) else incoming;
        Final(t2.(next := Some(next), lastDuration := duration), p.(duration := duration), raw > t.rate * 5)
  }

  // ----- segment -----

  function NewPart(seg: Segment, dts: int): Segment {
    seg.(cur := Some(Part(seg.nextPart, dts, dts, 0, map[])), nextPart := seg.nextPart + 1)
  }

  function PartTrackOf(p: Part, segStart: int, i: nat, rate: int, dts: int): PartTrack
    requires rate > 0
  {
    if i in p.tracks then p.tracks[i]
    else
      var delta := Max(dts - segStart, 0);
      MulDivBounds(delta, rate, SECOND);
      PartTrack(ToTicks(delta, rate), [])
  }

  function PartAdd(p: Part, segStart: int, i: nat, rate: int, s: Sample, dts: int): Part
    requires rate > 0
  {
    var pt := PartTrackOf(p, segStart, i, rate, dts);
    p.(size := p.size + s.size,
       tracks := p.tracks[i := pt.(samples := pt.samples + [s])],
       endDTS := Max(p.endDTS, dts + ToNanos(s.duration, rate)))
  }

  /** Extends the segment's end and video extent over one sample. */
  function Observe(seg: Segment, video: bool, rate: int, s: Sample, dts: int): Segment
    requires rate > 0
  {
    var end := dts + ToNanos(s.duration, rate);
    var seg1 := seg.(endDTS := Max(seg.endDTS, end));
    if !video then seg1
    else
      var pts := dts + ToNanos(s.cto, rate);
      seg1.(videoStart := if !seg.hasVideo || pts < seg.videoStart then pts else seg.videoStart,
            hasVideo := true,
            videoEnd := Max(seg.videoEnd, pts + (end - dts)),
            videoEndDTS := Max(seg.videoEndDTS, end))
  }

  /** closeCurPart: creates the file on first use, then writes the part. */
  function Flush(io: Io, seg: Segment): (Segment, bool)
    requires seg.cur.Some?
  {
    if !seg.file && !io.create then (seg, false)
    else if !io.write then (seg.(file := true), false)
    else (seg.(file := true, written := seg.written + [seg.cur.value]), true)
  }

  datatype Wrote = Wrote(seg: Segment, ok: bool, ops: nat)

  function PartWrite(cfg: Config, seg: Segment, i: nat, rate: int, s: Sample, dts: int, ops: nat): Wrote
    requires rate > 0 && seg.cur.Some?
  {
    var p := seg.cur.value;
    if cfg.maxPartSize > 0 && p.size + s.size > cfg.maxPartSize then Wrote(seg, false, ops)
    else Wrote(seg.(cur := Some(PartAdd(p, seg.startDTS, i, rate, s, dts))), true, ops)
  }

  function SegWrite(cfg: Config, disk: Disk, ops: nat, seg: Segment, i: nat, t: Track, s: Sample, dts: int): Wrote
    requires t.rate > 0
  {
    var seg1 := Observe(seg, t.video, t.rate, s, dts);
    match seg1.cur
    case None => PartWrite(cfg, NewPart(seg1, dts), i, t.rate, s, dts, ops)
    case Some(p) =>
      if p.endDTS - p.startDTS >= cfg.partDuration then
        var (seg2, ok) := Flush(disk(ops), seg1);
        if !ok then Wrote(seg2.(cur := None), false, ops + 1)
        else PartWrite(cfg, NewPart(seg2, dts), i, t.rate, s, dts, ops + 1)
      else
        PartWrite(cfg, seg1, i, t.rate, s, dts, ops)
  }

  function SegDuration(seg: Segment): int {
    var d := seg.endDTS - seg.startDTS;
    if seg.hasVideo then Max(d, seg.videoEnd - seg.startDTS) else d
  }

  function ReportOf(seg: Segment): Report {
    Report(seg.number, seg.startNTP, SegDuration(seg),
           if seg.hasVideo then seg.videoStart - seg.startDTS else 0,
           if seg.hasVideo then seg.videoEnd - seg.videoStart else 0)
  }

  /** segment.close: the last part is flushed; a segment with a file is reported
      unless closing the file fails. */
  function SegClose(io: Io, seg: Segment): (Segment, Option<Report>) {
    var seg1 := if seg.cur.Some? then Flush(io, seg).0 else seg;
    (seg1, if seg1.file && io.close then Some(ReportOf(seg1)) else None)
  }

  // ----- recorder -----

  function CloseSegment(disk: Disk, r: Rec): Rec
    requires r.seg.Some?
  {
    var (seg, report) := SegClose(disk(r.ops), r.seg.value);
    r.(seg := None, ops := r.ops + 1, closed := r.closed + [seg],
       reports := if report.Some? then r.reports + [report.value] else r.reports)
  }

  function CloseIfOpen(disk: Disk, r: Rec): Rec {
    if r.seg.Some? then CloseSegment(disk, r) else r
  }

  function Rates(tracks: seq<Track>): seq<int> {
    seq(|tracks|, i requires 0 <= i < |tracks| => tracks[i].rate)
  }

  function OpenSegment(r: Rec, start: (int, int)): Rec {
    r.(seg := Some(Segment(start.0, start.1, r.nextNumber, Rates(r.tracks), false, [], None, 0,
                           start.0, false, 0, 0, 0)),
       nextNumber := r.nextNumber + 1)
  }

  /** Decode time of a track's pending sample, if it has one. */
  function Pending(t: Track): Option<int>
    requires ValidTrack(t)
  {
    if t.next.Some? then Some(ToNanos(t.next.value.dts, t.rate)) else None
  }

  /** segmentStart over the first k tracks. */
  function StartOver(tracks: seq<Track>, k: nat, i: nat, dts: int, ntp: int): (int, int)
    requires k <= |tracks|
    requires forall j | 0 <= j < k :: ValidTrack(tracks[j])
  {
    if k == 0 then (dts, ntp)
    else
      var (d, n) := StartOver(tracks, k - 1, i, dts, ntp);
      var o := Pending(tracks[k - 1]);
      if k - 1 != i && o.Some? && o.value < d && d - o.value <= MAX_BASETIME
      then (o.value, tracks[k - 1].next.value.ntp) else (d, n)
  }

  /** The newest pending decode time, at least 0, over the first k tracks. */
  function NewestPending(tracks: seq<Track>, k: nat): int
    requires k <= |tracks|
    requires forall j | 0 <= j < k :: ValidTrack(tracks[j])
  {
    if k == 0 then 0
    else
      var o := Pending(tracks[k - 1]);
      if o.Some? then Max(NewestPending(tracks, k - 1), o.value) else NewestPending(tracks, k - 1)
  }

  /** The oldest pending sample within MAX_BASETIME of newest over the first k
      tracks; newest itself, at wall-clock time zero, when there is none. */
  function OldestPending(tracks: seq<Track>, k: nat, newest: int): (int, int)
    requires k <= |tracks|
    requires forall j | 0 <= j < k :: ValidTrack(tracks[j])
  {
    if k == 0 then (newest, 0)
    else
      var (d, n) := OldestPending(tracks, k - 1, newest);
      var o := Pending(tracks[k - 1]);
      if o.Some? && newest - o.value <= MAX_BASETIME && o.value <= d
      then (o.value, tracks[k - 1].next.value.ntp) else (d, n)
  }

  function SegmentStart(tracks: seq<Track>, i: nat, dts: int, ntp: int): (int, int)
    requires ValidTracks(tracks)
  {
    StartOver(tracks, |tracks|, i, dts, ntp)
  }

  function NextStart(tracks: seq<Track>): (int, int)
    requires ValidTracks(tracks)
  {
    OldestPending(tracks, |tracks|, NewestPending(tracks, |tracks|))
  }

  predicate VideoStalled(seg: Segment, dts: int) {
    dts - (if seg.hasVideo then seg.videoEndDTS else seg.startDTS) > MAX_SAMPLE_GAP
  }

  /** Whether a finalized sample may be written, and the recorder with the
      segment it goes into; None drops it. */
  function Admit(disk: Disk, r: Rec, i: nat, s: Sample, dts: int, audioOnly: bool): (a: Option<Rec>)
    requires Valid(r) && i < |r.tracks|
    ensures a.Some? ==> a.value.seg.Some? && a.value.tracks == r.tracks
  {
    var video := r.tracks[i].video;
    match r.seg
    case None =>
      if r.resync && r.hasVideo && !(video && !s.nonSync) && !(!video && audioOnly) then None
      else
        var r1 := if r.resync && r.hasVideo then r.(resync := false) else r;
        Some(OpenSegment(r1, SegmentStart(r.tracks, i, dts, s.ntp)))
    case Some(seg) =>
      if dts - seg.startDTS < 0 then None
      else if video && !seg.hasVideo then
        if s.nonSync then None
        else if dts - seg.startDTS > MAX_SAMPLE_GAP then
          var r1 := CloseSegment(disk, r);
          Some(OpenSegment(r1, SegmentStart(r.tracks, i, dts, s.ntp)))
        else Some(r)
      else Some(r)
  }

  predicate Rotates(r: Rec, i: nat, dts: int)
    requires Valid(r) && i < |r.tracks| && r.seg.Some? && r.tracks[i].next.Some?
  {
    var t := r.tracks[i];
    && (!r.hasVideo || t.video || VideoStalled(r.seg.value, dts))
    && !t.next.value.nonSync
    && ToNanos(t.next.value.dts, t.rate) - r.seg.value.startDTS >= r.cfg.segmentDuration
  }

  /** What follows a write: an error or a stall closes the segment, reaching the
      minimum duration on a keyframe rotates it. */
  function FinishWrite(disk: Disk, r: Rec, i: nat, ok: bool, gap: bool, dts: int): Rec
    requires Valid(r) && i < |r.tracks| && r.seg.Some? && r.tracks[i].next.Some?
  {
    if !ok || (gap && (!r.hasVideo || r.tracks[i].video)) then CloseSegment(disk, r).(resync := true)
    else if Rotates(r, i, dts) then OpenSegment(CloseSegment(disk, r), NextStart(r.tracks))
    else r
  }

  function Persist(disk: Disk, r: Rec, i: nat, s: Sample, gap: bool, dts: int): Rec
    requires Valid(r) && i < |r.tracks| && r.seg.Some? && r.tracks[i].next.Some?
  {
    var w := SegWrite(r.cfg, disk, r.ops, r.seg.value, i, r.tracks[i], s, dts);
    FinishWrite(disk, r.(seg := Some(w.seg), ops := w.ops), i, w.ok, gap, dts)
  }

  function StoreSample(disk: Disk, r: Rec, i: nat, s: Sample, gap: bool, audioOnly: bool): Rec
    requires Valid(r) && i < |r.tracks| && r.tracks[i].next.Some?
  {
    if !r.cfg.record then r
    else
      var dts := ToNanos(s.dts, r.tracks[i].rate);
      var a := Admit(disk, r, i, s, dts, audioOnly);
      if a.None? then r else Persist(disk, a.value, i, s, gap, dts)
  }

  function Received(r: Rec, i: nat, t: Track): Rec
    requires i < |r.tracks|
  {
    r.(hasVideo := r.hasVideo || r.tracks[i].video, tracks := r.tracks[i := t])
  }

  /** recTrack.write. */
  function Write(disk: Disk, r: Rec, i: nat, smp: Sample, audioOnly: bool): Rec
    requires Valid(r) && i < |r.tracks|
  {
    var look := Lookahead(r.tracks[i], smp);
    var r1 := Received(r, i, look.track);
    match look
    case Hold(_) => r1
    case Jump(_) => CloseIfOpen(disk, r1).(resync := true)
    case Final(_, s, gap) => StoreSample(disk, r1, i, s, gap, audioOnly)
  }

  /** A decoded video picture; extracted is what the codec's DTS extractor
      answers when it is asked (None: it fails). */
  datatype Picture = Picture(pts: int, randomAccess: bool, ntp: int, size: nat, extracted: Option<int>)

  /** The camera's clock went back: ends the segment and forgets the frame held
      for lookahead and the stream-clock anchor. */
  function DropTimeBase(disk: Disk, r: Rec): Rec
    requires 0 < |r.tracks|
  {
    var r1 := CloseIfOpen(disk, r);
    r1.(resync := true, hasLastPTS := false,
        tracks := r.tracks[0 := r.tracks[0].(next := None, anchored := false)])
  }

  function StartTimeBase(r: Rec, pic: Picture): (Rec, Option<int>) {
    if !pic.randomAccess then (r.(videoStarted := false), None)
    else (r.(lastPTS := pic.pts, hasLastPTS := true), Some(pic.pts))
  }

  /** A picture shown before the previous one: the camera's clock went back, or
      the stream reorders frames. */
  function PtsWentBack(disk: Disk, r: Rec, pic: Picture): (Rec, Option<int>)
    requires Valid(r) && 0 < |r.tracks|
  {
    if ToNanos(r.lastPTS - pic.pts, r.tracks[0].rate) <= MAX_REORDER_BACK then
      (r.(reordering := true, extractor := false), None)
    else
      StartTimeBase(DropTimeBase(disk, r), pic)
  }

  /** videoDecodeTime while no reordering was seen: decode time is presentation time. */
  function TimeFromPts(disk: Disk, r: Rec, pic: Picture): (Rec, Option<int>)
    requires Valid(r) && 0 < |r.tracks|
  {
    if !r.videoStarted && !pic.randomAccess then (r, None)
    else
      var r1 := r.(videoStarted := true);
      if r.hasLastPTS && pic.pts < r.lastPTS then PtsWentBack(disk, r1, pic)
      else (r1.(lastPTS := pic.pts, hasLastPTS := true), Some(pic.pts))
  }

  /** videoDecodeTime once the stream reorders, or without DTSFromPTS. */
  function TimeFromExtractor(r: Rec, pic: Picture): (Rec, Option<int>) {
    if !r.extractor && !pic.randomAccess then (r, None)
    else (r.(videoStarted := r.videoStarted || !r.extractor, extractor := pic.extracted.Some?), pic.extracted)
  }

  /** videoDecodeTime; the video track is track 0. */
  function DecodeTime(disk: Disk, r: Rec, pic: Picture): (Rec, Option<int>)
    requires Valid(r) && 0 < |r.tracks|
  {
    if r.reordering then TimeFromExtractor(r, pic) else TimeFromPts(disk, r, pic)
  }

  /** Go's int32(x). */
  function Int32(x: int): int {
    (x + 0x8000_0000) % UINT32 - 0x8000_0000
  }

  function VideoSample(pic: Picture, dts: int): Sample {
    Sample(0, dts, pic.ntp, Int32(pic.pts - dts), !pic.randomAccess, pic.size, 0)
  }

  /** processH264/processH265 for a picture with a coded slice. */
  function WriteVideo(disk: Disk, r: Rec, pic: Picture): Rec
    requires Valid(r) && 0 < |r.tracks|
  {
    var (r1, dts) := DecodeTime(disk, r, pic);
    if dts.None? then r1 else Write(disk, r1, 0, VideoSample(pic, dts.value), false)
  }

  /** One audio sample; mayStart and audioOnly are the two readings of audioOnly(),
      at the callback's gate and inside the write. */
  function WriteAudio(disk: Disk, r: Rec, i: nat, s: Sample, mayStart: bool, audioOnly: bool): Rec
    requires Valid(r) && i < |r.tracks|
  {
    if r.videoStarted || mayStart then Write(disk, r, i, s, audioOnly) else r
  }

  function NewTrack(rate: int, video: bool): Track {
    Track(rate, video, None, 0, false, 0, 0, 0)
  }

  function SessionTracks(rates: seq<int>): seq<Track> {
    seq(|rates|, i requires 0 <= i < |rates| => NewTrack(rates[i], i == 0))
  }

  /** Start forgets a segment that a session left open because it failed before it
      played: the file keeps what was written to it and is not reported. */
  function Abandon(r: Rec): Rec {
    match r.seg
    case None => r
    case Some(seg) => r.(seg := None, closed := r.closed + [seg.(cur := None)])
  }

  /** A new session. */
  function Reconnect(r: Rec, rates: seq<int>): Rec {
    Abandon(r).(tracks := SessionTracks(rates),
       hasVideo := false, resync := false,
       reordering := !r.cfg.dtsFromPts, videoStarted := false, hasLastPTS := false, extractor := false,
       live := true)
  }

  /** What can happen to a recorder. Hangup is Close() or the source ending: no
      sample arrives after it, and the open segment is finalized. A Connect without
      one follows a session that took samples and then failed at PLAY. */
  datatype Event =
    | Video(pic: Picture)
    | Audio(track: nat, sample: Sample, mayStart: bool, audioOnly: bool)
    | Hangup
    | Connect(rates: seq<int>)

  /** Audio comes from a track of the session, a session has a video track, and
      clocks are not faster than MAX_RATE. */
  predicate EventOk(r: Rec, ev: Event) {
    match ev
    case Audio(i, _, _, _) => 0 < i < |r.tracks|
    case Connect(rates) => |rates| > 0 && forall i | 0 <= i < |rates| :: 0 < rates[i] <= MAX_RATE
    case _ => true
  }

  function Step(disk: Disk, r: Rec, ev: Event): Rec
    requires Valid(r) && (r.live ==> 0 < |r.tracks|)
  {
    if !EventOk(r, ev) then r
    else match ev
      case Video(pic) => if r.live then WriteVideo(disk, r, pic) else r
      case Audio(i, s, mayStart, audioOnly) => if r.live then WriteAudio(disk, r, i, s, mayStart, audioOnly) else r
      case Hangup => CloseIfOpen(disk, r).(live := false)
      case Connect(rates) => Reconnect(r, rates)
  }

  function Initial(cfg: Config): Rec {
    Rec(cfg, [], false, false, None, 0, false, false, false, 0, false, false, 0, [], [])
  }
}
