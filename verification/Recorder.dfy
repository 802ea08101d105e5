/** The recorder in its own form: objects whose methods update their fields, each
    method proved equal to the function of RecorderSpec it performs. */
module Recorder {
  import opened Wrappers
  import opened Clock
  import opened RecorderSpec

  class RecTrack {
    const clockRate: int
    const video: bool
    var nextSample: Option<Sample>
    var lastDuration: nat
    var startInitialized: bool
    var startDTS: int
    var startNTP: int
    var received: nat

    constructor (rate: int, video: bool)
      ensures State() == NewTrack(rate, video)
    {
      clockRate, this.video := rate, video;
      nextSample, lastDuration, startInitialized := None, 0, false;
      startDTS, startNTP, received := 0, 0, 0;
    }

    function State(): Track
      reads this
    {
      Track(clockRate, video, nextSample, lastDuration, startInitialized, startDTS, startNTP, received)
    }

    /** The lookahead half of write: takes the pending sample's place and
        finalizes the pending one, whose duration is now known. */
    method Advance(smp: Sample) returns (look: Look)
      requires ValidTrack(State())
      modifies this
      ensures look == Lookahead(old(State()), smp)
      ensures State() == look.track
    {
      var pending := nextSample;
      nextSample := Some(smp.(n := received));
      received := received + 1;
      if pending.None? {
        return Hold(State());
      }
      var s := pending.value;
      var dts := ToNanos(s.dts, clockRate);
      if !startInitialized {
        startDTS, startNTP, startInitialized := dts, s.ntp, true;
      } else {
        var drift := (s.ntp - startNTP) - (dts - startDTS);
        if drift < -DRIFT_TOLERANCE || drift > DRIFT_TOLERANCE {
          startDTS, startNTP := dts, s.ntp;
          return Jump(State());
        }
      }
      var duration := nextSample.value.dts - s.dts;
      if duration < 0 {
        nextSample := Some(nextSample.value.(dts := s.dts));
        duration := 0;
      } else {
        var nextDTS := ToNanos(nextSample.value.dts, clockRate);
        var nextDrift := (nextSample.value.ntp - startNTP) - (nextDTS - startDTS);
        if nextDrift < -DRIFT_TOLERANCE || nextDrift > DRIFT_TOLERANCE {
          duration := 0;
        }
      }
      var gap := duration > clockRate * (MAX_SAMPLE_GAP / SECOND);
      if gap {
        if lastDuration > 0 {
          duration := lastDuration;
        } else {
          duration := clockRate / 25;
          if duration <= 0 { duration := 1; }
        }
      }
      s := s.(duration := duration % UINT32);
      lastDuration := s.duration;
      look := Final(State(), s, gap);
    }
  }

  /** One fragment being filled. */
  class PartBuffer {
    const segmentStartDTS: int
    const number: nat
    const startDTS: int
    var endDTS: int
    var size: nat
    var tracks: map<nat, PartTrack>

    constructor (segmentStartDTS: int, number: nat, startDTS: int)
      ensures State() == Part(number, startDTS, startDTS, 0, map[])
      ensures this.segmentStartDTS == segmentStartDTS
    {
      this.segmentStartDTS, this.number, this.startDTS := segmentStartDTS, number, startDTS;
      endDTS, size, tracks := startDTS, 0, map[];
    }

    function State(): Part
      reads this
    {
      Part(number, startDTS, endDTS, size, tracks)
    }

    method Write(maxSize: nat, i: nat, rate: int, s: Sample, dts: int) returns (ok: bool)
      requires rate > 0
      modifies this
      ensures ok == !(maxSize > 0 && old(size) + s.size > maxSize)
      ensures State() == if ok then PartAdd(old(State()), segmentStartDTS, i, rate, s, dts) else old(State())
    {
      if maxSize > 0 && size + s.size > maxSize {
        return false;
      }
      size := size + s.size;
      if i !in tracks {
        var baseDelta := dts - segmentStartDTS;
        if baseDelta < 0 { baseDelta := 0; }
        MulDivBounds(baseDelta, rate, SECOND);
        tracks := tracks[i := PartTrack(ToTicks(baseDelta, rate), [])];
      }
      tracks := tracks[i := tracks[i].(samples := tracks[i].samples + [s])];
      var end := dts + ToNanos(s.duration, rate);
      if end > endDTS { endDTS := end; }
      ok := true;
    }
  }

  /** One file: its init (the timescales) and the fragments written so far. */
  class SegmentFile {
    const startDTS: int
    const startNTP: int
    const number: nat
    const rates: seq<int>
    var file: bool
    var written: seq<Part>
    var curPart: PartBuffer?
    var nextPartNumber: nat
    var endDTS: int
    var hasVideo: bool
    var videoStart: int
    var videoEnd: int
    var videoEndDTS: int

    constructor (startDTS: int, startNTP: int, number: nat, rates: seq<int>)
      ensures Valid() && curPart == null
      ensures State() == Segment(startDTS, startNTP, number, rates, false, [], None, 0, startDTS, false, 0, 0, 0)
    {
      this.startDTS, this.startNTP, this.number, this.rates := startDTS, startNTP, number, rates;
      file, written, curPart, nextPartNumber := false, [], null, 0;
      endDTS, hasVideo, videoStart, videoEnd, videoEndDTS := startDTS, false, 0, 0, 0;
    }

    ghost predicate Valid()
      reads this
    {
      curPart != null ==> curPart.segmentStartDTS == startDTS
    }

    function State(): Segment
      reads this, curPart
    {
      Segment(startDTS, startNTP, number, rates, file, written,
              if curPart == null then None else Some(curPart.State()), nextPartNumber,
              endDTS, hasVideo, videoStart, videoEnd, videoEndDTS)
    }

    /** closeCurPart. */
    method FlushPart(io: Io) returns (ok: bool)
      requires Valid() && curPart != null
      modifies this
      ensures Valid() && curPart == old(curPart)
      ensures (State(), ok) == Flush(io, old(State()))
    {
      if !file {
        if !io.create { return false; }
        file := true;
      }
      if !io.write { return false; }
      written := written + [curPart.State()];
      ok := true;
    }

    method OpenPart(dts: int)
      requires Valid()
      modifies this
      ensures Valid() && curPart != null && fresh(curPart)
      ensures State() == NewPart(old(State()), dts)
    {
      curPart := new PartBuffer(startDTS, nextPartNumber, dts);
      nextPartNumber := nextPartNumber + 1;
    }

    method Extend(t: RecTrack, s: Sample, dts: int)
      requires Valid() && ValidTrack(t.State())
      modifies this
      ensures Valid() && curPart == old(curPart)
      ensures State() == Observe(old(State()), t.video, t.clockRate, s, dts)
    {
      var end := dts + ToNanos(s.duration, t.clockRate);
      if end > endDTS { endDTS := end; }
      if t.video {
        var pts := dts + ToNanos(s.cto, t.clockRate);
        var ptsEnd := pts + (end - dts);
        if !hasVideo || pts < videoStart { videoStart := pts; }
        hasVideo := true;
        videoEnd := Max(videoEnd, ptsEnd);
        videoEndDTS := Max(videoEndDTS, end);
      }
    }

    method Write(cfg: Config, disk: Disk, ops: nat, i: nat, t: RecTrack, s: Sample, dts: int)
      returns (ok: bool, ops1: nat)
      requires Valid() && ValidTrack(t.State())
      modifies this, curPart
      ensures Valid() && (curPart == null || curPart == old(curPart) || fresh(curPart))
      ensures Wrote(State(), ok, ops1) == SegWrite(cfg, disk, ops, old(State()), i, old(t.State()), s, dts)
    {
      Extend(t, s, dts);
      ops1 := ops;
      if curPart == null {
        OpenPart(dts);
      } else if curPart.endDTS - curPart.startDTS >= cfg.partDuration {
        ops1 := ops + 1;
        var flushed := FlushPart(disk(ops));
        if !flushed {
          curPart := null;
          return false, ops1;
        }
        OpenPart(dts);
      }
      ok := curPart.Write(cfg.maxPartSize, i, t.clockRate, s, dts);
    }

    method Close(io: Io) returns (report: Option<Report>)
      requires Valid()
      modifies this
      ensures Valid() && curPart == old(curPart)
      ensures (State(), report) == SegClose(io, old(State()))
    {
      if curPart != null {
        var _ := FlushPart(io);
      }
      report := None;
      if file {
        var duration := endDTS - startDTS;
        if hasVideo { duration := Max(duration, videoEnd - startDTS); }
        if io.close {
          report := Some(if hasVideo
                         then Report(number, startNTP, duration, videoStart - startDTS, videoEnd - videoStart)
                         else Report(number, startNTP, duration, 0, 0));
        }
      }
    }

    predicate Stalled(dts: int)
      reads this, curPart
      ensures Stalled(dts) == VideoStalled(State(), dts)
    {
      var last := if hasVideo then videoEndDTS else startDTS;
      dts - last > MAX_SAMPLE_GAP
    }
  }

  ghost predicate TracksValid(tracks: seq<RecTrack>) {
    && (forall i, j | 0 <= i < j < |tracks| :: tracks[i] != tracks[j])
    && (forall i | 0 <= i < |tracks| :: 0 < tracks[i].clockRate <= MAX_RATE)
  }

  ghost function StatesOf(tracks: seq<RecTrack>): seq<Track>
    reads tracks
  {
    seq(|tracks|, i requires 0 <= i < |tracks| reads tracks => tracks[i].State())
  }

  method NewTracks(rates: seq<int>) returns (added: seq<RecTrack>)
    requires forall k | 0 <= k < |rates| :: 0 < rates[k] <= MAX_RATE
    ensures fresh(added) && TracksValid(added)
    ensures StatesOf(added) == SessionTracks(rates)
  {
    added := [];
    for k := 0 to |rates|
      invariant |added| == k && fresh(added) && TracksValid(added)
      invariant forall j | 0 <= j < k :: added[j].State() == NewTrack(rates[j], j == 0)
    {
      var t := new RecTrack(rates[k], k == 0);
      added := added + [t];
    }
  }

  class Recorder {
    const cfg: Config
    const disk: Disk
    var tracks: seq<RecTrack>
    var hasVideo: bool
    var resyncKeyframe: bool
    var currentSegment: SegmentFile?
    var nextSegmentNumber: nat
    var reordering: bool
    var videoStarted: bool
    var hasLastPTS: bool
    var lastPTS: int
    var dtsExtractor: bool
    var live: bool
    var ops: nat
    var reports: seq<Report>
    ghost var closed: seq<Segment>

    constructor (cfg: Config, disk: Disk)
      ensures Valid() && State() == Initial(cfg) && this.disk == disk
    {
      this.cfg, this.disk := cfg, disk;
      tracks, currentSegment, nextSegmentNumber, ops := [], null, 0, 0;
      hasVideo, resyncKeyframe, live := false, false, false;
      reordering, videoStarted, hasLastPTS, lastPTS, dtsExtractor := false, false, false, 0, false;
      reports, closed := [], [];
    }

    ghost predicate Valid()
      reads this, currentSegment
    {
      TracksValid(tracks) && (currentSegment != null ==> currentSegment.Valid())
    }

    ghost function Tracks(): seq<Track>
      reads this, tracks
    {
      StatesOf(tracks)
    }

    ghost function State(): (r: Rec)
      reads this, tracks, currentSegment, if currentSegment == null then {} else {currentSegment.curPart}
      ensures r.tracks == StatesOf(tracks)
      ensures Valid() ==> RecorderSpec.Valid(r) && |r.tracks| == |tracks|
    {
      Rec(cfg, Tracks(), hasVideo, resyncKeyframe,
          if currentSegment == null then None else Some(currentSegment.State()), nextSegmentNumber,
          reordering, videoStarted, hasLastPTS, lastPTS, dtsExtractor, live, ops, closed, reports)
    }

    /** Closes the current segment and reports it when it reached the disk. */
    method CloseCurrent()
      requires Valid() && currentSegment != null
      modifies this, currentSegment
      ensures Valid() && tracks == old(tracks) && currentSegment == null
      ensures State() == CloseSegment(disk, old(State()))
    {
      hide SegClose;
      hide ToNanos;
      ghost var states := Tracks();
      var report := currentSegment.Close(disk(ops));
      closed := closed + [currentSegment.State()];
      reports := if report.Some? then reports + [report.value] else reports;
      currentSegment, ops := null, ops + 1;
      assert Tracks() == states;
    }

    method NewSegment(startDTS: int, startNTP: int)
      requires Valid()
      modifies this
      ensures Valid() && tracks == old(tracks) && fresh(currentSegment) && currentSegment.curPart == null
      ensures State() == OpenSegment(old(State()), (startDTS, startNTP))
    {
      var rates := [];
      for k := 0 to |tracks|
        invariant rates == Rates(Tracks())[..k]
        invariant Valid() && State() == old(State()) && tracks == old(tracks) && currentSegment == old(currentSegment)
      {
        rates := rates + [tracks[k].clockRate];
      }
      assert rates == Rates(Tracks());
      currentSegment := new SegmentFile(startDTS, startNTP, nextSegmentNumber, rates);
      nextSegmentNumber := nextSegmentNumber + 1;
    }

    /** nextSegmentStartingPos. */
    method NextSegmentStartingPos() returns (dts: int, ntp: int)
      requires Valid()
      ensures (dts, ntp) == NextStart(Tracks())
    {
      ghost var states := Tracks();
      var maxDTS := 0;
      for k := 0 to |tracks|
        invariant maxDTS == NewestPending(states, k)
      {
        assert states[k] == tracks[k].State();
        if tracks[k].nextSample.Some? {
          var d := ToNanos(tracks[k].nextSample.value.dts, tracks[k].clockRate);
          if d > maxDTS { maxDTS := d; }
        }
      }
      dts, ntp := maxDTS, 0;
      for k := 0 to |tracks|
        invariant (dts, ntp) == OldestPending(states, k, maxDTS)
      {
        assert states[k] == tracks[k].State();
        if tracks[k].nextSample.Some? {
          var d := ToNanos(tracks[k].nextSample.value.dts, tracks[k].clockRate);
          if maxDTS - d <= MAX_BASETIME && d <= dts {
            dts, ntp := d, tracks[k].nextSample.value.ntp;
          }
        }
      }
    }

    method StartOfSegment(i: nat, dts: int, ntp: int) returns (startDTS: int, startNTP: int)
      requires Valid()
      ensures (startDTS, startNTP) == SegmentStart(Tracks(), i, dts, ntp)
    {
      ghost var states := Tracks();
      startDTS, startNTP := dts, ntp;
      for k := 0 to |tracks|
        invariant (startDTS, startNTP) == StartOver(states, k, i, dts, ntp)
      {
        assert states[k] == tracks[k].State();
        if k != i && tracks[k].nextSample.Some? {
          var d := ToNanos(tracks[k].nextSample.value.dts, tracks[k].clockRate);
          if d < startDTS && startDTS - d <= MAX_BASETIME {
            startDTS, startNTP := d, tracks[k].nextSample.value.ntp;
          }
        }
      }
    }

    method OpenFor(i: nat, dts: int, ntp: int)
      requires Valid()
      modifies this
      ensures Valid() && tracks == old(tracks) && fresh(currentSegment) && currentSegment.curPart == null
      ensures State() == OpenSegment(old(State()), SegmentStart(old(State()).tracks, i, dts, ntp))
    {
      var startDTS, startNTP := StartOfSegment(i, dts, ntp);
      NewSegment(startDTS, startNTP);
    }

    /** The checks of write before a finalized sample reaches a segment; opens or
        replaces the segment when the sample must start one. */
    method Prepare(i: nat, s: Sample, dts: int, audioOnly: bool) returns (admitted: bool)
      requires Valid() && i < |tracks|
      modifies this, currentSegment
      ensures Valid() && tracks == old(tracks)
      ensures currentSegment == old(currentSegment) || (fresh(currentSegment) && currentSegment.curPart == null)
      ensures currentSegment == old(currentSegment) ==>
          currentSegment == null || currentSegment.curPart == old(currentSegment.curPart)
      ensures var a := Admit(disk, old(State()), i, s, dts, audioOnly);
        && admitted == a.Some? && State() == (if admitted then a.value else old(State()))
        && (admitted ==> currentSegment != null)
    {
      hide OpenSegment;
      hide CloseSegment;
      hide SegmentStart;
      hide ToNanos;
      var t := tracks[i];
      ghost var r := State();
      assert r.tracks[i] == t.State();
      hide StatesOf;
      if currentSegment == null {
        if resyncKeyframe && hasVideo && !(t.video && !s.nonSync) && !(!t.video && audioOnly) {
          return false;
        }
        if hasVideo { resyncKeyframe := false; }
        assert State() == if r.hasVideo then r.(resync := false) else r;
        OpenFor(i, dts, s.ntp);
      } else if dts - currentSegment.startDTS < 0 || (t.video && !currentSegment.hasVideo && s.nonSync) {
        return false;
      } else if t.video && !currentSegment.hasVideo && dts - currentSegment.startDTS > MAX_SAMPLE_GAP {
        Replace(i, dts, s.ntp);
      }
      admitted := true;
    }

    method Replace(i: nat, dts: int, ntp: int)
      requires Valid() && currentSegment != null
      modifies this, currentSegment
      ensures Valid() && tracks == old(tracks) && fresh(currentSegment) && currentSegment.curPart == null
      ensures State() == OpenSegment(CloseSegment(disk, old(State())), SegmentStart(old(State()).tracks, i, dts, ntp))
    {
      hide OpenSegment;
      hide SegmentStart;
      hide TracksValid;
      CloseCurrent();
      OpenFor(i, dts, ntp);
    }

    /** Finishes a segment after a write: an error or a stall closes it, reaching
        the minimum duration on a keyframe rotates it. */
    method Finish(i: nat, ok: bool, gap: bool, dts: int)
      requires Valid() && i < |tracks| && currentSegment != null && tracks[i].nextSample.Some?
      modifies this, currentSegment
      ensures Valid() && tracks == old(tracks)
      ensures State() == FinishWrite(disk, old(State()), i, ok, gap, dts)
    {
      hide OpenSegment;
      hide CloseSegment;
      hide NextStart;
      hide ToNanos;
      var t := tracks[i];
      ghost var r := State();
      assert r.tracks[i] == t.State();
      if !ok || (gap && (!hasVideo || t.video)) {
        CloseCurrent();
        resyncKeyframe := true;
        return;
      }
      var nextDTS := ToNanos(t.nextSample.value.dts, t.clockRate);
      if (!hasVideo || t.video || currentSegment.Stalled(dts))
         && !t.nextSample.value.nonSync
         && nextDTS - currentSegment.startDTS >= cfg.segmentDuration
      {
        CloseCurrent();
        assert Tracks() == r.tracks;
        var oldestDTS, oldestNTP := NextSegmentStartingPos();
        NewSegment(oldestDTS, oldestNTP);
      }
    }

    method WriteToSegment(i: nat, s: Sample, dts: int) returns (ok: bool)
      requires Valid() && i < |tracks| && currentSegment != null
      modifies this`ops, currentSegment, currentSegment.curPart
      ensures Valid()
      ensures var r := old(State());
        var w := SegWrite(cfg, disk, r.ops, r.seg.value, i, r.tracks[i], s, dts);
        ok == w.ok && State() == r.(seg := Some(w.seg), ops := w.ops)
    {
      hide SegWrite;
      hide ToNanos;
      hide SegmentFile.State;
      ghost var states := StatesOf(tracks);
      assert states[i] == tracks[i].State();
      var ops1;
      ok, ops1 := currentSegment.Write(cfg, disk, ops, i, tracks[i], s, dts);
      ops := ops1;
      assert StatesOf(tracks) == states;
    }

    method Store(i: nat, s: Sample, gap: bool, dts: int)
      requires Valid() && i < |tracks| && currentSegment != null && tracks[i].nextSample.Some?
      modifies this, currentSegment, currentSegment.curPart
      ensures Valid() && tracks == old(tracks)
      ensures State() == Persist(disk, old(State()), i, s, gap, dts)
    {
      hide SegWrite;
      hide FinishWrite;
      hide SegmentFile.State;
      var ok := WriteToSegment(i, s, dts);
      Finish(i, ok, gap, dts);
    }

    method EndSegment()
      requires Valid()
      modifies this, currentSegment
      ensures Valid() && tracks == old(tracks) && currentSegment == null
      ensures State() == CloseIfOpen(disk, old(State()))
    {
      if currentSegment != null { CloseCurrent(); }
    }

    /** recTrack.write for track i. */
    method Write(i: nat, smp: Sample, audioOnly: bool)
      requires Valid() && i < |tracks|
      modifies this, tracks[i], currentSegment, if currentSegment == null then {} else {currentSegment.curPart}
      ensures Valid() && tracks == old(tracks)
      ensures State() == RecorderSpec.Write(disk, old(State()), i, smp, audioOnly)
    {
      hide Lookahead;
      hide StoreSample;
      hide CloseIfOpen;
      hide ToNanos;
      ghost var r := State();
      assert r.tracks[i] == tracks[i].State();
      var look := Receive(i, smp);
      if look.Jump? {
        EndSegment();
        ghost var states := Tracks();
        resyncKeyframe := true;
        assert Tracks() == states;
      } else if look.Final? {
        StoreFinal(i, look.sample, look.gap, audioOnly);
      }
    }

    method Receive(i: nat, smp: Sample) returns (look: Look)
      requires Valid() && i < |tracks|
      modifies this`hasVideo, tracks[i]
      ensures tracks[i].nextSample.Some? && look == Lookahead(old(State()).tracks[i], smp)
      ensures State() == Received(old(State()), i, look.track)
    {
      hide Lookahead;
      hide SegmentFile.State;
      hide ToNanos;
      ghost var states := StatesOf(tracks);
      assert states[i] == tracks[i].State() && ValidTrack(states[i]);
      hasVideo := hasVideo || tracks[i].video;
      look := tracks[i].Advance(smp);
      assert StatesOf(tracks) == states[i := look.track];
    }

    method StoreFinal(i: nat, s: Sample, gap: bool, audioOnly: bool)
      requires Valid() && i < |tracks| && tracks[i].nextSample.Some?
      modifies this, currentSegment, if currentSegment == null then {} else {currentSegment.curPart}
      ensures Valid() && tracks == old(tracks)
      ensures State() == StoreSample(disk, old(State()), i, s, gap, audioOnly)
    {
      hide Admit;
      hide Persist;
      hide ToNanos;
      ghost var r := State();
      assert r.tracks[i] == tracks[i].State();
      if !cfg.record { return; }
      var dts := ToNanos(s.dts, tracks[i].clockRate);
      var admitted := Prepare(i, s, dts, audioOnly);
      assert Tracks() == r.tracks;
      if admitted { Store(i, s, gap, dts); }
    }

    /** videoDecodeTime. */
    method VideoDecodeTime(pic: Picture) returns (dts: Option<int>)
      requires Valid() && 0 < |tracks|
      modifies this, tracks[0], currentSegment
      ensures Valid() && tracks == old(tracks)
      ensures currentSegment == null
              || (currentSegment == old(currentSegment) && currentSegment.curPart == old(currentSegment.curPart))
      ensures (State(), dts) == DecodeTime(disk, old(State()), pic)
    {
      hide TimeFromPts;
      hide TimeFromExtractor;
      if reordering {
        dts := DecodeFromExtractor(pic);
      } else {
        dts := DecodeFromPts(pic);
      }
    }

    method DecodeFromExtractor(pic: Picture) returns (dts: Option<int>)
      requires Valid()
      modifies this
      ensures Valid() && tracks == old(tracks) && currentSegment == old(currentSegment)
      ensures (State(), dts) == TimeFromExtractor(old(State()), pic)
    {
      hide StatesOf;
      hide SegmentFile.State;
      hide TracksValid;
      if !dtsExtractor && !pic.randomAccess { return None; }
      videoStarted := videoStarted || !dtsExtractor;
      dtsExtractor := pic.extracted.Some?;
      dts := pic.extracted;
    }

    method DecodeFromPts(pic: Picture) returns (dts: Option<int>)
      requires Valid() && 0 < |tracks|
      modifies this, tracks[0], currentSegment
      ensures Valid() && tracks == old(tracks)
      ensures currentSegment == null
              || (currentSegment == old(currentSegment) && currentSegment.curPart == old(currentSegment.curPart))
      ensures (State(), dts) == TimeFromPts(disk, old(State()), pic)
    {
      hide PtsWentBack;
      hide StatesOf;
      hide TracksValid;
      hide SegmentFile.State;
      if !videoStarted && !pic.randomAccess { return None; }
      videoStarted := true;
      if hasLastPTS && pic.pts < lastPTS {
        dts := GoBack(pic);
      } else {
        lastPTS, hasLastPTS := pic.pts, true;
        dts := Some(pic.pts);
      }
    }

    method GoBack(pic: Picture) returns (dts: Option<int>)
      requires Valid() && 0 < |tracks|
      modifies this, tracks[0], currentSegment
      ensures Valid() && tracks == old(tracks)
      ensures currentSegment == null
              || (currentSegment == old(currentSegment) && currentSegment.curPart == old(currentSegment.curPart))
      ensures (State(), dts) == PtsWentBack(disk, old(State()), pic)
    {
      hide RecorderSpec.DropTimeBase;
      hide ToNanos;
      hide TracksValid;
      hide SegmentFile.State;
      assert State().tracks[0] == tracks[0].State();
      hide StatesOf;
      var back := ToNanos(lastPTS - pic.pts, tracks[0].clockRate);
      if back <= MAX_REORDER_BACK {
        reordering, dtsExtractor := true, false;
        return None;
      }
      DropTimeBase();
      hide RecorderSpec.StartTimeBase;
      dts := StartTimeBase(pic);
    }

    method StartTimeBase(pic: Picture) returns (dts: Option<int>)
      requires Valid()
      modifies this
      ensures Valid() && tracks == old(tracks) && currentSegment == old(currentSegment)
      ensures (State(), dts) == RecorderSpec.StartTimeBase(old(State()), pic)
    {
      hide StatesOf;
      hide TracksValid;
      hide SegmentFile.State;
      if !pic.randomAccess {
        videoStarted := false;
        return None;
      }
      lastPTS, hasLastPTS := pic.pts, true;
      dts := Some(pic.pts);
    }

    method DropTimeBase()
      requires Valid() && 0 < |tracks|
      modifies this, tracks[0], currentSegment
      ensures Valid() && tracks == old(tracks) && currentSegment == null
      ensures State() == RecorderSpec.DropTimeBase(disk, old(State()))
    {
      hide CloseSegment;
      ghost var r := State();
      assert r.tracks[0] == tracks[0].State();
      EndSegment();
      resyncKeyframe := true;
      tracks[0].nextSample := None;
      tracks[0].startInitialized := false;
      hasLastPTS := false;
      assert Tracks() == r.tracks[0 := r.tracks[0].(next := None, anchored := false)];
    }

    /** A picture with a coded slice (processH264, processH265). */
    method OnPicture(pic: Picture)
      requires Valid() && 0 < |tracks|
      modifies this, tracks[0], currentSegment, if currentSegment == null then {} else {currentSegment.curPart}
      ensures Valid() && tracks == old(tracks)
      ensures State() == WriteVideo(disk, old(State()), pic)
    {
      hide DecodeTime;
      hide RecorderSpec.Write;
      var dts := VideoDecodeTime(pic);
      if dts.Some? {
        Write(0, VideoSample(pic, dts.value), false);
      }
    }

    /** The end of a session: Close(), or the source ending. */
    method Hangup()
      requires Valid()
      modifies this, currentSegment
      ensures Valid() && tracks == old(tracks) && currentSegment == null
      ensures State() == CloseIfOpen(disk, old(State())).(live := false)
    {
      EndSegment();
      live := false;
    }

    /** One audio sample from its packet callback. */
    method OnAudio(i: nat, smp: Sample, mayStart: bool, audioOnly: bool)
      requires Valid() && i < |tracks|
      modifies this, tracks[i], currentSegment, if currentSegment == null then {} else {currentSegment.curPart}
      ensures Valid() && tracks == old(tracks)
      ensures State() == WriteAudio(disk, old(State()), i, smp, mayStart, audioOnly)
    {
      hide RecorderSpec.Write;
      if videoStarted || mayStart {
        Write(i, smp, audioOnly);
      }
    }

    /** Start's first step: a segment still open is forgotten. */
    method ForgetSegment()
      requires Valid()
      modifies `currentSegment, `closed
      ensures Valid() && tracks == old(tracks) && currentSegment == null
      ensures State() == Abandon(old(State()))
    {
      hide StatesOf;
      if currentSegment != null {
        closed := closed + [currentSegment.State().(cur := None)];
        currentSegment := null;
      }
    }

    /** The session fields as Start resets them. */
    method ResetSession()
      modifies `hasVideo, `resyncKeyframe, `reordering, `videoStarted, `hasLastPTS, `dtsExtractor, `live
      ensures State() == old(State()).(
        hasVideo := false, resync := false, reordering := !cfg.dtsFromPts, videoStarted := false,
        hasLastPTS := false, extractor := false, live := true)
    {
      hide StatesOf;
      hide SegmentFile.State;
      hasVideo, resyncKeyframe := false, false;
      reordering, videoStarted, hasLastPTS, dtsExtractor := !cfg.dtsFromPts, false, false, false;
      live := true;
    }

    /** A new session: Start resets the state and adds one track per media. */
    method Connect(rates: seq<int>)
      requires Valid() && forall k | 0 <= k < |rates| :: 0 < rates[k] <= MAX_RATE
      modifies this
      ensures Valid() && fresh(tracks) && currentSegment == null
      ensures State() == Reconnect(old(State()), rates)
    {
      hide TracksValid;
      hide StatesOf;
      hide SessionTracks;
      hide SegmentFile.State;
      hide Abandon;
      ForgetSegment();
      ResetSession();
      var added := NewTracks(rates);
      tracks := added;
    }
  }
}
