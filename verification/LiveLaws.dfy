/** What reaches a live stream and its viewers, told from the events alone. */
module LiveLaws {
  import opened Wrappers
  import opened Clock
  import opened LiveSpec
  import opened LiveProofs

  // ----- which tracks a stream has -----

  /** What a browser can play. */
  predicate Playable(t: Source) {
    t.codec == H264 || t.codec == H265(true) || t.codec == MPEG4Audio
  }

  /** The first video track, zero without one. */
  function FirstVideo(all: seq<Source>): int {
    if all == [] then 0
    else if (all[0].codec == H264 || all[0].codec == H265(true)) && all[0].id != 0 then all[0].id
    else FirstVideo(all[1..])
  }

  /** The clock of a track: that of its last description. */
  function ClockOf(all: seq<Source>, id: int): int {
    if all == [] then 0
    else if Playable(Last(all)) && Last(all).id == id then Last(all).scale
    else ClockOf(all[..|all| - 1], id)
  }

  lemma {:induction false} VideoMore(rest: seq<Source>, t: Source)
    ensures FirstVideo(rest + [t])
         == if FirstVideo(rest) != 0 then FirstVideo(rest)
            else if (t.codec == H264 || t.codec == H265(true)) && t.id != 0 then t.id else 0
  {
    if rest == [] {
      assert [] + [t] == [t] && [t][1..] == [];
    } else {
      VideoMore(rest[1..], t);
      assert (rest + [t])[1..] == rest[1..] + [t];
    }
  }

  lemma {:induction false} VideoIsFirst(all: seq<Source>)
    ensures VideoOf(all) == FirstVideo(all)
  {
    if all != [] {
      VideoIsFirst(all[..|all| - 1]);
      VideoMore(all[..|all| - 1], Last(all));
      assert all == all[..|all| - 1] + [Last(all)];
    }
  }

  lemma {:induction false} ScaleIsClock(all: seq<Source>, id: int)
    ensures id in ScaleOf(all) <==> exists t | t in all :: Playable(t) && t.id == id
    ensures id in ScaleOf(all) ==> ScaleOf(all)[id] == ClockOf(all, id)
  {
    if all != [] {
      var rest := all[..|all| - 1];
      ScaleIsClock(rest, id);
      assert forall t :: t in all <==> t in rest || t == Last(all);
    }
  }

  lemma {:induction false} IncludedAre(all: seq<Source>, t: Source)
    ensures t in IncludedOf(all) <==> t in all && Playable(t)
  {
    if all != [] {
      var rest := all[..|all| - 1];
      IncludedAre(rest, t);
      assert t in all <==> t in rest || t == Last(all);
    }
  }

  // ----- which samples are taken -----

  /** The tracks of the stream that is running after the events, if one is. */
  function Streaming(events: seq<Event>): Option<seq<Source>> {
    if events == [] then None
    else
      match Last(events)
      case Connect(all, init) =>
        if FirstVideo(all) != 0 && init.Some? then Some(all) else Streaming(events[..|events| - 1])
      case Disconnect => None
      case _ => Streaming(events[..|events| - 1])
  }

  /** Only samples of playable tracks are taken, and of the video no frame shorter
      than 3 ms or a tick but keyframes. */
  predicate Passes(all: seq<Source>, id: int, s: Sample) {
    && (exists t | t in all :: Playable(t) && t.id == id)
    && (id == FirstVideo(all) && s.nonSync ==> s.duration >= 1 && s.duration >= 3 * ClockOf(all, id) / 1000)
  }

  datatype Offered = Offered(id: int, sample: Sample, dts: int)

  /** The samples written since the stream was connected that it should hold. */
  function Taken(events: seq<Event>): seq<Offered> {
    if events == [] then []
    else
      var init := events[..|events| - 1];
      match Last(events)
      case Connect(all, i) => if FirstVideo(all) != 0 && i.Some? then [] else Taken(init)
      case Write(id, s, dts) =>
        if Streaming(init).Some? && Passes(Streaming(init).value, id, s) then Taken(init) + [Offered(id, s, dts)]
        else Taken(init)
      case _ => Taken(init)
  }

  function OffersOf(given: seq<Given>): seq<Offered> {
    seq(|given|, k requires 0 <= k < |given| => Offered(given[k].id, given[k].sample, given[k].dts))
  }

  /** l is as the events tell. */
  ghost predicate Tells(l: Live, events: seq<Event>) {
    && (l.running <==> Streaming(events).Some?)
    && (l.running ==>
          var all := Streaming(events).value;
          && l.tracks == IncludedOf(all) && l.scale == ScaleOf(all) && l.videoID == VideoOf(all)
          && OffersOf(l.cur.given) == Taken(events))
  }

  lemma FlushGiven(enc: Encoder, l: Live)
    ensures var l1 := Flush(enc, l);
      && l1.running == l.running && l1.tracks == l.tracks && l1.scale == l.scale && l1.videoID == l.videoID
      && l1.cur.given == l.cur.given && ShiftOk(l1) == ShiftOk(l)
  {
    if Collect(l.tracks, l.acc) != [] { FlushFrame(enc, l); }
    hide Collect;
    hide OfferAll;
    hide Keep;
  }

  /** What the stream was set up with. */
  ghost predicate SameSetup(l1: Live, l: Live) {
    l1.running == l.running && l1.tracks == l.tracks && l1.scale == l.scale && l1.videoID == l.videoID
  }

  /** Whether a stream should take a sample. */
  predicate Takes(l: Live, id: int, s: Sample) {
    && l.running && id in l.scale
    && var clock: int := l.scale[id];
       id == l.videoID && s.nonSync ==> s.duration >= 1 && s.duration >= 3 * clock / 1000
  }

  /** The stream a taken sample is added to. */
  ghost function CutBefore(enc: Encoder, l: Live, id: int, s: Sample): Live {
    if id == l.videoID && !s.nonSync && l.acc.hasVideo then Flush(enc, l) else l
  }

  lemma WriteIs(enc: Encoder, l: Live, id: int, s: Sample, dts: int)
    requires ShiftOk(l)
    ensures !Takes(l, id, s) ==> WriteSample(enc, l, id, s, dts) == l
    ensures var l0 := CutBefore(enc, l, id, s);
      && SameSetup(l0, l) && l0.cur.given == l.cur.given && ShiftOk(l0)
      && (Takes(l, id, s) ==> WriteSample(enc, l, id, s, dts) == Take(enc, l0, id, s, dts))
  {
    FlushGiven(enc, l);
    hide Flush;
    hide Take;
  }

  /** A write appends its sample, as it came, exactly when it should be taken, and
      otherwise changes nothing. */
  lemma WriteTakes(enc: Encoder, l: Live, id: int, s: Sample, dts: int)
    requires Inv(enc, l)
    ensures ShiftOk(l)
    ensures var l1 := WriteSample(enc, l, id, s, dts);
      && SameSetup(l1, l) && (!Takes(l, id, s) ==> l1 == l)
      && (Takes(l, id, s) ==> OffersOf(l1.cur.given) == OffersOf(l.cur.given) + [Offered(id, s, dts)])
  {
    InvShift(enc, l);
    hide Inv;
    WriteIs(enc, l, id, s, dts);
    hide WriteSample;
    hide CutBefore;
    hide OffersOf;
    if Takes(l, id, s) { TakeAppends(enc, CutBefore(enc, l, id, s), id, s, dts); }
    hide Take;
  }

  lemma TakeAppends(enc: Encoder, l: Live, id: int, s: Sample, dts: int)
    requires ShiftOk(l) && id in l.scale
    ensures var l1 := Take(enc, l, id, s, dts);
      SameSetup(l1, l) && OffersOf(l1.cur.given) == OffersOf(l.cur.given) + [Offered(id, s, dts)]
  {
    hide Added;
    hide Flush;
    AddedFrame(l, id, s, dts);
    var l1 := Added(l, id, s, dts);
    FlushGiven(enc, l1);
  }

  lemma ConnectTells(l: Live, done: seq<Event>, all: seq<Source>, init: Option<Bytes>)
    requires Tells(l, done) && Allowed(l, Connect(all, init))
    ensures Tells(SetTracks(l, all, init).0, done + [Connect(all, init)])
  {
    hide ScaleOf;
    hide IncludedOf;
    hide VideoOf;
    hide FirstVideo;
    VideoIsFirst(all);
    assert (done + [Connect(all, init)])[..|done|] == done;
    assert OffersOf([]) == [];
  }

  lemma WriteTells(enc: Encoder, l: Live, done: seq<Event>, id: int, s: Sample, dts: int)
    requires Inv(enc, l) && Tells(l, done)
    ensures ShiftOk(l) && Tells(WriteSample(enc, l, id, s, dts), done + [Write(id, s, dts)])
  {
    hide *;
    WriteTakes(enc, l, id, s, dts);
    TakesIf(l, done, id, s);
    TakenTells(WriteSample(enc, l, id, s, dts), l, done, id, s, dts);
  }

  lemma TakesIf(l: Live, done: seq<Event>, id: int, s: Sample)
    requires Tells(l, done)
    ensures Takes(l, id, s) <==> Streaming(done).Some? && Passes(Streaming(done).value, id, s)
  {
    hide Takes;
    hide Passes;
    hide Streaming;
    if l.running { TakesPasses(l, Streaming(done).value, id, s); } else { NoneTaken(l, id, s); }
  }

  lemma TakenTells(l1: Live, l: Live, done: seq<Event>, id: int, s: Sample, dts: int)
    requires Tells(l, done) && SameSetup(l1, l) && (!Takes(l, id, s) ==> l1 == l)
    requires Takes(l, id, s) ==> OffersOf(l1.cur.given) == OffersOf(l.cur.given) + [Offered(id, s, dts)]
    requires Takes(l, id, s) <==> Streaming(done).Some? && Passes(Streaming(done).value, id, s)
    ensures Tells(l1, done + [Write(id, s, dts)])
  {
    hide ScaleOf;
    hide VideoOf;
    hide IncludedOf;
    hide OffersOf;
    hide Takes;
    hide Passes;
    var events := done + [Write(id, s, dts)];
    assert events[..|events| - 1] == done && Last(events) == Write(id, s, dts);
    assert Streaming(events) == Streaming(done);
  }

  lemma NoneTaken(l: Live, id: int, s: Sample)
    requires !l.running
    ensures !Takes(l, id, s)
  {
  }

  lemma TakesPasses(l: Live, all: seq<Source>, id: int, s: Sample)
    requires l.running && l.scale == ScaleOf(all) && l.videoID == VideoOf(all)
    ensures Takes(l, id, s) <==> Passes(all, id, s)
  {
    VideoIsFirst(all);
    ScaleIsClock(all, id);
    hide ScaleOf;
    hide VideoOf;
    hide FirstVideo;
    hide ClockOf;
  }

  /** Everything else leaves the stream as it is, or ends it. */
  lemma OtherTells(enc: Encoder, l: Live, done: seq<Event>, e: Event)
    requires ShiftOk(l) && Tells(l, done) && !e.Connect? && !e.Write?
    ensures Tells(Step(enc, l, e), done + [e])
  {
    hide ScaleOf;
    hide VideoOf;
    hide IncludedOf;
    hide FirstVideo;
    hide Passes;
    hide OffersOf;
    hide CutAll;
    hide Send;
    hide GoAway;
    hide SetTracks;
    hide WriteSample;
    assert (done + [e])[..|done|] == done;
  }

  lemma StepTells(enc: Encoder, l: Live, done: seq<Event>, e: Event)
    requires Inv(enc, l) && Tells(l, done) && Allowed(l, e)
    ensures ShiftOk(l) && Tells(Step(enc, l, e), done + [e])
  {
    InvShift(enc, l);
    hide Inv;
    hide Tells;
    hide SetTracks;
    hide WriteSample;
    match e
    case Connect(all, init) => ConnectTells(l, done, all, init);
    case Write(id, s, dts) => WriteTells(enc, l, done, id, s, dts);
    case _ => OtherTells(enc, l, done, e);
  }

  lemma {:induction false} RunTells(enc: Encoder, l: Live, done: seq<Event>, rest: seq<Event>)
    requires Inv(enc, l) && Disciplined(enc, l, rest) && Tells(l, done)
    ensures Tells(Run(enc, l, rest), done + rest)
    decreases |rest|
  {
    hide Tells;
    hide Inv;
    hide Step;
    hide Allowed;
    if rest == [] {
      assert done + rest == done;
    } else {
      StepTells(enc, l, done, rest[0]);
      StepOk(enc, l, rest[0]);
      RunTells(enc, Step(enc, l, rest[0]), done + [rest[0]], rest[1..]);
      assert (done + [rest[0]]) + rest[1..] == done + rest;
    }
  }

  /** Over every run: the stream runs exactly when the last connect that could be
      served was not ended since, it then has the playable tracks of that connect,
      and what it took since is exactly what was written of those tracks, in order
      and as it came, but video frames other than keyframes under 3 ms. */
  lemma TakenExactly(enc: Encoder, events: seq<Event>)
    requires Well(enc, events)
    ensures var l := After(enc, events);
      && (l.running <==> Streaming(events).Some?)
      && (l.running ==>
            && (forall t :: t in l.tracks <==> t in Streaming(events).value && Playable(t))
            && l.videoID == FirstVideo(Streaming(events).value)
            && OffersOf(l.cur.given) == Taken(events))
  {
    InitialOk(enc);
    assert OffersOf([]) == [];
    RunTells(enc, INITIAL, [], events);
    assert [] + events == events;
    var l := After(enc, events);
    if l.running {
      var all := Streaming(events).value;
      VideoIsFirst(all);
      forall t ensures t in l.tracks <==> t in all && Playable(t) { IncludedAre(all, t); }
    }
    hide Run;
    hide Streaming;
    hide Taken;
  }

  // ----- when parts are cut -----

  /** The wall-clock span of some video, frame by frame. */
  function Lasts(samples: seq<Sample>, scale: Rate): nat {
    if samples == [] then 0
    else Lasts(samples[..|samples| - 1], scale) + Last(samples).duration * SECOND / scale
  }

  lemma {:induction false} LastsIs(samples: seq<Sample>, scale: Rate)
    ensures Durations(samples, scale) == Lasts(samples, scale)
  {
    if samples != [] { LastsIs(samples[..|samples| - 1], scale); }
  }

  /** The video waiting in the part being built: what was taken of it and is in no part. */
  function Waiting(l: Live): seq<Sample> {
    var all, n := GivenTo(l.cur.given, l.videoID), |Flat(l.cur.flushed, l.videoID)|;
    if n <= |all| then all[n..] else []
  }

  lemma WaitingIs(enc: Encoder, l: Live)
    requires Inv(enc, l) && l.running
    ensures Waiting(l) == Get(l.acc.samples, l.videoID) && (l.acc.hasVideo <==> Waiting(l) != [])
    ensures l.videoID in l.scale && l.acc.videoDur == Lasts(Waiting(l), l.scale[l.videoID])
    ensures exists t | t in l.tracks :: t.id == l.videoID
  {
    assert Building(l) && Kept(l);
    LastsIs(Get(l.acc.samples, l.videoID), l.scale[l.videoID]);
    hide Inv;
    hide Lasts;
    hide Durations;
    hide GivenTo;
    hide Flat;
    hide KeyFirst;
  }

  lemma CutOnce(enc: Encoder, l: Live)
    requires Inv(enc, l) && l.running && Waiting(l) != []
    ensures var l1 := Flush(enc, l); |l1.cur.flushed| == |l.cur.flushed| + 1 && l1.acc == EMPTY
  {
    WaitingIs(enc, l);
    CollectIn(l.tracks, l.acc, l.videoID);
    hide Inv;
    hide Waiting;
    FlushFrame(enc, l);
    hide Flush;
  }

  /** The part with a sample is cut exactly when that is video and brings the video
      of the part to 300 ms. */
  lemma TakeCuts(enc: Encoder, l: Live, id: int, s: Sample, dts: int)
    requires Inv(enc, l) && l.running && id in l.scale
    requires id == l.videoID && !s.nonSync ==> Waiting(l) == []
    ensures ShiftOk(l)
    ensures var l1 := Take(enc, l, id, s, dts);
      |l1.cur.flushed| == |l.cur.flushed|
        + if id == l.videoID && Lasts(Waiting(l) + [s], l.scale[id]) >= 300_000_000 then 1 else 0
  {
    InvShift(enc, l);
    WaitingIs(enc, l);
    AddedWaits(enc, l, id, s, dts);
    AddedFrame(l, id, s, dts);
    var l1 := Added(l, id, s, dts);
    hide Added;
    hide Inv;
    hide Waiting;
    hide Flush;
    hide Lasts;
    if id == l.videoID && l1.acc.videoDur >= PART_DURATION { CutBase(enc, l1); }
  }

  lemma AddedWaits(enc: Encoder, l: Live, id: int, s: Sample, dts: int)
    requires Inv(enc, l) && l.running && id in l.scale && ShiftOk(l)
    requires id == l.videoID && !s.nonSync ==> Waiting(l) == []
    ensures var l1 := Added(l, id, s, dts);
      && LiveProofs.Base(enc, l1)
      && (id == l.videoID ==> l1.acc.videoDur == Lasts(Waiting(l) + [s], l.scale[id]) && l1.acc.hasVideo)
  {
    hide *;
    WaitingIs(enc, l);
    BaseNow(enc, l);
    AddedOk(enc, l, id, s, dts);
    if id == l.videoID {
      LastsMore(Waiting(l), s, l.scale[id]);
      AddedAcc(l, id, s, dts);
      AddedLasts(l, s, dts);
    }
  }

  lemma BaseNow(enc: Encoder, l: Live)
    requires Inv(enc, l)
    ensures LiveProofs.Base(enc, l) && (l.running ==> AccOk(l) && l.videoID in l.scale)
  {
  }

  lemma LastsMore(samples: seq<Sample>, s: Sample, scale: Rate)
    ensures Lasts(samples + [s], scale) == Lasts(samples, scale) + s.duration * SECOND / scale
  {
    assert (samples + [s])[..|samples|] == samples;
  }

  lemma AddedLasts(l: Live, s: Sample, dts: int)
    requires ShiftOk(l) && l.videoID in l.scale
    ensures Added(l, l.videoID, s, dts).acc.videoDur == l.acc.videoDur + s.duration * SECOND / l.scale[l.videoID]
  {
    hide Shifted;
  }

  lemma CutBase(enc: Encoder, l: Live)
    requires LiveProofs.Base(enc, l) && l.running && l.acc.hasVideo
    ensures |Flush(enc, l).cur.flushed| == |l.cur.flushed| + 1
  {
    assert AccOk(l) && Carries(l.tracks, l.scale) && l.videoID in l.scale;
    CollectIn(l.tracks, l.acc, l.videoID);
    hide LiveProofs.Base;
    FlushFrame(enc, l);
    hide Flush;
  }

  /** A write cuts the part before it exactly when it is a keyframe and video waits
      there, and the part with it exactly when the video there reaches 300 ms. */
  lemma PartsAreCut(enc: Encoder, l: Live, id: int, s: Sample, dts: int)
    requires Inv(enc, l)
    ensures ShiftOk(l)
    ensures var l1 := WriteSample(enc, l, id, s, dts);
      var taken := Takes(l, id, s);
      var before := taken && id == l.videoID && !s.nonSync && Waiting(l) != [];
      var video := (if before then [] else Waiting(l)) + [s];
      var after := taken && id == l.videoID && Lasts(video, l.scale[id]) >= 300_000_000;
      |l1.cur.flushed| == |l.cur.flushed| + (if before then 1 else 0) + (if after then 1 else 0)
  {
    InvShift(enc, l);
    WriteIs(enc, l, id, s, dts);
    hide WriteSample;
    hide Take;
    hide Lasts;
    hide Flush;
    if Takes(l, id, s) {
      WaitingIs(enc, l);
      if id == l.videoID && !s.nonSync && Waiting(l) != [] {
        CutOnce(enc, l);
        CutFresh(enc, l);
      }
      hide Inv;
      hide Waiting;
      TakeCuts(enc, CutBefore(enc, l, id, s), id, s, dts);
    }
  }

  lemma CutFresh(enc: Encoder, l: Live)
    requires Inv(enc, l) && l.running && Waiting(l) != []
    ensures Inv(enc, Flush(enc, l)) && Waiting(Flush(enc, l)) == []
  {
    WaitingIs(enc, l);
    FlushOk(enc, l);
    var l1 := Flush(enc, l);
    hide Flush;
    WaitingIs(enc, l1);
    hide Inv;
    hide Waiting;
  }

  // ----- what viewers get -----

  /** What the parts just sent make of a viewer: one that is subscribed has them
      queued, unless more than 128 would wait, when it is cut off. */
  predicate Reached(v: Viewer, v1: Viewer, parts: seq<Sent>) {
    if !v.registered then v1 == v
    else if |v.queue| + |parts| <= 128 then v1 == v.(queue := v.queue + Datas(parts))
    else v1 == v.(registered := false, closes := v.closes + 1)
  }

  /** A part that goes out reaches every viewer so, and one that could not be
      marshalled or is empty reaches none. */
  lemma PartsReachViewers(enc: Encoder, l: Live, k: nat)
    requires k < |l.viewers|
    ensures var l1 := Flush(enc, l);
      && |l1.viewers| == |l.viewers| && l.cur.parts <= l1.cur.parts && |l1.cur.parts| <= |l.cur.parts| + 1
      && (forall v | v in l.viewers && v.registered :: |v.queue| <= 128) ==>
           Reached(l.viewers[k], l1.viewers[k], l1.cur.parts[|l.cur.parts|..])
  {
    hide Collect;
    var l1 := Flush(enc, l);
    var parts := l1.cur.parts[|l.cur.parts|..];
    if parts == [] { assert Datas(parts) == []; } else { assert Datas(parts) == [parts[0].data]; }
    assert l.viewers[k] in l.viewers;
    var q := l.viewers[k].queue;
    assert q + [] == q;
  }

  /** A handler ends exactly when a write fails, or its channel is closed and nothing
      is left to write; each write that works moves on by one item of what it is to
      send, the init first. */
  lemma HandlerWrites(v: Viewer, ok: bool)
    ensures var v1 := Send(v, ok);
      var more := !v.initSent || v.gop != [] || v.queue != [];
      && (v1.left <==> v.left || (more && !ok) || (!more && v.closes > 0))
      && (!v.left && more && ok ==>
            && Feed(v1) == Feed(v) && v1.initSent && v1.registered == v.registered && v1.closes == v.closes
            && |v1.sent| == |v.sent| + if v.initSent then 1 else 0)
      && (v1.left && !v.left ==> !v1.registered && v1.closes == v.closes + if v.registered then 1 else 0)
  {
  }

  /** A client that goes away is noticed while its handler waits on the channel, and then
      its channel is closed once. */
  lemma GoneWhileWaiting(v: Viewer)
    ensures var v1 := GoAway(v);
      && (v1.left <==> v.left || (v.initSent && v.gop == []))
      && (v1.left && !v.left ==> !v1.registered && v1.closes == v.closes + if v.registered then 1 else 0)
      && (!v1.left || v.left ==> v1 == v)
  {
  }

  /** Whoever comes while a stream runs is subscribed, with the GOP buffer to send
      first, and nobody else is. */
  lemma ComingSubscribes(l: Live)
    ensures var l1 := Join(l);
      if l.running && l.init != [] then
        && |l1.viewers| == |l.viewers| + 1 && l1.viewers[..|l.viewers|] == l.viewers
        && var v := Last(l1.viewers);
           v.registered && !v.left && !v.initSent && Feed(v) == l.gop && v.session == |l.past|
           && v.joined == |l.cur.parts| && v.closes == 0
      else l1 == l
  {
  }
}
