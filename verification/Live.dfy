/** The live broadcaster of live/live.go: fragmented-MP4 parts built in memory and
    fanned out to viewers. Marshalling a part is a parameter that may fail. */
module LiveSpec {
  import opened Wrappers
  import opened Clock

  const PART_DURATION: int := 300_000_000
  const SUB_CHAN_BUFFER: nat := 128
  const MAX_GOP_BYTES: nat := 0x200_0000
  const UINT32: int := 0x1_0000_0000
  const UINT64: int := 0x1_0000_0000_0000_0000

  type Bytes = seq<bv8>
  type Rate = n: int | 0 < n witness 1

  /** Only H265 tracks with a readable parameter set can be broadcast. */
  datatype Codec = H264 | H265(parsed: bool) | MPEG4Audio | Other

  datatype Source = Source(id: int, scale: Rate, codec: Codec)

  datatype Sample = Sample(payload: Bytes, offset: int, duration: nat, nonSync: bool)

  datatype PartTrack = PartTrack(id: int, base: nat, samples: seq<Sample>)

  datatype Part = Part(number: nat, tracks: seq<PartTrack>)

  type Encoder = Part -> Option<Bytes>

  /** A part that went out: which flush made it, its bytes, whether it starts a GOP. */
  datatype Sent = Sent(at: nat, data: Bytes, key: bool)

  /** A sample taken, with its own decode time and the one it was given. */
  datatype Given = Given(id: int, sample: Sample, dts: int, at: int)

  /** Everything since one SetTracks: the samples taken, the parts flushed, and
      those of them that could be marshalled. */
  datatype Session = Session(init: Bytes, video: int, given: seq<Given>, flushed: seq<Part>, parts: seq<Sent>)

  /** One HandleStream call and its subscription. from and joined are the history
      positions where it starts and where it was when the viewer came; gop is what
      it still has to write of the GOP it copied. */
  datatype Viewer = Viewer(
    session: nat, from: nat, joined: nat, initSent: bool, gop: seq<Bytes>, sent: seq<Bytes>,
    queue: seq<Bytes>, registered: bool, closes: nat, left: bool)

  /** The part being accumulated. */
  datatype Acc = Acc(samples: map<int, seq<Sample>>, base: map<int, int>, videoDur: nat, key: bool, hasVideo: bool)

  const EMPTY: Acc := Acc(map[], map[], 0, false, false)

  /** init is empty when there is none. past and cur are the finished and the latest session. */
  datatype Live = Live(
    running: bool, init: Bytes, tracks: seq<Source>, scale: map<int, Rate>, videoID: int,
    gop: seq<Bytes>, gopBytes: nat, gopDropped: bool, number: nat, acc: Acc,
    shift: int, shiftScale: int, haveShift: bool,
    viewers: seq<Viewer>, past: seq<Session>, cur: Session)

  const INITIAL: Live :=
    Live(false, [], [], map[], 0, [], 0, false, 0, EMPTY, 0, 0, false, [], [], Session([], 0, [], [], []))

  // ----- connecting -----

  predicate Included(t: Source) {
    t.codec.H264? || t.codec.MPEG4Audio? || (t.codec.H265? && t.codec.parsed)
  }

  function IncludedOf(all: seq<Source>): seq<Source> {
    if all == [] then []
    else IncludedOf(all[..|all| - 1]) + if Included(Last(all)) then [Last(all)] else []
  }

  function ScaleOf(all: seq<Source>): map<int, Rate> {
    if all == [] then map[]
    else
      var m := ScaleOf(all[..|all| - 1]);
      if Included(Last(all)) then m[Last(all).id := Last(all).scale] else m
  }

  /** The first video track's id, zero without one. */
  function VideoOf(all: seq<Source>): int {
    if all == [] then 0
    else
      var v := VideoOf(all[..|all| - 1]);
      if v == 0 && Included(Last(all)) && !Last(all).codec.MPEG4Audio? then Last(all).id else v
  }

  function Cut(v: Viewer): Viewer {
    if v.registered then v.(registered := false, closes := v.closes + 1) else v
  }

  function CutAll(viewers: seq<Viewer>): seq<Viewer> {
    seq(|viewers|, k requires 0 <= k < |viewers| => Cut(viewers[k]))
  }

  /** init is the marshalled init segment, None when that fails. */
  function SetTracks(l: Live, all: seq<Source>, init: Option<Bytes>): (Live, bool) {
    var l1 := l.(scale := ScaleOf(all), shift := 0, shiftScale := 0, haveShift := false, videoID := VideoOf(all));
    if VideoOf(all) == 0 || init.None? then (l1, false)
    else
      (l1.(tracks := IncludedOf(all), init := init.value, gop := [], gopBytes := 0, gopDropped := false,
           number := 0, running := true, acc := EMPTY, viewers := CutAll(l.viewers),
           past := l.past + [l.cur], cur := Session(init.value, VideoOf(all), [], [], [])), true)
  }

  function Stop(l: Live): Live {
    l.(running := false, init := [], gop := [], gopBytes := 0, gopDropped := false, viewers := CutAll(l.viewers))
  }

  // ----- samples -----

  function Get(samples: map<int, seq<Sample>>, id: int): seq<Sample> {
    if id in samples then samples[id] else []
  }

  function Base(base: map<int, int>, id: int): nat {
    (if id in base then base[id] else 0) % UINT64
  }

  function Collect(tracks: seq<Source>, acc: Acc): seq<PartTrack> {
    if tracks == [] then []
    else
      var t := Last(tracks);
      Collect(tracks[..|tracks| - 1], acc)
      + if Get(acc.samples, t.id) != [] then [PartTrack(t.id, Base(acc.base, t.id), Get(acc.samples, t.id))] else []
  }

  /** The GOP buffer once data went out. */
  function Keep(l: Live, data: Bytes, key: bool): Live {
    if key then l.(gop := [data], gopBytes := |data|, gopDropped := false)
    else if l.gopDropped then l
    else if l.gopBytes + |data| > MAX_GOP_BYTES then l.(gop := [], gopBytes := 0, gopDropped := true)
    else l.(gop := l.gop + [data], gopBytes := l.gopBytes + |data|)
  }

  /** A non-blocking send; a full channel is closed instead. */
  function Offer(v: Viewer, data: Bytes): Viewer {
    if !v.registered then v
    else if |v.queue| < SUB_CHAN_BUFFER then v.(queue := v.queue + [data])
    else Cut(v)
  }

  function OfferAll(viewers: seq<Viewer>, data: Bytes): seq<Viewer> {
    seq(|viewers|, k requires 0 <= k < |viewers| => Offer(viewers[k], data))
  }

  function Flush(enc: Encoder, l: Live): Live {
    var tracks := Collect(l.tracks, l.acc);
    if tracks == [] then l.(acc := EMPTY)
    else
      var part := Part(l.number, tracks);
      var l1 := l.(acc := EMPTY, number := (l.number + 1) % UINT32, cur := l.cur.(flushed := l.cur.flushed + [part]));
      match enc(part)
      case None => l1
      case Some(data) =>
        Keep(l1, data, l.acc.key).(
          viewers := OfferAll(l.viewers, data),
          cur := l1.cur.(parts := l.cur.parts + [Sent(|l.cur.flushed|, data, l.acc.key)]))
  }

  /** Video frames shorter than this are left out, about 3 ms. */
  function MinDuration(scale: Rate): int {
    Max(3 * scale / 1000, 1)
  }

  /** The decode time the stream is given once shifted by shift ticks of shiftScale. */
  function Shifted(shift: int, shiftScale: int, dts: int, scale: Rate): int
    requires shift > 0 ==> shiftScale > 0
  {
    if shift > 0 then Max(dts + (shift * scale + shiftScale - 1) / shiftScale, 0) else dts
  }

  function ChooseShift(l: Live, dts: int, scale: Rate): Live {
    if l.haveShift then l
    else if dts < 0 then l.(haveShift := true, shift := -dts, shiftScale := scale)
    else l.(haveShift := true)
  }

  function AddTo(acc: Acc, id: int, s: Sample, dts: int): Acc {
    acc.(base := if id in acc.base then acc.base else acc.base[id := dts],
         samples := acc.samples[id := Get(acc.samples, id) + [s]])
  }

  function AddVideo(acc: Acc, id: int, s: Sample, dts: int, scale: Rate): Acc {
    var a := AddTo(acc, id, s, dts);
    a.(key := acc.key || (!s.nonSync && |Get(a.samples, id)| == 1), hasVideo := true,
       videoDur := acc.videoDur + s.duration * SECOND / scale)
  }

  ghost predicate ShiftOk(l: Live) {
    l.shift > 0 ==> l.shiftScale > 0
  }

  /** The state once the sample is in the part, before any flush. */
  function Added(l: Live, id: int, s: Sample, dts: int): Live
    requires id in l.scale && ShiftOk(l)
  {
    var l1 := ChooseShift(l, dts, l.scale[id]);
    var at := Shifted(l1.shift, l1.shiftScale, dts, l.scale[id]);
    l1.(cur := l.cur.(given := l.cur.given + [Given(id, s, dts, at)]),
        acc := if id == l.videoID then AddVideo(l.acc, id, s, at, l.scale[id]) else AddTo(l.acc, id, s, at))
  }

  function Take(enc: Encoder, l: Live, id: int, s: Sample, dts: int): Live
    requires id in l.scale && ShiftOk(l)
  {
    var l1 := Added(l, id, s, dts);
    if id == l.videoID && l1.acc.videoDur >= PART_DURATION then Flush(enc, l1) else l1
  }

  function WriteSample(enc: Encoder, l: Live, id: int, s: Sample, dts: int): Live
    requires ShiftOk(l)
  {
    if !l.running || id !in l.scale then l
    else if id == l.videoID && s.nonSync && s.duration < MinDuration(l.scale[id]) then l
    else if id == l.videoID && !s.nonSync && l.acc.hasVideo then Take(enc, Flush(enc, l), id, s, dts)
    else Take(enc, l, id, s, dts)
  }

  // ----- viewers -----

  function Join(l: Live): Live {
    if !l.running || l.init == [] then l
    else
      var n := |l.cur.parts|;
      l.(viewers := l.viewers + [Viewer(|l.past|, n - Min(|l.gop|, n), n, false, l.gop, [], [], true, 0, false)])
  }

  function Leave(v: Viewer): Viewer {
    Cut(v).(left := true)
  }

  /** The handler's next write: the init, the copied GOP, then its channel until
      that is closed and empty. */
  function Send(v: Viewer, ok: bool): Viewer {
    if v.left then v
    else if !v.initSent then (if ok then v.(initSent := true) else Leave(v))
    else if v.gop != [] then (if ok then v.(sent := v.sent + [v.gop[0]], gop := v.gop[1..]) else Leave(v))
    else if v.queue != [] then (if ok then v.(sent := v.sent + [v.queue[0]], queue := v.queue[1..]) else Leave(v))
    else if v.closes > 0 then Leave(v)
    else v
  }

  /** The client goes away while the handler waits. */
  function GoAway(v: Viewer): Viewer {
    if v.left || !v.initSent || v.gop != [] then v else Leave(v)
  }

  datatype Event =
    | Connect(all: seq<Source>, init: Option<Bytes>)
    | Disconnect
    | Write(id: int, s: Sample, dts: int)
    | Come
    | Next(viewer: nat, ok: bool)
    | Gone(viewer: nat)

  function Step(enc: Encoder, l: Live, e: Event): Live
    requires ShiftOk(l)
  {
    match e
    case Connect(all, init) => SetTracks(l, all, init).0
    case Disconnect => Stop(l)
    case Write(id, s, dts) => WriteSample(enc, l, id, s, dts)
    case Come => Join(l)
    case Next(k, ok) =>
      if k < |l.viewers| then l.(viewers := l.viewers[k := Send(l.viewers[k], ok)]) else l
    case Gone(k) =>
      if k < |l.viewers| then l.(viewers := l.viewers[k := GoAway(l.viewers[k])]) else l
  }
}

/** What viewers and the GOP buffer see, over every run. */
module LiveProofs {
  import opened Wrappers
  import opened Clock
  import opened LiveSpec

  /** The samples a part holds of one track. */
  function In(tracks: seq<PartTrack>, id: int): seq<Sample> {
    if tracks == [] then []
    else if Last(tracks).id == id then Last(tracks).samples
    else In(tracks[..|tracks| - 1], id)
  }

  function Flat(parts: seq<Part>, id: int): seq<Sample> {
    if parts == [] then [] else Flat(parts[..|parts| - 1], id) + In(Last(parts).tracks, id)
  }

  function GivenTo(given: seq<Given>, id: int): seq<Sample> {
    if given == [] then []
    else GivenTo(given[..|given| - 1], id) + if Last(given).id == id then [Last(given).sample] else []
  }

  function TimesOf(given: seq<Given>, id: int): seq<int> {
    if given == [] then []
    else TimesOf(given[..|given| - 1], id) + if Last(given).id == id then [Last(given).at] else []
  }

  function BaseIn(tracks: seq<PartTrack>, id: int): nat {
    if tracks == [] then 0
    else if Last(tracks).id == id then Last(tracks).base
    else BaseIn(tracks[..|tracks| - 1], id)
  }

  /** Every part's base times are the decode times of its tracks' first samples,
      as 64-bit unsigned numbers. */
  ghost predicate Based(flushed: seq<Part>, given: seq<Given>) {
    flushed == [] ||
      (var init, p := flushed[..|flushed| - 1], Last(flushed);
       && Based(init, given)
       && forall id | In(p.tracks, id) != [] ::
            && |Flat(init, id)| < |TimesOf(given, id)|
            && BaseIn(p.tracks, id) == TimesOf(given, id)[|Flat(init, id)|] % UINT64)
  }

  /** Only the first video sample can be a keyframe, and key says whether it is. */
  predicate KeyFirst(video: seq<Sample>, key: bool) {
    && video != [] && (key <==> !video[0].nonSync)
    && forall k | 0 < k < |video| :: video[k].nonSync
  }

  ghost predicate SentOk(enc: Encoder, s: Session, p: Sent) {
    && p.at < |s.flushed| && enc(s.flushed[p.at]) == Some(p.data)
    && KeyFirst(In(s.flushed[p.at].tracks, s.video), p.key)
  }

  ghost predicate SessionOk(enc: Encoder, s: Session) {
    && (forall k | 0 <= k < |s.flushed| :: s.flushed[k].number == k % UINT32)
    && (forall p | p in s.parts :: SentOk(enc, s, p))
    && (forall j, k | 0 <= j < k < |s.parts| :: s.parts[j].at < s.parts[k].at)
    && (forall k | 0 <= k < |s.flushed| :: (exists p | p in s.parts :: p.at == k) || enc(s.flushed[k]).None?)
  }

  // ----- the GOP buffer -----

  /** Where the latest GOP starts: its keyframe part, or the session's first. */
  function GopStart(parts: seq<Sent>): (n: nat)
    ensures n <= |parts|
    ensures parts != [] ==> n < |parts|
    ensures forall k | n < k < |parts| :: !parts[k].key
  {
    if parts == [] then 0 else if Last(parts).key then |parts| - 1 else GopStart(parts[..|parts| - 1])
  }

  function Datas(parts: seq<Sent>): (d: seq<Bytes>) {
    seq(|parts|, k requires 0 <= k < |parts| => parts[k].data)
  }

  function Total(parts: seq<Sent>): nat {
    if parts == [] then 0 else Total(parts[..|parts| - 1]) + |Last(parts).data|
  }

  /** The latest GOP outgrew the limit after its keyframe part. */
  predicate Overgrown(parts: seq<Sent>) {
    var g := parts[GopStart(parts)..];
    Total(g) > MAX_GOP_BYTES && !(|g| == 1 && g[0].key)
  }

  ghost predicate GopOk(l: Live) {
    if !l.running then l.gop == [] && l.gopBytes == 0 && !l.gopDropped
    else if Overgrown(l.cur.parts) then l.gop == [] && l.gopBytes == 0 && l.gopDropped
    else
      var g := l.cur.parts[GopStart(l.cur.parts)..];
      l.gop == Datas(g) && l.gopBytes == Total(g) && !l.gopDropped
  }

  lemma GopGrows(parts: seq<Sent>, p: Sent)
    ensures var g1 := (parts + [p])[GopStart(parts + [p])..];
      if p.key then g1 == [p] && Total(g1) == |p.data|
      else
        var g := parts[GopStart(parts)..];
        g1 == g + [p] && Total(g1) == Total(g) + |p.data|
  {
    assert (parts + [p])[..|parts|] == parts;
    if p.key {
      assert [p][..0] == [];
      assert Total([p]) == |p.data|;
      assert (parts + [p])[|parts|..] == [p];
    } else {
      var g := parts[GopStart(parts)..];
      assert (parts + [p])[GopStart(parts)..] == g + [p];
      assert (g + [p])[..|g|] == g;
    }
  }

  lemma OvergrownGrows(parts: seq<Sent>, p: Sent)
    ensures p.key ==> !Overgrown(parts + [p])
    ensures !p.key && Overgrown(parts) ==> Overgrown(parts + [p])
    ensures !p.key && !Overgrown(parts) ==>
      (Overgrown(parts + [p]) <==> Total(parts[GopStart(parts)..]) + |p.data| > MAX_GOP_BYTES)
  {
    GopGrows(parts, p);
    var g := parts[GopStart(parts)..];
    if parts == [] { assert g == []; }
    if |g| == 1 && g[0].key { assert g[..0] == []; }
  }

  lemma KeepOk(l: Live, p: Sent)
    requires GopOk(l) && l.running
    ensures var l1 := Keep(l, p.data, p.key);
      GopOk(l1.(cur := l.cur.(parts := l.cur.parts + [p])))
      && l1 == l.(gop := l1.gop, gopBytes := l1.gopBytes, gopDropped := l1.gopDropped)
  {
    var parts := l.cur.parts;
    OvergrownGrows(parts, p);
    GopGrows(parts, p);
    var g := parts[GopStart(parts)..];
    assert Datas(g + [p]) == Datas(g) + [p.data];
    assert Datas([p]) == [p.data];
    hide Overgrown;
    hide Total;
    hide GopStart;
  }

  // ----- viewers -----

  function SessionAt(l: Live, n: nat): Session
    requires n <= |l.past|
  {
    if n < |l.past| then l.past[n] else l.cur
  }

  /** feed is what was sent from the history position from on. */
  ghost predicate SliceFrom(parts: seq<Sent>, from: nat, feed: seq<Bytes>) {
    from + |feed| <= |parts| && forall k | 0 <= k < |feed| :: feed[k] == parts[from + k].data
  }

  function Feed(v: Viewer): seq<Bytes> {
    v.sent + v.gop + v.queue
  }

  ghost predicate Follows(v: Viewer, s: Session) {
    && SliceFrom(s.parts, v.from, Feed(v))
    && v.from <= v.joined <= |s.parts|
    && v.from == (if Overgrown(s.parts[..v.joined]) then v.joined else GopStart(s.parts[..v.joined]))
    && (v.sent != [] ==> v.initSent)
    && |v.queue| <= SUB_CHAN_BUFFER
  }

  /** A subscribed viewer misses nothing; one cut off was closed once. */
  ghost predicate ViewerOk(l: Live, v: Viewer) {
    && v.session <= |l.past| && Follows(v, SessionAt(l, v.session))
    && (if v.registered
        then l.running && v.session == |l.past| && v.closes == 0 && !v.left && v.from + |Feed(v)| == |l.cur.parts|
        else v.closes == 1)
  }

  lemma OfferOk(v: Viewer, s: Session, p: Sent)
    requires Follows(v, s) && (v.registered ==> v.from + |Feed(v)| == |s.parts|)
    ensures var v1 := Offer(v, p.data);
      var s1 := s.(parts := s.parts + [p]);
      Follows(v1, s1) && (v1.registered ==> v1.from + |Feed(v1)| == |s1.parts|)
  {
    var s1 := s.(parts := s.parts + [p]);
    var v1 := Offer(v, p.data);
    assert s1.parts[..v.joined] == s.parts[..v.joined];
    if v.registered && |v.queue| < SUB_CHAN_BUFFER {
      assert Feed(v1) == Feed(v) + [p.data];
    } else {
      assert Feed(v1) == Feed(v);
    }
    hide GopStart;
    hide Feed;
  }

  // ----- the part being built -----

  function Durations(samples: seq<Sample>, scale: Rate): nat {
    if samples == [] then 0
    else Durations(samples[..|samples| - 1], scale) + Last(samples).duration * SECOND / scale
  }

  ghost predicate AccOk(l: Live) {
    var video := Get(l.acc.samples, l.videoID);
    && (forall id | id in l.acc.samples :: id in l.scale && l.acc.samples[id] != [])
    && l.acc.samples.Keys == l.acc.base.Keys
    && (l.acc.hasVideo <==> video != [])
    && (if video != [] then KeyFirst(video, l.acc.key) else !l.acc.key)
    && (l.videoID in l.scale ==> l.acc.videoDur == Durations(video, l.scale[l.videoID]))
  }

  /** Every sample taken is in a part or waits in the current one. */
  ghost predicate Kept(l: Live) {
    && Based(l.cur.flushed, l.cur.given)
    && forall id ::
        && GivenTo(l.cur.given, id) == Flat(l.cur.flushed, id) + Get(l.acc.samples, id)
        && |TimesOf(l.cur.given, id)| == |GivenTo(l.cur.given, id)|
        && (id in l.acc.base ==>
              (id in l.acc.samples && l.acc.samples[id] != []
               && l.acc.base[id] == TimesOf(l.cur.given, id)[|Flat(l.cur.flushed, id)|]))
  }

  ghost predicate Carries(tracks: seq<Source>, scale: map<int, Rate>) {
    forall id | id in scale :: exists t | t in tracks :: t.id == id
  }

  /** The session's first sample decides the shift, and every sample is placed by it. */
  ghost predicate Shifts(l: Live) {
    && ShiftOk(l)
    && (l.haveShift <==> l.cur.given != [])
    && (if l.cur.given == [] then l.shift == 0
        else
          var f := l.cur.given[0];
          f.id in l.scale
          && if f.dts < 0 then l.shift == -f.dts && l.shiftScale == l.scale[f.id] else l.shift == 0)
    && (forall g | g in l.cur.given ::
          g.id in l.scale && g.at == Shifted(l.shift, l.shiftScale, g.dts, l.scale[g.id]))
  }

  ghost predicate Building(l: Live) {
    && l.init == l.cur.init && l.videoID == l.cur.video && l.videoID in l.scale
    && Carries(l.tracks, l.scale)
    && AccOk(l) && Kept(l) && Shifts(l)
    && l.number == |l.cur.flushed| % UINT32
  }

  ghost predicate Base(enc: Encoder, l: Live) {
    && ShiftOk(l) && GopOk(l)
    && SessionOk(enc, l.cur) && (forall s | s in l.past :: SessionOk(enc, s))
    && (forall v | v in l.viewers :: ViewerOk(l, v))
    && (l.running ==> Building(l))
  }

  ghost predicate Inv(enc: Encoder, l: Live) {
    Base(enc, l) && (l.running ==> l.acc.videoDur < PART_DURATION)
  }

  // ----- a flush -----

  lemma {:induction false} CollectIn(tracks: seq<Source>, acc: Acc, id: int)
    ensures In(Collect(tracks, acc), id)
            == if exists t | t in tracks :: t.id == id then Get(acc.samples, id) else []
    ensures In(Collect(tracks, acc), id) != [] ==> BaseIn(Collect(tracks, acc), id) == LiveSpec.Base(acc.base, id)
  {
    if tracks != [] {
      var rest := tracks[..|tracks| - 1];
      CollectIn(rest, acc, id);
      var t := Last(tracks);
      var c := Collect(rest, acc);
      if Get(acc.samples, t.id) != [] {
        assert (c + [PartTrack(t.id, LiveSpec.Base(acc.base, t.id), Get(acc.samples, t.id))])[..|c|] == c;
      }
      assert t in tracks && c + [] == c;
      if t.id != id {
        assert (exists u | u in tracks :: u.id == id) <==> exists u | u in rest :: u.id == id by {
          assert forall u :: u in tracks <==> u == t || u in rest;
        }
      }
    }
  }

  lemma CollectAll(l: Live, id: int)
    requires Carries(l.tracks, l.scale) && AccOk(l)
    ensures In(Collect(l.tracks, l.acc), id) == Get(l.acc.samples, id)
    ensures Get(l.acc.samples, id) != [] ==> BaseIn(Collect(l.tracks, l.acc), id) == LiveSpec.Base(l.acc.base, id)
  {
    CollectIn(l.tracks, l.acc, id);
  }

  /** The flushed part's effect on the samples kept. */
  lemma FlushKeeps(l: Live, part: Part, l1: Live)
    requires Building(l) && part.tracks == Collect(l.tracks, l.acc)
    requires l1.acc == EMPTY && l1.cur.given == l.cur.given && l1.cur.flushed == l.cur.flushed + [part]
    ensures Kept(l1)
  {
    assert l1.cur.flushed[..|l.cur.flushed|] == l.cur.flushed;
    forall id
      ensures GivenTo(l1.cur.given, id) == Flat(l1.cur.flushed, id) + Get(l1.acc.samples, id)
      ensures In(part.tracks, id) != [] ==>
        && |Flat(l.cur.flushed, id)| < |TimesOf(l.cur.given, id)|
        && BaseIn(part.tracks, id) == TimesOf(l.cur.given, id)[|Flat(l.cur.flushed, id)|] % UINT64
    {
      CollectAll(l, id);
      assert Get(l.acc.samples, id) != [] ==> id in l.acc.base;
    }
    hide AccOk;
  }

  lemma FlushedOk(enc: Encoder, s: Session, part: Part)
    requires SessionOk(enc, s) && part.number == |s.flushed| % UINT32 && enc(part).None?
    ensures SessionOk(enc, s.(flushed := s.flushed + [part]))
  {
    var s1 := s.(flushed := s.flushed + [part]);
    forall p | p in s1.parts ensures SentOk(enc, s1, p) { assert SentOk(enc, s, p); }
    hide SentOk;
  }

  lemma SentAdded(enc: Encoder, s: Session, part: Part, p: Sent)
    requires SessionOk(enc, s) && part.number == |s.flushed| % UINT32 && enc(part) == Some(p.data)
        && p.at == |s.flushed|
    requires KeyFirst(In(part.tracks, s.video), p.key)
    ensures SessionOk(enc, s.(flushed := s.flushed + [part], parts := s.parts + [p]))
  {
    var s1 := s.(flushed := s.flushed + [part], parts := s.parts + [p]);
    forall q | q in s1.parts ensures SentOk(enc, s1, q) {
      if q in s.parts { assert SentOk(enc, s, q); }
    }
    forall j | 0 <= j < |s.parts| ensures s.parts[j].at < p.at {
      assert SentOk(enc, s, s.parts[j]);
    }
    assert p in s1.parts;
    forall k | 0 <= k < |s1.flushed| ensures (exists q | q in s1.parts :: q.at == k) || enc(s1.flushed[k]).None? {
      if k < |s.flushed| && !enc(s1.flushed[k]).None? {
        var q :| q in s.parts && q.at == k;
        assert q in s1.parts;
      }
    }
    hide SentOk;
    hide KeyFirst;
  }

  /** The part a flush makes, as it goes out. */
  function Out(l: Live, data: Bytes): Sent {
    Sent(|l.cur.flushed|, data, l.acc.key)
  }

  lemma FlushSession(enc: Encoder, l: Live)
    requires SessionOk(enc, l.cur) && Building(l) && l.acc.hasVideo
    ensures SessionOk(enc, Flush(enc, l).cur) && Collect(l.tracks, l.acc) != []
  {
    var tracks := Collect(l.tracks, l.acc);
    CollectAll(l, l.videoID);
    var part := Part(l.number, tracks);
    if enc(part).None? {
      FlushedOk(enc, l.cur, part);
    } else {
      SentAdded(enc, l.cur, part, Out(l, enc(part).value));
    }
    hide SessionOk;
    hide Collect;
    hide AccOk;
    hide Kept;
  }

  lemma FlushFrame(enc: Encoder, l: Live)
    requires Collect(l.tracks, l.acc) != []
    ensures var l1 := Flush(enc, l);
      l1 == l.(acc := EMPTY, number := (l.number + 1) % UINT32, gop := l1.gop, gopBytes := l1.gopBytes,
               gopDropped := l1.gopDropped, viewers := l1.viewers,
               cur := l.cur.(parts := l1.cur.parts,
                             flushed := l.cur.flushed + [Part(l.number, Collect(l.tracks, l.acc))]))
  {
    hide Collect;
    hide OfferAll;
  }

  lemma EmptyAcc(l: Live)
    requires l.acc == EMPTY
    ensures AccOk(l)
  {
  }

  lemma FlushBuilding(enc: Encoder, l: Live)
    requires Building(l) && Collect(l.tracks, l.acc) != []
    ensures var l1 := Flush(enc, l); Building(l1) && l1.acc == EMPTY
  {
    hide Kept;
    hide Collect;
    hide Carries;
    hide AccOk;
    hide Flush;
    var l1 := Flush(enc, l);
    FlushFrame(enc, l);
    FlushKeeps(l, Part(l.number, Collect(l.tracks, l.acc)), l1);
    EmptyAcc(l1);
  }

  lemma FlushOk(enc: Encoder, l: Live)
    requires Base(enc, l) && l.running && l.acc.hasVideo
    ensures var l1 := Flush(enc, l);
      && Inv(enc, l1) && l1.acc == EMPTY && l1.running && l1.scale == l.scale && l1.videoID == l.videoID
  {
    FlushSession(enc, l);
    FlushBuilding(enc, l);
    FlushViewers(enc, l);
    FlushGop(enc, l);
    FlushFrame(enc, l);
    hide Flush;
    hide Collect;
    hide SessionOk;
    hide GopOk;
    hide Building;
    hide ViewerOk;
  }

  lemma FlushGop(enc: Encoder, l: Live)
    requires GopOk(l) && l.running
    ensures GopOk(Flush(enc, l))
  {
    hide Collect;
    hide OfferAll;
    var part := Part(l.number, Collect(l.tracks, l.acc));
    if enc(part).Some? {
      var p := Out(l, enc(part).value);
      KeepOk(l, p);
      var l1 := Keep(l, p.data, p.key);
      hide Keep;
      hide Overgrown;
      hide GopStart;
      hide Total;
      hide Datas;
    }
  }

  /** Who gets a part. */
  lemma FlushSends(enc: Encoder, l: Live)
    ensures var l1, part := Flush(enc, l), Part(l.number, Collect(l.tracks, l.acc));
      && l1.past == l.past && l1.running == l.running
      && (if part.tracks == [] || enc(part).None?
          then l1.viewers == l.viewers && l1.cur.parts == l.cur.parts
          else
            && l1.viewers == OfferAll(l.viewers, enc(part).value)
            && l1.cur.parts == l.cur.parts + [Out(l, enc(part).value)])
  {
    hide Collect;
    hide OfferAll;
  }

  lemma OfferedOk(l1: Live, l: Live, v: Viewer, p: Sent)
    requires ViewerOk(l, v) && l.running && l1.running && l1.past == l.past && l1.cur.parts == l.cur.parts + [p]
    ensures ViewerOk(l1, Offer(v, p.data))
  {
    hide Follows;
    hide Feed;
    if v.session == |l.past| {
      OfferOk(v, l.cur, p);
      SameParts(Offer(v, p.data), l.cur.(parts := l.cur.parts + [p]), l1.cur);
    }
  }

  lemma SameParts(v: Viewer, s: Session, s1: Session)
    requires Follows(v, s) && s1.parts == s.parts
    ensures Follows(v, s1)
  {
  }

  lemma FlushViewers(enc: Encoder, l: Live)
    requires (forall v | v in l.viewers :: ViewerOk(l, v)) && l.running
    ensures var l1 := Flush(enc, l); forall v | v in l1.viewers :: ViewerOk(l1, v)
  {
    FlushSends(enc, l);
    var l1, part := Flush(enc, l), Part(l.number, Collect(l.tracks, l.acc));
    hide Flush;
    hide Collect;
    hide ViewerOk;
    hide Offer;
    if part.tracks == [] || enc(part).None? {
      SameViewers(l1, l);
    } else {
      forall k | 0 <= k < |l.viewers| ensures ViewerOk(l1, l1.viewers[k]) {
        assert l.viewers[k] in l.viewers;
        OfferedOk(l1, l, l.viewers[k], Out(l, enc(part).value));
      }
    }
  }

  // ----- a sample -----

  lemma SessionGiven(enc: Encoder, s: Session, given: seq<Given>)
    requires SessionOk(enc, s)
    ensures SessionOk(enc, s.(given := given))
  {
    forall p | p in s.parts ensures SentOk(enc, s.(given := given), p) { assert SentOk(enc, s, p); }
    hide SentOk;
  }

  lemma SameViewers(l1: Live, l: Live)
    requires forall v | v in l.viewers :: ViewerOk(l, v)
    requires l1.past == l.past && l1.running == l.running && l1.viewers == l.viewers && l1.cur.parts == l.cur.parts
    ensures forall v | v in l1.viewers :: ViewerOk(l1, v)
  {
    hide GopStart;
    hide Feed;
    forall v | v in l1.viewers ensures ViewerOk(l1, v) { assert ViewerOk(l, v); }
  }

  lemma DurationsAdd(samples: seq<Sample>, s: Sample, scale: Rate)
    ensures Durations(samples + [s], scale) == Durations(samples, scale) + s.duration * SECOND / scale
  {
    assert (samples + [s])[..|samples|] == samples;
  }

  lemma KeyFirstAdd(video: seq<Sample>, key: bool, s: Sample)
    requires if video == [] then !key else KeyFirst(video, key) && s.nonSync
    ensures KeyFirst(video + [s], key || (!s.nonSync && |video + [s]| == 1))
  {
  }

  lemma AddedVideo(l: Live, s: Sample, dts: int)
    requires ShiftOk(l) && AccOk(l) && l.videoID in l.scale && (!s.nonSync ==> !l.acc.hasVideo)
    ensures AccOk(Added(l, l.videoID, s, dts)) && Added(l, l.videoID, s, dts).acc.hasVideo
    ensures ShiftOk(Added(l, l.videoID, s, dts))
  {
    hide Shifted;
    hide Durations;
    hide KeyFirst;
    var video := Get(l.acc.samples, l.videoID);
    DurationsAdd(video, s, l.scale[l.videoID]);
    KeyFirstAdd(video, l.acc.key, s);
    var l1 := Added(l, l.videoID, s, dts);
    assert Get(l1.acc.samples, l.videoID) == video + [s];
  }

  lemma AddedOther(l: Live, id: int, s: Sample, dts: int)
    requires ShiftOk(l) && AccOk(l) && l.videoID in l.scale && id in l.scale && id != l.videoID
    ensures AccOk(Added(l, id, s, dts)) && ShiftOk(Added(l, id, s, dts))
  {
    hide Shifted;
    hide Durations;
    hide KeyFirst;
    hide AddVideo;
    var l1 := Added(l, id, s, dts);
    assert Get(l1.acc.samples, l.videoID) == Get(l.acc.samples, l.videoID);
  }

  lemma AddedAcc(l: Live, id: int, s: Sample, dts: int)
    requires ShiftOk(l) && AccOk(l) && l.videoID in l.scale && id in l.scale
    requires id == l.videoID && !s.nonSync ==> !l.acc.hasVideo
    ensures AccOk(Added(l, id, s, dts)) && (id == l.videoID ==> Added(l, id, s, dts).acc.hasVideo)
    ensures ShiftOk(Added(l, id, s, dts))
  {
    hide Added;
    if id == l.videoID { AddedVideo(l, s, dts); } else { AddedOther(l, id, s, dts); }
    hide AccOk;
  }

  lemma {:induction false} BasedGrows(flushed: seq<Part>, given: seq<Given>, g: Given)
    requires Based(flushed, given)
    ensures Based(flushed, given + [g])
  {
    if flushed != [] {
      BasedGrows(flushed[..|flushed| - 1], given, g);
      assert (given + [g])[..|given|] == given;
    }
  }

  lemma AddedMaps(l: Live, id: int, s: Sample, dts: int)
    requires ShiftOk(l) && id in l.scale
    ensures var l1 := Added(l, id, s, dts);
      && l1.cur.given != [] && Last(l1.cur.given).id == id && Last(l1.cur.given).sample == s
      && l1.cur == l.cur.(given := l.cur.given + [Last(l1.cur.given)])
      && l1.acc.samples == l.acc.samples[id := Get(l.acc.samples, id) + [s]]
      && l1.acc.base == if id in l.acc.base then l.acc.base else l.acc.base[id := Last(l1.cur.given).at]
  {
    hide Shifted;
  }

  lemma AddedKept(l: Live, id: int, s: Sample, dts: int)
    requires ShiftOk(l) && id in l.scale && Kept(l) && AccOk(l)
    ensures Kept(Added(l, id, s, dts))
  {
    hide KeyFirst;
    hide Durations;
    AddedMaps(l, id, s, dts);
    hide Added;
    var l1 := Added(l, id, s, dts);
    var given := l.cur.given;
    var g := Last(l1.cur.given);
    assert l1.cur.given[..|given|] == given;
    BasedGrows(l.cur.flushed, given, g);
    hide Based;
    forall k
      ensures && GivenTo(l1.cur.given, k) == Flat(l1.cur.flushed, k) + Get(l1.acc.samples, k)
              && |TimesOf(l1.cur.given, k)| == |GivenTo(l1.cur.given, k)|
              && (k in l1.acc.base ==>
                    (k in l1.acc.samples && l1.acc.samples[k] != []
                     && l1.acc.base[k] == TimesOf(l1.cur.given, k)[|Flat(l1.cur.flushed, k)|]))
    {
      KeptMore(l.acc, l1.acc, given, l.cur.flushed, g, k);
    }
  }

  lemma GivenMore(given: seq<Given>, g: Given, id: int)
    ensures GivenTo(given + [g], id) == GivenTo(given, id) + if g.id == id then [g.sample] else []
    ensures TimesOf(given + [g], id) == TimesOf(given, id) + if g.id == id then [g.at] else []
  {
    assert (given + [g])[..|given|] == given;
  }

  /** One more sample keeps a track's part of the invariant. */
  lemma KeptMore(acc: Acc, acc1: Acc, given: seq<Given>, flushed: seq<Part>, g: Given, k: int)
    requires GivenTo(given, k) == Flat(flushed, k) + Get(acc.samples, k)
    requires |TimesOf(given, k)| == |GivenTo(given, k)| && acc.samples.Keys == acc.base.Keys
    requires k in acc.base ==>
      (k in acc.samples && acc.samples[k] != [] && acc.base[k] == TimesOf(given, k)[|Flat(flushed, k)|])
    requires acc1.samples == acc.samples[g.id := Get(acc.samples, g.id) + [g.sample]]
    requires acc1.base == if g.id in acc.base then acc.base else acc.base[g.id := g.at]
    ensures GivenTo(given + [g], k) == Flat(flushed, k) + Get(acc1.samples, k)
    ensures |TimesOf(given + [g], k)| == |GivenTo(given + [g], k)|
    ensures k in acc1.base ==>
      (k in acc1.samples && acc1.samples[k] != [] && acc1.base[k] == TimesOf(given + [g], k)[|Flat(flushed, k)|])
  {
    GivenMore(given, g, k);
    hide GivenTo;
    hide TimesOf;
    hide Flat;
    assert Get(acc1.samples, k) == Get(acc.samples, k) + if g.id == k then [g.sample] else [];
    if g.id == k { assert GivenTo(given + [g], k) == Flat(flushed, k) + (Get(acc.samples, k) + [g.sample]); }
  }

  lemma AddedShifts(l: Live, id: int, s: Sample, dts: int)
    requires ShiftOk(l) && Shifts(l) && id in l.scale
    ensures Shifts(Added(l, id, s, dts))
  {
    hide Shifted;
    hide AddVideo;
    hide AddTo;
    var given, given1 := l.cur.given, Added(l, id, s, dts).cur.given;
    assert given1[..|given|] == given && given1[|given|].dts == dts;
    if given != [] { assert given1[0] == given[0]; }
  }

  lemma AddedFrame(l: Live, id: int, s: Sample, dts: int)
    requires ShiftOk(l) && id in l.scale
    ensures var l1 := Added(l, id, s, dts);
      l1 == l.(acc := l1.acc, cur := l.cur.(given := l1.cur.given),
               shift := l1.shift, shiftScale := l1.shiftScale, haveShift := l1.haveShift)
    ensures id != l.videoID ==> Added(l, id, s, dts).acc.videoDur == l.acc.videoDur
    ensures exists at :: Added(l, id, s, dts).cur.given == l.cur.given + [Given(id, s, dts, at)]
  {
    hide Shifted;
  }

  lemma AddedBuilding(l: Live, id: int, s: Sample, dts: int)
    requires ShiftOk(l) && Building(l) && id in l.scale
    requires id == l.videoID && !s.nonSync ==> !l.acc.hasVideo
    ensures Building(Added(l, id, s, dts)) && ShiftOk(Added(l, id, s, dts))
  {
    hide Added;
    hide Shifts;
    hide Kept;
    hide AccOk;
    hide Carries;
    AddedAcc(l, id, s, dts);
    AddedKept(l, id, s, dts);
    AddedShifts(l, id, s, dts);
    AddedFrame(l, id, s, dts);
  }

  lemma AddedOk(enc: Encoder, l: Live, id: int, s: Sample, dts: int)
    requires Base(enc, l) && l.running && id in l.scale
    requires id == l.videoID && !s.nonSync ==> !l.acc.hasVideo
    ensures Base(enc, Added(l, id, s, dts))
  {
    hide Added;
    hide Building;
    hide SessionOk;
    hide ViewerOk;
    hide Overgrown;
    hide GopStart;
    hide Total;
    hide Datas;
    var l1 := Added(l, id, s, dts);
    AddedBuilding(l, id, s, dts);
    AddedFrame(l, id, s, dts);
    SessionGiven(enc, l.cur, l1.cur.given);
    SameViewers(l1, l);
  }

  lemma TakeOk(enc: Encoder, l: Live, id: int, s: Sample, dts: int)
    requires Inv(enc, l) && l.running && id in l.scale
    requires id == l.videoID && !s.nonSync ==> !l.acc.hasVideo
    ensures Inv(enc, Take(enc, l, id, s, dts))
  {
    hide Added;
    hide Flush;
    hide AccOk;
    hide GopOk;
    hide SessionOk;
    hide ViewerOk;
    hide Kept;
    hide Shifts;
    hide Carries;
    var l1 := Added(l, id, s, dts);
    AddedOk(enc, l, id, s, dts);
    AddedFrame(l, id, s, dts);
    AddedAcc(l, id, s, dts);
    hide Base;
    hide Building;
    if id == l.videoID && l1.acc.videoDur >= PART_DURATION { FlushOk(enc, l1); }
  }

  lemma WriteOk(enc: Encoder, l: Live, id: int, s: Sample, dts: int)
    requires Inv(enc, l)
    ensures Inv(enc, WriteSample(enc, l, id, s, dts))
  {
    hide Take;
    if l.running && id in l.scale {
      if id == l.videoID && !s.nonSync && l.acc.hasVideo {
        FlushOk(enc, l);
        var l1 := Flush(enc, l);
        hide Flush;
        TakeOk(enc, l1, id, s, dts);
      } else {
        hide Flush;
        TakeOk(enc, l, id, s, dts);
      }
    }
    hide Base;
  }

  // ----- connecting and viewers -----

  lemma {:induction false} ScaleCarried(all: seq<Source>)
    ensures Carries(IncludedOf(all), ScaleOf(all))
    ensures VideoOf(all) != 0 ==> VideoOf(all) in ScaleOf(all)
  {
    if all != [] {
      var rest, t := all[..|all| - 1], Last(all);
      ScaleCarried(rest);
      forall id | id in ScaleOf(all) ensures exists u | u in IncludedOf(all) :: u.id == id {
        if Included(t) && id == t.id {
          assert t in IncludedOf(all);
        } else {
          var u :| u in IncludedOf(rest) && u.id == id;
          assert u in IncludedOf(all);
        }
      }
    }
  }

  lemma CutOk(l1: Live, l: Live)
    requires forall v | v in l.viewers :: ViewerOk(l, v)
    requires l1.viewers == CutAll(l.viewers)
    requires (l1.past == l.past && l1.cur == l.cur) || l1.past == l.past + [l.cur]
    ensures forall v | v in l1.viewers :: ViewerOk(l1, v)
  {
    hide GopStart;
    forall k | 0 <= k < |l1.viewers| ensures ViewerOk(l1, l1.viewers[k]) {
      assert l.viewers[k] in l.viewers;
      assert Feed(l1.viewers[k]) == Feed(l.viewers[k]);
      assert SessionAt(l1, l.viewers[k].session) == SessionAt(l, l.viewers[k].session);
    }
  }

  /** A failed SetTracks must not meet a running stream: the engine stops the
      broadcaster at the end of every session. */
  predicate Allowed(l: Live, e: Event) {
    e.Connect? && !SetTracks(l, e.all, e.init).1 ==> !l.running
  }

  lemma ConnectOk(enc: Encoder, l: Live, all: seq<Source>, init: Option<Bytes>)
    requires Inv(enc, l) && Allowed(l, Connect(all, init))
    ensures Inv(enc, SetTracks(l, all, init).0)
  {
    hide ScaleOf;
    hide IncludedOf;
    hide VideoOf;
    hide SessionOk;
    hide ViewerOk;
    hide GopOk;
    hide Building;
    var (l1, ok) := SetTracks(l, all, init);
    if ok {
      CutOk(l1, l);
      FreshGop(l1);
      ScaleCarried(all);
      FreshSession(enc, l1);
      assert forall s | s in l1.past :: s in l.past || s == l.cur;
    } else {
      SameViewers(l1, l);
      StoppedGop(l1, l);
    }
    hide SetTracks;
  }

  lemma StoppedGop(l1: Live, l: Live)
    requires GopOk(l) && !l.running && !l1.running
    requires l1.gop == l.gop && l1.gopBytes == l.gopBytes && l1.gopDropped == l.gopDropped
    ensures GopOk(l1)
  {
  }

  lemma FreshSession(enc: Encoder, l: Live)
    requires l.cur == Session(l.init, l.videoID, [], [], []) && l.videoID in l.scale && Carries(l.tracks, l.scale)
    requires l.acc == EMPTY && l.shift == 0 && !l.haveShift && l.number == 0
    ensures SessionOk(enc, l.cur) && Building(l) && ShiftOk(l)
  {
    EmptyAcc(l);
    hide AccOk;
    hide Carries;
  }

  lemma FreshGop(l: Live)
    requires l.running && l.gop == [] && l.gopBytes == 0 && !l.gopDropped && l.cur.parts == []
    ensures GopOk(l)
  {
    assert Datas([]) == [];
  }

  lemma StopOk(enc: Encoder, l: Live)
    requires Inv(enc, l)
    ensures Inv(enc, Stop(l))
  {
    CutOk(Stop(l), l);
    hide SessionOk;
    hide ViewerOk;
  }

  lemma JoinerOk(l: Live)
    requires GopOk(l) && l.running && l.init != []
    ensures ViewerOk(Join(l), Last(Join(l).viewers))
  {
    var n := |l.cur.parts|;
    var v := Viewer(|l.past|, n - Min(|l.gop|, n), n, false, l.gop, [], [], true, 0, false);
    assert Last(Join(l).viewers) == v;
    NewViewerOk(l, v);
    hide GopOk;
    hide Follows;
    hide Feed;
  }

  lemma NewViewerOk(l: Live, v: Viewer)
    requires GopOk(l) && l.running
    requires var n := |l.cur.parts|;
      v == Viewer(|l.past|, n - Min(|l.gop|, n), n, false, l.gop, [], [], true, 0, false)
    ensures ViewerOk(l, v)
  {
    hide Total;
    var parts := l.cur.parts;
    assert parts[..|parts|] == parts;
    assert Feed(v) == l.gop;
    if l.gop != [] { assert |l.gop| == |parts| - GopStart(parts); }
    hide Overgrown;
    hide Feed;
  }

  /** Only the viewers changed. */
  lemma OtherViewers(enc: Encoder, l: Live, viewers: seq<Viewer>)
    requires Inv(enc, l)
    requires var l1 := l.(viewers := viewers); forall v | v in viewers :: ViewerOk(l1, v)
    ensures Inv(enc, l.(viewers := viewers))
  {
    hide SessionOk;
    hide ViewerOk;
    hide Carries;
    hide Overgrown;
    hide GopStart;
    hide Total;
    hide Datas;
    var l1 := l.(viewers := viewers);
    hide Building;
    if l.running { StillBuilding(l, viewers); }
  }

  lemma StillBuilding(l: Live, viewers: seq<Viewer>)
    requires Building(l)
    ensures Building(l.(viewers := viewers))
  {
    hide Carries;
    hide Flat;
    hide TimesOf;
    hide GivenTo;
    hide Based;
    hide KeyFirst;
    hide Durations;
  }

  lemma JoinOk(enc: Encoder, l: Live)
    requires Inv(enc, l)
    ensures Inv(enc, Join(l))
  {
    var l1 := Join(l);
    if l.running && l.init != [] {
      JoinerOk(l);
      hide Inv;
      hide ViewerOk;
      forall u | u in l1.viewers ensures ViewerOk(l1, u) {
        if u in l.viewers { StillOk(enc, l, l1, u); }
      }
      OtherViewers(enc, l, l1.viewers);
    }
  }

  lemma StillOk(enc: Encoder, l: Live, l1: Live, v: Viewer)
    requires Inv(enc, l) && v in l.viewers && l1 == l.(viewers := l1.viewers)
    ensures ViewerOk(l1, v)
  {
    assert ViewerOk(l, v);
    hide Follows;
    hide Feed;
  }

  lemma ReaderOk(l: Live, v: Viewer, v1: Viewer)
    requires ViewerOk(l, v) && (v1 == GoAway(v) || exists ok :: v1 == Send(v, ok))
    ensures ViewerOk(l, v1)
  {
    hide GopStart;
    assert Feed(v1) == Feed(v);
    hide Feed;
  }

  lemma NextOk(enc: Encoder, l: Live, k: nat, v1: Viewer)
    requires Inv(enc, l) && k < |l.viewers| && (v1 == GoAway(l.viewers[k]) || exists ok :: v1 == Send(l.viewers[k], ok))
    ensures Inv(enc, l.(viewers := l.viewers[k := v1]))
  {
    var l1 := l.(viewers := l.viewers[k := v1]);
    assert l.viewers[k] in l.viewers;
    StillOk(enc, l, l1, l.viewers[k]);
    ReaderOk(l1, l.viewers[k], v1);
    hide Inv;
    hide ViewerOk;
    hide Send;
    hide GoAway;
    forall u | u in l1.viewers ensures ViewerOk(l1, u) {
      if u != v1 { StillOk(enc, l, l1, u); }
    }
    OtherViewers(enc, l, l1.viewers);
  }

  lemma StepOk(enc: Encoder, l: Live, e: Event)
    requires Inv(enc, l) && Allowed(l, e)
    ensures Inv(enc, Step(enc, l, e))
  {
    match e
    case Connect(all, init) => ConnectOk(enc, l, all, init);
    case Disconnect => StopOk(enc, l);
    case Write(id, s, dts) => WriteOk(enc, l, id, s, dts);
    case Come => JoinOk(enc, l);
    case Next(k, ok) => if k < |l.viewers| { NextOk(enc, l, k, Send(l.viewers[k], ok)); }
    case Gone(k) => if k < |l.viewers| { NextOk(enc, l, k, GoAway(l.viewers[k])); }
  }

  // ----- every run -----

  /** No SetTracks fails on a running stream. */
  ghost predicate Disciplined(enc: Encoder, l: Live, events: seq<Event>)
    requires Inv(enc, l)
    decreases |events|
  {
    events != [] ==>
      Allowed(l, events[0]) && (StepOk(enc, l, events[0]); Disciplined(enc, Step(enc, l, events[0]), events[1..]))
  }

  ghost function Run(enc: Encoder, l: Live, events: seq<Event>): (l1: Live)
    requires Inv(enc, l) && Disciplined(enc, l, events)
    ensures Inv(enc, l1)
    decreases |events|
  {
    if events == [] then l
    else
      StepOk(enc, l, events[0]);
      Run(enc, Step(enc, l, events[0]), events[1..])
  }

  lemma InitialOk(enc: Encoder)
    ensures Inv(enc, INITIAL)
  {
  }

  /** A run of a fresh broadcaster. */
  ghost predicate Well(enc: Encoder, events: seq<Event>) {
    InitialOk(enc);
    Disciplined(enc, INITIAL, events)
  }

  ghost function After(enc: Encoder, events: seq<Event>): (l: Live)
    requires Well(enc, events)
    ensures Inv(enc, l)
  {
    InitialOk(enc);
    Run(enc, INITIAL, events)
  }

  /** What a viewer is sent after the init is its session's part history from one
      position on, nothing skipped: the start of the GOP current when it came, or
      the first part after that when the GOP had been dropped. While subscribed it
      has been sent, or still has waiting, every part up to the last. */
  lemma ViewersMissNothing(enc: Encoder, events: seq<Event>, k: nat)
    requires Well(enc, events)
    requires k < |After(enc, events).viewers|
    ensures var l := After(enc, events);
      var v := l.viewers[k];
      && v.session <= |l.past|
      && var parts := SessionAt(l, v.session).parts;
      && v.from + |v.sent| <= |parts| && (forall j | 0 <= j < |v.sent| :: v.sent[j] == parts[v.from + j].data)
      && v.from <= v.joined <= |parts|
      && (v.from == v.joined <==> v.joined == 0 || Overgrown(parts[..v.joined]))
      && (v.from < v.joined ==> forall j | v.from < j < v.joined :: !parts[j].key)
      && (v.from < v.joined && !parts[v.from].key ==> v.from == 0)
      && (v.sent != [] ==> v.initSent)
      && (v.registered ==> v.session == |l.past| && v.from + |v.sent + v.gop + v.queue| == |parts|)
  {
    var l := After(enc, events);
    var v := l.viewers[k];
    assert v in l.viewers;
    assert ViewerOk(l, v);
    var parts := SessionAt(l, v.session).parts;
    forall j | 0 <= j < |v.sent| ensures v.sent[j] == parts[v.from + j].data {
      assert Feed(v)[j] == v.sent[j];
    }
    GopStartIsKey(parts[..v.joined]);
    if v.from < v.joined {
      forall j | v.from < j < v.joined ensures !parts[j].key { assert parts[..v.joined][j] == parts[j]; }
    }
  }

  lemma {:induction false} GopStartIsKey(parts: seq<Sent>)
    ensures var n := GopStart(parts); n == 0 || parts[n].key
  {
    if parts != [] && !Last(parts).key { GopStartIsKey(parts[..|parts| - 1]); }
  }

  /** Each viewer's channel is closed exactly once, when it leaves the set of
      subscribers, and is never sent to after that. */
  lemma ChannelsCloseOnce(enc: Encoder, events: seq<Event>, k: nat)
    requires Well(enc, events)
    requires k < |After(enc, events).viewers|
    ensures var v := After(enc, events).viewers[k];
      v.closes == (if v.registered then 0 else 1) && |v.queue| <= SUB_CHAN_BUFFER && (v.left ==> !v.registered)
  {
    assert ViewerOk(After(enc, events), After(enc, events).viewers[k]);
  }

  /** The GOP buffer is the history from the latest keyframe part on and gopBytes
      its size, unless that outgrew the limit after its first part; then it is
      empty until the next keyframe part. */
  lemma GopIsLatestGop(enc: Encoder, events: seq<Event>)
    requires Well(enc, events)
    ensures var l := After(enc, events);
      l.running ==>
        var g := l.cur.parts[GopStart(l.cur.parts)..];
        && l.gop == (if l.gopDropped then [] else Datas(g))
        && l.gopBytes == (if l.gopDropped then 0 else Total(g))
        && (l.gopDropped <==> Total(g) > MAX_GOP_BYTES && !(|g| == 1 && g[0].key))
        && (forall k | 0 < k < |g| :: !g[k].key)
  {
    assert GopOk(After(enc, events));
  }

  /** Every part that goes out is a flushed part, in order; its video starts with
      its only keyframe, if it has one, and key tells. A flushed part is missing
      from the history only when it could not be marshalled. */
  lemma KeyframesStartParts(enc: Encoder, events: seq<Event>, n: nat, k: nat)
    requires Well(enc, events)
    requires n <= |After(enc, events).past|
    requires k < |SessionAt(After(enc, events), n).parts|
    ensures var s := SessionAt(After(enc, events), n);
      var p := s.parts[k];
      && p.at < |s.flushed| && enc(s.flushed[p.at]) == Some(p.data)
      && s.flushed[p.at].number == p.at % UINT32
      && KeyFirst(In(s.flushed[p.at].tracks, s.video), p.key)
      && (k > 0 ==> s.parts[k - 1].at < p.at)
      && (k > 0 ==> forall j | s.parts[k - 1].at < j < p.at :: enc(s.flushed[j]).None?)
  {
    var s := SessionAt(After(enc, events), n);
    assert SessionOk(enc, s);
    assert s.parts[k] in s.parts && SentOk(enc, s, s.parts[k]);
    if k > 0 {
      forall j | s.parts[k - 1].at < j < s.parts[k].at ensures enc(s.flushed[j]).None? {
        forall p | p in s.parts ensures p.at != j {
          var i :| 0 <= i < |s.parts| && s.parts[i] == p;
          assert i < k - 1 ==> s.parts[i].at < s.parts[k - 1].at;
          assert k < i ==> s.parts[k].at < s.parts[i].at;
        }
      }
    }
  }

  lemma RoundedUp(m: int, d: Rate)
    ensures 0 <= (m + d - 1) / d * d - m < d
    ensures m > 0 ==> (m + d - 1) / d > 0
  {
    var q := (m + d - 1) / d;
    assert q * d <= m + d - 1 < q * d + d;
    if m > 0 && q <= 0 { ScaleOrder(q, 0, d); }
  }

  /** With a shift in force no time is negative; without one it is exactly when the
      sample's own is. The shift is that span of wall-clock time, rounded up by less
      than a tick unless the time is kept at 0. */
  lemma ShiftedSpan(shift: int, shiftScale: int, dts: int, scale: Rate)
    requires shift > 0 ==> shiftScale > 0
    ensures var at := Shifted(shift, shiftScale, dts, scale);
      && (at >= 0 <==> shift > 0 || dts >= 0)
      && (shift > 0 ==> 0 <= (at - dts) * shiftScale - shift * scale)
      && (shift > 0 && at > 0 ==> (at - dts) * shiftScale - shift * scale < shiftScale)
      && (shift > 0 && scale == shiftScale && dts == -shift ==> at == 0)
  {
    if shift > 0 {
      RoundedUp(shift * scale, shiftScale);
      var q := (shift * scale + shiftScale - 1) / shiftScale;
      ScaleOrder(q, Shifted(shift, shiftScale, dts, scale) - dts, shiftScale);
      if scale == shiftScale && dts == -shift {
        QuotUnique(shift * scale + shiftScale - 1, shiftScale, shift);
      }
    }
  }

  /** Every sample taken is in exactly one part or waits in the current one, in
      order and once, on its own track; each part's base time is its first sample's
      time. The first time of a session is not negative, nor is any other once that
      needed a shift. The current part holds less than 300 ms of video. */
  lemma NothingTakenIsLost(enc: Encoder, events: seq<Event>, id: int)
    requires Well(enc, events)
    ensures var l := After(enc, events);
      l.running ==>
        && GivenTo(l.cur.given, id) == Flat(l.cur.flushed, id) + Get(l.acc.samples, id)
        && Based(l.cur.flushed, l.cur.given)
        && (l.cur.given != [] ==> l.cur.given[0].at >= 0)
        && (l.shift > 0 ==> forall g | g in l.cur.given :: g.at >= 0)
        && l.videoID in l.scale
        && Durations(Get(l.acc.samples, l.videoID), l.scale[l.videoID]) < PART_DURATION
  {
    var l := After(enc, events);
    if l.running {
      assert Building(l);
      hide After;
      forall g | g in l.cur.given ensures g.at >= 0 <==> l.shift > 0 || g.dts >= 0 {
        ShiftedSpan(l.shift, l.shiftScale, g.dts, l.scale[g.id]);
      }
      if l.cur.given != [] { assert l.cur.given[0] in l.cur.given; }
      hide Shifted;
    }
  }

  // ----- the shift of a stream that starts before zero -----

  /** g was placed as the stream's first sample f tells, on clocks of rates fs and gs:
      left alone when f is at or after zero, otherwise moved by the span that brings f
      to zero, rounded up by less than a tick, and kept at zero where that is not
      enough. */
  predicate PlacedBy(f: Given, g: Given, fs: int, gs: int) {
    && (f.dts >= 0 ==> g.at == g.dts)
    && (f.dts < 0 ==>
          && f.at == 0 && g.at >= 0
          && 0 <= (g.at - g.dts) * fs - -f.dts * gs
          && (g.at > 0 ==> (g.at - g.dts) * fs - -f.dts * gs < fs))
  }

  /** Over every run each sample of every track is moved by the same span of
      wall-clock time, told by the stream's first sample. */
  lemma ShiftIsTheSameEverywhere(enc: Encoder, events: seq<Event>, k: nat)
    requires Well(enc, events) && After(enc, events).running && k < |After(enc, events).cur.given|
    ensures var l := After(enc, events);
      var f, g := l.cur.given[0], l.cur.given[k];
      f.id in l.scale && g.id in l.scale && PlacedBy(f, g, l.scale[f.id], l.scale[g.id])
  {
    BuildingAfter(enc, events);
    hide *;
    PlacedAlike(After(enc, events), k);
  }

  lemma BuildingAfter(enc: Encoder, events: seq<Event>)
    requires Well(enc, events) && After(enc, events).running
    ensures Kept(After(enc, events)) && Shifts(After(enc, events))
  {
    assert Building(After(enc, events));
    hide After;
    hide Kept;
    hide Shifts;
  }

  lemma PlacedAlike(l: Live, k: nat)
    requires Shifts(l) && k < |l.cur.given|
    ensures var f, g := l.cur.given[0], l.cur.given[k];
      f.id in l.scale && g.id in l.scale && PlacedBy(f, g, l.scale[f.id], l.scale[g.id])
  {
    var f, g := l.cur.given[0], l.cur.given[k];
    assert f in l.cur.given && g in l.cur.given;
    var fs, gs := l.scale[f.id], l.scale[g.id];
    if f.dts < 0 {
      var shift := -f.dts;
      ShiftedSpan(shift, fs, f.dts, fs);
      ShiftedSpan(shift, fs, g.dts, gs);
      hide Shifted;
    }
  }

  /** Over every run no time is negative exactly when the stream starts before zero,
      and is shifted, or never goes below it. */
  lemma TimesNonNegativeIff(enc: Encoder, events: seq<Event>)
    requires Well(enc, events) && After(enc, events).running
    ensures var given := After(enc, events).cur.given;
      (forall g | g in given :: g.at >= 0)
      <==> given == [] || given[0].dts < 0 || forall g | g in given :: g.dts >= 0
  {
    BuildingAfter(enc, events);
    hide *;
    var l := After(enc, events);
    forall g | g in l.cur.given ensures g.at >= 0 <==> l.cur.given[0].dts < 0 || g.dts >= 0 { PlacedSign(l, g); }
  }

  lemma PlacedSign(l: Live, g: Given)
    requires Shifts(l) && g in l.cur.given
    ensures g.at >= 0 <==> l.cur.given[0].dts < 0 || g.dts >= 0
  {
    ShiftedSpan(l.shift, l.shiftScale, g.dts, l.scale[g.id]);
    hide Shifted;
  }

  /** What was taken of one track. */
  function ToTrack(given: seq<Given>, id: int): seq<Given> {
    if given == [] then []
    else ToTrack(given[..|given| - 1], id) + if Last(given).id == id then [Last(given)] else []
  }

  lemma {:induction false} ToTrackIs(given: seq<Given>, id: int)
    ensures |ToTrack(given, id)| == |TimesOf(given, id)| == |GivenTo(given, id)|
    ensures forall i | 0 <= i < |ToTrack(given, id)| ::
      var g := ToTrack(given, id)[i];
      g in given && g.id == id && g.at == TimesOf(given, id)[i] && g.sample == GivenTo(given, id)[i]
  {
    if given != [] {
      ToTrackIs(given[..|given| - 1], id);
      assert forall g | g in given[..|given| - 1] :: g in given;
    }
  }

  /** Part n of the session holds track id; the last one is the part being built. */
  predicate Holds(l: Live, n: nat, id: int)
    requires n <= |l.cur.flushed|
  {
    if n < |l.cur.flushed| then In(l.cur.flushed[n].tracks, id) != [] else id in l.acc.base
  }

  /** The base time it gives the track. */
  function BaseOf(l: Live, n: nat, id: int): nat
    requires n <= |l.cur.flushed|
  {
    if n < |l.cur.flushed| then BaseIn(l.cur.flushed[n].tracks, id) else LiveSpec.Base(l.acc.base, id)
  }

  /** The sample that opens the track in it. */
  function Opener(l: Live, n: nat, id: int): Given
    requires n <= |l.cur.flushed|
  {
    var i, list := |Flat(l.cur.flushed[..n], id)|, ToTrack(l.cur.given, id);
    if i < |list| then list[i] else Given(id, Sample([], 0, 0, false), 0, 0)
  }

  lemma {:induction false} BasedAt(flushed: seq<Part>, given: seq<Given>, n: nat, id: int)
    requires Based(flushed, given) && n < |flushed| && In(flushed[n].tracks, id) != []
    ensures |Flat(flushed[..n], id)| < |TimesOf(given, id)|
    ensures BaseIn(flushed[n].tracks, id) == TimesOf(given, id)[|Flat(flushed[..n], id)|] % UINT64
  {
    var init := flushed[..|flushed| - 1];
    if n < |init| {
      BasedAt(init, given, n, id);
      assert init[..n] == flushed[..n];
    }
  }

  lemma {:induction false} FlatAt(flushed: seq<Part>, n: nat, id: int)
    requires n < |flushed| && In(flushed[n].tracks, id) != []
    ensures var i := |Flat(flushed[..n], id)|;
      i < |Flat(flushed, id)| && Flat(flushed, id)[i] == In(flushed[n].tracks, id)[0]
  {
    var init := flushed[..|flushed| - 1];
    if n < |init| {
      FlatAt(init, n, id);
      assert init[..n] == flushed[..n];
    }
  }

  /** The opener is the track's first sample in the part, and the base time is its
      time as a 64-bit unsigned number. */
  lemma OpenerOk(l: Live, n: nat, id: int)
    requires Kept(l) && n <= |l.cur.flushed| && Holds(l, n, id)
    ensures var g := Opener(l, n, id);
      && g in l.cur.given && g.id == id && BaseOf(l, n, id) == g.at % UINT64
      && (n < |l.cur.flushed| ==> In(l.cur.flushed[n].tracks, id)[0] == g.sample)
      && (n == |l.cur.flushed| ==> id in l.acc.samples && l.acc.samples[id] != [] && l.acc.samples[id][0] == g.sample)
  {
    ToTrackIs(l.cur.given, id);
    if n < |l.cur.flushed| {
      BasedAt(l.cur.flushed, l.cur.given, n, id);
      FlatAt(l.cur.flushed, n, id);
    } else {
      assert l.cur.flushed[..n] == l.cur.flushed;
    }
    hide Flat;
    hide In;
    hide ToTrack;
    hide TimesOf;
    hide Based;
  }

  /** Over every run each base time, of the parts flushed and of the one being built,
      is its opening sample's time, and not that time wrapped to 64 bits, exactly when
      that fits 64 bits and the stream starts before zero or the sample is not before it. */
  lemma BaseTimesExactIff(enc: Encoder, events: seq<Event>, n: nat, id: int)
    requires Well(enc, events) && After(enc, events).running
    requires n <= |After(enc, events).cur.flushed| && Holds(After(enc, events), n, id)
    ensures var l := After(enc, events);
      var g := Opener(l, n, id);
      && g in l.cur.given && g.id == id
      && (BaseOf(l, n, id) == g.at <==> g.at < UINT64 && (l.cur.given[0].dts < 0 || g.dts >= 0))
      && (-UINT64 <= g.at < 0 ==> BaseOf(l, n, id) == UINT64 + g.at)
  {
    BuildingAfter(enc, events);
    hide *;
    var l := After(enc, events);
    OpenerOk(l, n, id);
    PlacedSign(l, Opener(l, n, id));
    Wraps(Opener(l, n, id).at);
  }

  lemma Wraps(at: int)
    ensures at % UINT64 == at <==> 0 <= at < UINT64
    ensures -UINT64 <= at < 0 ==> at % UINT64 == UINT64 + at
  {
  }

  /** Video at decode time 0, then audio just before it. */
  function LateAudio(): seq<Event> {
    var s := Sample([], 0, 0, false);
    [Connect([Source(1, 90000, H264), Source(2, 48000, MPEG4Audio)], Some([])), Write(1, s, 0), Write(2, s, -1)]
  }

  /** The broadcaster once the stream was connected. */
  function Connected(): Live {
    var tracks := [Source(1, 90000, H264), Source(2, 48000, MPEG4Audio)];
    INITIAL.(running := true, tracks := tracks, scale := map[1 := 90000, 2 := 48000], videoID := 1,
             past := [INITIAL.cur], cur := Session([], 1, [], [], []))
  }

  lemma ConnectedIs(enc: Encoder)
    ensures Allowed(INITIAL, LateAudio()[0]) && Step(enc, INITIAL, LateAudio()[0]) == Connected()
  {
    var v, a := Source(1, 90000, H264), Source(2, 48000, MPEG4Audio);
    assert [v, a][..1] == [v] && [v][..0] == [];
    assert IncludedOf([v]) == [v] && ScaleOf([v]) == map[1 := 90000 as Rate] && VideoOf([v]) == 1;
    assert IncludedOf([v, a]) == [v, a] && VideoOf([v, a]) == 1;
    assert ScaleOf([v, a]) == map[1 := 90000, 2 := 48000];
    assert CutAll([]) == [];
  }

  /** The two samples, at their own times. */
  lemma BothTaken(enc: Encoder)
    ensures var s := Sample([], 0, 0, false);
      var l := WriteSample(enc, WriteSample(enc, Connected(), 1, s, 0), 2, s, -1);
      && l.running && l.cur.flushed == [] && l.cur.given == [Given(1, s, 0, 0), Given(2, s, -1, -1)]
      && l.acc.base == map[1 := 0, 2 := -1]
  {
    hide Flush;
    var s := Sample([], 0, 0, false);
    var l := Added(Connected(), 1, s, 0);
    assert l.acc.base == map[1 := 0] && l.acc.videoDur == 0 && l.cur.given == [Given(1, s, 0, 0)];
    assert WriteSample(enc, Connected(), 1, s, 0) == l;
    assert l.haveShift && l.shift == 0;
    var l1 := Added(l, 2, s, -1);
    assert l1.cur.given == l.cur.given + [Given(2, s, -1, -1)];
  }

  lemma RunThree(enc: Encoder, events: seq<Event>)
    requires |events| == 3 && events[1].Write? && events[2].Write? && Allowed(INITIAL, events[0])
    ensures Well(enc, events)
    ensures ShiftOk(Step(enc, INITIAL, events[0]))
    ensures var l := Step(enc, INITIAL, events[0]);
      && ShiftOk(Step(enc, l, events[1]))
      && After(enc, events) == Step(enc, Step(enc, l, events[1]), events[2])
  {
    hide Inv;
    InitialOk(enc);
    var l0: Live := INITIAL;
    StepOk(enc, l0, events[0]);
    var l1 := Step(enc, l0, events[0]);
    StepOk(enc, l1, events[1]);
    var l2 := Step(enc, l1, events[1]);
    StepOk(enc, l2, events[2]);
    var l3 := Step(enc, l2, events[2]);
    var one, two := events[1..], events[2..];
    assert one[1..] == two && one[0] == events[1] && two[0] == events[2] && two[1..] == [];
    InvShift(enc, l1);
    InvShift(enc, l2);
    hide Step;
    hide Allowed;
    assert Disciplined(enc, l3, []) && Run(enc, l3, []) == l3;
    assert Disciplined(enc, l2, two) && Run(enc, l2, two) == l3;
    assert Disciplined(enc, l1, one) && Run(enc, l1, one) == l3;
  }

  lemma InvShift(enc: Encoder, l: Live)
    requires Inv(enc, l)
    ensures ShiftOk(l)
  {
  }

  /** The audio's base time wraps to the largest 64-bit number. */
  lemma NegativeBaseWraps(enc: Encoder)
    ensures Well(enc, LateAudio())
    ensures var l := After(enc, LateAudio());
      && l.running && l.cur.flushed == [] && Holds(l, 0, 2)
      && Opener(l, 0, 2).at == -1 && BaseOf(l, 0, 2) == UINT64 - 1
  {
    ConnectedIs(enc);
    RunThree(enc, LateAudio());
    BothTaken(enc);
    hide WriteSample;
    var l, s := After(enc, LateAudio()), Sample([], 0, 0, false);
    hide After;
    hide Well;
    OpenerOf(l, Given(1, s, 0, 0), Given(2, s, -1, -1));
  }

  lemma OpenerOf(l: Live, f: Given, g: Given)
    requires l.cur.given == [f, g] && f.id == 1 && g.id == 2 && l.cur.flushed == []
    ensures Opener(l, 0, 2) == g
  {
    assert [f, g][..1] == [f] && [f][..0] == [];
    assert ToTrack([f], 2) == [] && ToTrack([f, g], 2) == [g];
    assert l.cur.flushed[..0] == [];
  }
}

/** The broadcaster in its own form. */
module Live {
  import opened Wrappers
  import opened Clock
  import opened LiveSpec

  /** A subscription and the locals of the HandleStream call it belongs to. */
  class Subscriber {
    ghost const session: nat
    ghost const from: nat
    ghost const joined: nat
    var ch: seq<Bytes>
    ghost var closes: nat
    var closed: bool
    var initSent: bool
    var gop: seq<Bytes>
    var sent: seq<Bytes>
    var left: bool

    constructor (gop: seq<Bytes>, ghost session: nat, ghost joined: nat)
      ensures Seen(true) == Viewer(session, joined - Min(|gop|, joined), joined, false, gop, [], [], true, 0, false)
      ensures !closed && closes == 0
    {
      this.session, this.from, this.joined := session, joined - Min(|gop|, joined), joined;
      ch, closes, closed, initSent, this.gop, sent, left := [], 0, false, false, gop, [], false;
    }

    ghost function Seen(registered: bool): Viewer
      reads this
    {
      Viewer(session, from, joined, initSent, gop, sent, ch, registered, closes, left)
    }

    method Close()
      modifies this
      ensures closed && closes > 0 && Seen(false) == old(Seen(true)).(registered := false, closes := old(closes) + 1)
    {
      closed, closes := true, closes + 1;
    }

    /** A non-blocking send. */
    method TrySend(data: Bytes) returns (ok: bool)
      modifies this
      ensures ok == (|old(ch)| < SUB_CHAN_BUFFER) && closed == old(closed)
      ensures Seen(true) == old(Seen(true)).(queue := if ok then old(ch) + [data] else old(ch))
    {
      ok := |ch| < SUB_CHAN_BUFFER;
      if ok { ch := ch + [data]; }
    }
  }

  /** The subscribed viewers; all also has those that left. */
  class Hub {
    var subs: set<Subscriber>
    ghost var all: seq<Subscriber>

    constructor ()
      ensures Valid() && all == [] && subs == {}
    {
      subs, all := {}, [];
    }

    /** A subscriber's channel is closed exactly when it is not in subs. */
    ghost predicate Valid()
      reads this, all
    {
      && (forall s | s in subs :: s in all)
      && (forall i, j | 0 <= i < |all| && 0 <= j < |all| && i != j :: all[i] != all[j])
      && (forall k | 0 <= k < |all| :: (all[k].closed <==> all[k] !in subs) && (all[k].closed <==> all[k].closes > 0))
    }

    ghost function Viewers(): seq<Viewer>
      reads this, all
    {
      seq(|all|, k requires 0 <= k < |all| reads this, all => all[k].Seen(all[k] in subs))
    }

    /** delete(b.subs, s) and close(s.ch). */
    method Remove(s: Subscriber, ghost k: nat)
      requires Valid() && k < |all| && all[k] == s && s in subs
      modifies `subs, s
      ensures Valid() && all == old(all) && subs == old(subs) - {s} && s.left == old(s.left)
      ensures Viewers() == old(Viewers())[k := Cut(old(Viewers())[k])]
    {
      subs := subs - {s};
      s.Close();
    }

    method Push(s: Subscriber, data: Bytes, ghost k: nat)
      requires Valid() && k < |all| && all[k] == s && s in subs
      modifies `subs, s
      ensures Valid() && all == old(all) && subs <= old(subs) <= subs + {s}
      ensures Viewers() == old(Viewers())[k := Offer(old(Viewers())[k], data)]
    {
      label before:
      var ok := s.TrySend(data);
      if ok {
        assert Viewers() == old(Viewers())[k := Offer(old(Viewers())[k], data)];
      } else {
        assert Viewers() == old(Viewers());
        Remove(s, k);
      }
    }

    /** Closes every viewer's channel, in the map's own order. */
    method DropAll()
      requires Valid()
      modifies `subs, all
      ensures Valid() && all == old(all) && Viewers() == CutAll(old(Viewers()))
    {
      ghost var before := Viewers();
      while subs != {}
        invariant Valid() && subs <= old(subs) && |Viewers()| == |before|
        invariant forall k | 0 <= k < |before| :: Viewers()[k] == if all[k] in subs then before[k] else Cut(before[k])
        decreases |subs|
      {
        var s :| s in subs;
        ghost var m :| 0 <= m < |all| && all[m] == s;
        ghost var seen := Viewers();
        Remove(s, m);
        hide Valid;
        hide Viewers;
        forall k | 0 <= k < |before| ensures Viewers()[k] == if all[k] in subs then before[k] else Cut(before[k]) {
          assert k != m ==> Viewers()[k] == seen[k];
        }
      }
      assert Viewers() == CutAll(before);
    }

    /** Offers a part to every viewer, in the map's own order. */
    method FanOut(data: Bytes)
      requires Valid()
      modifies `subs, all
      ensures Valid() && all == old(all) && Viewers() == OfferAll(old(Viewers()), data)
    {
      ghost var before := Viewers();
      var todo := subs;
      while todo != {}
        invariant Valid() && todo <= subs && |Viewers()| == |before|
        invariant forall k | 0 <= k < |before| ::
          Viewers()[k] == (if all[k] in todo then before[k] else Offer(before[k], data))
        decreases |todo|
      {
        var s :| s in todo;
        ghost var m :| 0 <= m < |all| && all[m] == s;
        todo := todo - {s};
        Push(s, data, m);
      }
      assert Viewers() == OfferAll(before, data);
    }

    method Add(v: Subscriber)
      requires Valid() && v !in all && !v.closed && v.closes == 0
      modifies this
      ensures Valid() && all == old(all) + [v] && subs == old(subs) + {v}
      ensures Viewers() == old(Viewers()) + [v.Seen(true)]
    {
      subs := subs + {v};
      all := all + [v];
    }
  }

  /** The tracks a browser can play, their clocks, and the first video track. */
  method ScanTracks(offered: seq<Source>) returns (incl: seq<Source>, timeScale: map<int, Rate>, videoID: int)
    ensures incl == IncludedOf(offered) && timeScale == ScaleOf(offered) && videoID == VideoOf(offered)
  {
    incl, timeScale, videoID := [], map[], 0;
    for k := 0 to |offered|
      invariant incl == IncludedOf(offered[..k])
      invariant timeScale == ScaleOf(offered[..k]) && videoID == VideoOf(offered[..k])
    {
      var t := offered[k];
      assert offered[..k + 1][..k] == offered[..k];
      if Included(t) {
        incl := incl + [t];
        timeScale := timeScale[t.id := t.scale];
        if videoID == 0 && !t.codec.MPEG4Audio? { videoID := t.id; }
      }
    }
    assert offered[..|offered|] == offered;
  }

  class Broadcaster {
    const enc: Encoder
    const hub: Hub
    var running: bool
    var initBytes: Bytes
    var tracks: seq<Source>
    var timeScale: map<int, Rate>
    var videoID: int
    var gop: seq<Bytes>
    var gopBytes: nat
    var gopDropped: bool
    var number: nat
    var samples: map<int, seq<Sample>>
    var baseDTS: map<int, int>
    var curVideoDur: nat
    var partKeyframe: bool
    var havePartVid: bool
    var dtsShift: int
    var dtsShiftTS: int
    var haveDTSShift: bool
    ghost var past: seq<Session>
    ghost var cur: Session

    constructor (enc: Encoder)
      ensures Valid() && State() == INITIAL && this.enc == enc && fresh(hub)
    {
      this.enc := enc;
      hub := new Hub();
      running, initBytes, tracks, timeScale, videoID := false, [], [], map[], 0;
      gop, gopBytes, gopDropped, number := [], 0, false, 0;
      samples, baseDTS, curVideoDur, partKeyframe, havePartVid := map[], map[], 0, false, false;
      dtsShift, dtsShiftTS, haveDTSShift := 0, 0, false;
      past, cur := [], Session([], 0, [], [], []);
    }

    ghost predicate Valid()
      reads this, hub, hub.all
    {
      hub.Valid() && ShiftOk(Core())
    }

    ghost function Building(): Acc
      reads this
    {
      Acc(samples, baseDTS, curVideoDur, partKeyframe, havePartVid)
    }

    /** Everything but the viewers. */
    ghost function Core(): Live
      reads this
    {
      Live(running, initBytes, tracks, timeScale, videoID, gop, gopBytes, gopDropped, number, Building(),
           dtsShift, dtsShiftTS, haveDTSShift, [], past, cur)
    }

    ghost function State(): Live
      reads this, hub, hub.all
    {
      Core().(viewers := hub.Viewers())
    }

    method ResetPart()
      modifies `samples, `baseDTS, `curVideoDur, `partKeyframe, `havePartVid
      ensures Core() == old(Core()).(acc := EMPTY)
    {
      samples, baseDTS, curVideoDur, partKeyframe, havePartVid := map[], map[], 0, false, false;
    }

    method ResetGop()
      modifies `gop, `gopBytes, `gopDropped
      ensures Core() == old(Core()).(gop := [], gopBytes := 0, gopDropped := false)
    {
      gop, gopBytes, gopDropped := [], 0, false;
    }

    method ResetClocks(scale: map<int, Rate>, video: int)
      modifies `timeScale, `videoID, `dtsShift, `dtsShiftTS, `haveDTSShift
      ensures Core() == old(Core()).(scale := scale, videoID := video, shift := 0, shiftScale := 0, haveShift := false)
    {
      timeScale, videoID := scale, video;
      dtsShift, dtsShiftTS, haveDTSShift := 0, 0, false;
    }

    method Begin(incl: seq<Source>, init: Bytes)
      modifies `tracks, `initBytes, `number, `running
      ensures Core() == old(Core()).(tracks := incl, init := init, number := 0, running := true)
    {
      tracks, initBytes := incl, init;
      number, running := 0, true;
    }

    ghost method OpenSession(init: Bytes)
      modifies `past, `cur
      ensures Core() == old(Core()).(past := old(past) + [old(cur)], cur := Session(init, old(videoID), [], [], []))
    {
      past, cur := past + [cur], Session(init, videoID, [], [], []);
    }

    /** init is the marshalled init segment, None when that fails. */
    method SetTracks(offered: seq<Source>, init: Option<Bytes>) returns (ok: bool)
      requires Valid()
      modifies this, hub, hub.all
      ensures Valid() && hub.all == old(hub.all)
      ensures (State(), ok) == LiveSpec.SetTracks(old(State()), offered, init)
    {
      hide hub.Viewers;
      hide hub.Valid;
      hide CutAll;
      hide ScaleOf;
      hide IncludedOf;
      hide VideoOf;
      var incl, scale, video := ScanTracks(offered);
      ResetClocks(scale, video);
      if videoID == 0 || init.None? { return false; }
      Begin(incl, init.value);
      ResetGop();
      ResetPart();
      OpenSession(init.value);
      hub.DropAll();
      ok := true;
    }

    method Stop()
      requires Valid()
      modifies this, hub, hub.all
      ensures Valid() && hub.all == old(hub.all) && State() == LiveSpec.Stop(old(State()))
    {
      hide hub.Viewers;
      hide hub.Valid;
      hide CutAll;
      running, initBytes := false, [];
      ResetGop();
      hub.DropAll();
    }

    method CollectTracks() returns (out: seq<PartTrack>)
      ensures out == Collect(tracks, Building())
    {
      out := [];
      for k := 0 to |tracks|
        invariant out == Collect(tracks[..k], Building())
      {
        var t := tracks[k];
        assert tracks[..k + 1][..k] == tracks[..k];
        var ss := Get(samples, t.id);
        if ss != [] { out := out + [PartTrack(t.id, Base(baseDTS, t.id), ss)]; }
      }
      assert tracks[..|tracks|] == tracks;
    }

    method KeepGop(data: Bytes)
      modifies `gop, `gopBytes, `gopDropped
      ensures Core() == Keep(old(Core()), data, partKeyframe)
    {
      if partKeyframe {
        gop, gopBytes, gopDropped := [data], |data|, false;
      } else if gopDropped {
      } else if gopBytes + |data| > MAX_GOP_BYTES {
        gop, gopBytes, gopDropped := [], 0, true;
      } else {
        gop, gopBytes := gop + [data], gopBytes + |data|;
      }
    }

    /** The bytes join the GOP buffer and the history. */
    method Publish(data: Bytes, ghost at: nat)
      modifies `cur, `gop, `gopBytes, `gopDropped
      ensures Core() == Published(old(Core()), data, at)
    {
      KeepGop(data);
      cur := cur.(parts := cur.parts + [Sent(at, data, partKeyframe)]);
    }

    /** The part takes its number and is marshalled. */
    method Marshal(out: seq<PartTrack>) returns (data: Option<Bytes>)
      modifies `number, `cur
      ensures data == enc(Part(old(number), out))
      ensures Core() == old(Core()).(number := (old(number) + 1) % UINT32,
                                     cur := old(cur).(flushed := old(cur).flushed + [Part(old(number), out)]))
    {
      var part := Part(number, out);
      number := (number + 1) % UINT32;
      cur := cur.(flushed := cur.flushed + [part]);
      data := enc(part);
    }

    /** The part leaves the accumulator. */
    method MakePart(out: seq<PartTrack>) returns (data: Option<Bytes>)
      requires out == Collect(tracks, Building()) && out != []
      modifies `number, `cur, `gop, `gopBytes, `gopDropped, `samples, `baseDTS, `curVideoDur, `partKeyframe,
        `havePartVid
      ensures data == enc(Part(old(number), out))
      ensures Core() == Flush(enc, old(Core()))
    {
      FlushSteps(enc, Core());
      hide Collect;
      hide Published;
      hide Flush;
      data := Marshal(out);
      if data.Some? { Publish(data.value, |cur.flushed| - 1); }
      ResetPart();
    }

    static function Published(l: Live, data: Bytes, at: nat): Live {
      Keep(l, data, l.acc.key).(cur := l.cur.(parts := l.cur.parts + [Sent(at, data, l.acc.key)]))
    }

    /** A flush apart from the viewers, step by step. */
    static lemma FlushSteps(enc: Encoder, l: Live)
      requires l.viewers == [] && Collect(l.tracks, l.acc) != []
      ensures var part := Part(l.number, Collect(l.tracks, l.acc));
        var l1 := l.(number := (l.number + 1) % UINT32, cur := l.cur.(flushed := l.cur.flushed + [part]));
        var l2 := if enc(part).Some? then Published(l1, enc(part).value, |l.cur.flushed|) else l1;
        Flush(enc, l) == l2.(acc := EMPTY)
    {
      hide Collect;
    }

    static lemma KeepApart(l: Live, data: Bytes, key: bool)
      ensures Keep(l.(viewers := []), data, key) == Keep(l, data, key).(viewers := [])
      ensures var k := Keep(l, data, key); k == l.(gop := k.gop, gopBytes := k.gopBytes, gopDropped := k.gopDropped)
    {
    }

    /** What a flush does apart from the viewers, and to them. */
    static lemma FlushApart(enc: Encoder, l: Live)
      ensures var tracks := Collect(l.tracks, l.acc);
        var data := if tracks == [] then None else enc(Part(l.number, tracks));
        Flush(enc, l) == Flush(enc, l.(viewers := [])).(
          viewers := if data.Some? then OfferAll(l.viewers, data.value) else l.viewers)
    {
      hide Collect;
      hide OfferAll;
      hide Keep;
      var part := Part(l.number, Collect(l.tracks, l.acc));
      var l1 := l.(acc := EMPTY, number := (l.number + 1) % UINT32,
                   cur := l.cur.(flushed := l.cur.flushed + [part]));
      if enc(part).Some? { KeepApart(l1, enc(part).value, l.acc.key); }
    }

    static lemma FlushFields(enc: Encoder, l: Live)
      ensures var l1 := Flush(enc, l);
        && l1.shift == l.shift && l1.shiftScale == l.shiftScale && l1.scale == l.scale && l1.videoID == l.videoID
    {
      hide Collect;
      hide OfferAll;
    }

    method FlushPart()
      requires Valid()
      modifies this, hub, hub.all
      ensures Valid() && hub.all == old(hub.all) && State() == Flush(enc, old(State()))
    {
      hide Collect;
      hide OfferAll;
      hide hub.Viewers;
      hide hub.Valid;
      FlushApart(enc, State());
      FlushFields(enc, State());
      var out := CollectTracks();
      if out == [] {
        ResetPart();
        return;
      }
      var data := MakePart(out);
      hide Flush;
      hide Building;
      if data.Some? { hub.FanOut(data.value); }
    }

    method WriteSample(id: int, s: Sample, dts: int)
      requires Valid()
      modifies this, hub, hub.all
      ensures Valid() && hub.all == old(hub.all) && State() == LiveSpec.WriteSample(enc, old(State()), id, s, dts)
    {
      hide Flush;
      hide Take;
      hide hub.Viewers;
      hide hub.Valid;
      if !running || id !in timeScale { return; }
      var scale := timeScale[id];
      var isVideo := id == videoID;
      var isKeyframe := isVideo && !s.nonSync;
      if isVideo && !isKeyframe && s.duration < MinDuration(scale) { return; }
      if isKeyframe && havePartVid {
        FlushFields(enc, State());
        FlushPart();
      }
      TakeSample(id, s, dts);
    }

    /** The stream's shift, chosen by its first sample. */
    method Place(dts: int, scale: Rate) returns (at: int)
      requires dtsShift > 0 ==> dtsShiftTS > 0
      modifies `dtsShift, `dtsShiftTS, `haveDTSShift
      ensures dtsShift > 0 ==> dtsShiftTS > 0
      ensures Core() == ChooseShift(old(Core()), dts, scale) && at == Shifted(dtsShift, dtsShiftTS, dts, scale)
    {
      if !haveDTSShift {
        haveDTSShift := true;
        if dts < 0 { dtsShift, dtsShiftTS := -dts, scale; }
      }
      at := Shifted(dtsShift, dtsShiftTS, dts, scale);
    }

    method Accumulate(id: int, s: Sample, at: int, scale: Rate)
      modifies `samples, `baseDTS, `curVideoDur, `partKeyframe, `havePartVid
      ensures Building()
           == if id == videoID then AddVideo(old(Building()), id, s, at, scale) else AddTo(old(Building()), id, s, at)
    {
      if id !in baseDTS { baseDTS := baseDTS[id := at]; }
      samples := samples[id := Get(samples, id) + [s]];
      if id == videoID {
        if !s.nonSync && |samples[id]| == 1 { partKeyframe := true; }
        havePartVid := true;
        curVideoDur := curVideoDur + s.duration * SECOND / scale;
      }
    }

    method AddSample(id: int, s: Sample, dts: int)
      requires id in timeScale && ShiftOk(Core())
      modifies this
      ensures Core() == Added(old(Core()), id, s, dts) && ShiftOk(Core())
    {
      hide Shifted;
      hide AddTo;
      hide AddVideo;
      var scale := timeScale[id];
      var at := Place(dts, scale);
      cur := cur.(given := cur.given + [Given(id, s, dts, at)]);
      Accumulate(id, s, at, scale);
    }

    static lemma AddedApart(l: Live, id: int, s: Sample, dts: int)
      requires id in l.scale && ShiftOk(l)
      ensures Added(l, id, s, dts) == Added(l.(viewers := []), id, s, dts).(viewers := l.viewers)
      ensures Added(l, id, s, dts).videoID == l.videoID
    {
      hide Shifted;
      hide AddTo;
      hide AddVideo;
    }

    method KeepSample(id: int, s: Sample, dts: int)
      requires Valid() && id in timeScale
      modifies this
      ensures Valid() && hub.all == old(hub.all) && State() == Added(old(State()), id, s, dts)
      ensures videoID == old(videoID)
    {
      AddedApart(State(), id, s, dts);
      hide Added;
      hide hub.Viewers;
      hide hub.Valid;
      hide ShiftOk;
      AddSample(id, s, dts);
    }

    method TakeSample(id: int, s: Sample, dts: int)
      requires Valid() && id in timeScale
      modifies this, hub, hub.all
      ensures Valid() && hub.all == old(hub.all) && State() == Take(enc, old(State()), id, s, dts)
    {
      hide Flush;
      hide Added;
      hide hub.Viewers;
      hide hub.Valid;
      hide ShiftOk;
      KeepSample(id, s, dts);
      if id == videoID && curVideoDur >= PART_DURATION { FlushPart(); }
    }

    /** The subscription a HandleStream call starts with. */
    method Join() returns (sub: Option<Subscriber>)
      requires Valid()
      modifies this, hub
      ensures Valid() && State() == LiveSpec.Join(old(State()))
      ensures sub.Some? ==> sub.value in hub.subs && hub.all == old(hub.all) + [sub.value]
    {
      hide hub.Viewers;
      if !running || initBytes == [] { return None; }
      var v := new Subscriber(gop, |past|, |cur.parts|);
      hub.Add(v);
      sub := Some(v);
    }

    /** The deferred end of a HandleStream call. */
    method Unsubscribe(v: Subscriber, ghost k: nat)
      requires Valid() && k < |hub.all| && hub.all[k] == v
      modifies hub, v
      ensures Valid() && hub.all == old(hub.all)
      ensures State() == old(State()).(viewers := old(hub.Viewers())[k := LiveSpec.Leave(old(hub.Viewers())[k])])
    {
      if v in hub.subs { hub.Remove(v, k); }
      ghost var cut := hub.Viewers();
      assert cut == old(hub.Viewers())[k := Cut(old(hub.Viewers())[k])];
      v.left := true;
      assert hub.Viewers() == cut[k := cut[k].(left := true)];
    }

    /** The handler's next write; ok says whether it reached the client. */
    method SendNext(v: Subscriber, ok: bool, ghost k: nat)
      requires Valid() && k < |hub.all| && hub.all[k] == v
      modifies hub, v
      ensures Valid() && hub.all == old(hub.all)
      ensures State() == old(State()).(viewers := old(hub.Viewers())[k := LiveSpec.Send(old(hub.Viewers())[k], ok)])
    {
      ghost var seen := hub.Viewers();
      var idle := v.initSent && v.gop == [] && v.ch == [];
      if v.left || (idle && !v.closed) {
        assert seen[k := LiveSpec.Send(seen[k], ok)] == seen;
        return;
      }
      if idle || !ok {
        Unsubscribe(v, k);
        return;
      }
      if !v.initSent {
        v.initSent := true;
      } else if v.gop != [] {
        v.sent, v.gop := v.sent + [v.gop[0]], v.gop[1..];
      } else {
        v.sent, v.ch := v.sent + [v.ch[0]], v.ch[1..];
      }
      assert hub.Viewers() == seen[k := LiveSpec.Send(seen[k], ok)];
    }
  }
}
