/** recovery.measure: a segment's duration and video extent recomputed from the
    fragments on disk. */
module Recovery {
  import opened Wrappers
  import opened Clock

  /** One sample of a trun. */
  datatype Entry = Entry(duration: nat, cto: int)

  /** One traf: track id, base decode time, and the trun's entries. */
  datatype Fragment = Fragment(id: nat, base: nat, entries: seq<Entry>)

  datatype InitTrack = InitTrack(id: nat, scale: nat, video: bool)

  /** The walk's running values; sane holds each track's last duration that was
      not stretched. */
  datatype Gauge = Gauge(end: int, hasVideo: bool, videoStart: int, videoEnd: int, sane: map<nat, nat>)

  const STRETCHED_SECONDS: nat := 5

  /** ticksToDuration. */
  function TicksToNanos(ticks: int, scale: int): int
    requires scale > 0
  {
    ToNanos(Max(ticks, 0), scale)
  }

  function Scale(tracks: seq<InitTrack>, id: nat): nat {
    if tracks == [] then 0
    else if Last(tracks).id == id then Last(tracks).scale
    else Scale(tracks[..|tracks| - 1], id)
  }

  /** The first video track's id; 0 stands for none, as in the source. */
  function VideoId(tracks: seq<InitTrack>): nat {
    if tracks == [] then 0
    else
      var v := VideoId(tracks[..|tracks| - 1]);
      if Last(tracks).video && v == 0 then Last(tracks).id else v
  }

  function Sane(g: Gauge, id: nat): nat {
    if id in g.sane then g.sane[id] else 0
  }

  /** The duration a sample counts for: a stretched one counts as the track's
      sample before it, or one frame at 25 fps. */
  function Counted(g: Gauge, id: nat, scale: nat, duration: nat): nat {
    if duration <= STRETCHED_SECONDS * scale then duration
    else if Sane(g, id) == 0 then scale / 25
    else Sane(g, id)
  }

  function MeasureEntry(g: Gauge, id: nat, scale: nat, video: bool, e: Entry, dts: int): Gauge
    requires scale > 0
  {
    var d := Counted(g, id, scale, e.duration);
    var g1 := if e.duration <= STRETCHED_SECONDS * scale then g.(sane := g.sane[id := e.duration]) else g;
    if !video then g1
    else
      var pts := TicksToNanos(dts + e.cto, scale);
      g1.(videoStart := if !g.hasVideo || pts < g.videoStart then pts else g.videoStart,
          hasVideo := true,
          videoEnd := Max(g.videoEnd, TicksToNanos(dts + e.cto + d, scale)))
  }

  /** The first k entries of a fragment, and the decode time after them. */
  function MeasureEntries(g: Gauge, f: Fragment, scale: nat, video: bool, k: nat): (Gauge, int)
    requires scale > 0 && k <= |f.entries|
  {
    if k == 0 then (g, f.base)
    else
      var (g1, dts) := MeasureEntries(g, f, scale, video, k - 1);
      (MeasureEntry(g1, f.id, scale, video, f.entries[k - 1], dts),
       dts + Counted(g1, f.id, scale, f.entries[k - 1].duration))
  }

  function MeasureFragment(g: Gauge, tracks: seq<InitTrack>, f: Fragment): Gauge {
    var scale := Scale(tracks, f.id);
    if scale == 0 || f.entries == [] then g
    else
      var (g1, dts) := MeasureEntries(g, f, scale, f.id == VideoId(tracks), |f.entries|);
      g1.(end := Max(g1.end, TicksToNanos(dts, scale)))
  }

  function MeasureFragments(tracks: seq<InitTrack>, frags: seq<Fragment>): Gauge {
    if frags == [] then Gauge(0, false, 0, 0, map[])
    else MeasureFragment(MeasureFragments(tracks, frags[..|frags| - 1]), tracks, Last(frags))
  }

  /** Duration and, when there is video, its start and end. */
  function Measured(tracks: seq<InitTrack>, frags: seq<Fragment>): (int, Option<(int, int)>) {
    var g := MeasureFragments(tracks, frags);
    if g.hasVideo then (Max(g.end, g.videoEnd), Some((g.videoStart, g.videoEnd))) else (g.end, None)
  }

  /** The init's tables: timescales by track id, and the video track's id. */
  method Tables(tracks: seq<InitTrack>) returns (scales: map<nat, nat>, videoId: nat)
    ensures videoId == VideoId(tracks)
    ensures forall id :: Scale(tracks, id) == if id in scales then scales[id] else 0
  {
    scales, videoId := map[], 0;
    for k := 0 to |tracks|
      invariant videoId == VideoId(tracks[..k])
      invariant forall id :: Scale(tracks[..k], id) == if id in scales then scales[id] else 0
    {
      assert tracks[..k + 1][..k] == tracks[..k];
      scales := scales[tracks[k].id := tracks[k].scale];
      if tracks[k].video && videoId == 0 { videoId := tracks[k].id; }
    }
    assert tracks[..|tracks|] == tracks;
  }

  /** One trun. */
  method WalkTrun(g: Gauge, f: Fragment, ts: nat, video: bool) returns (g1: Gauge)
    requires ts > 0
    ensures var (g2, dts) := MeasureEntries(g, f, ts, video, |f.entries|);
      g1 == g2.(end := Max(g2.end, TicksToNanos(dts, ts)))
  {
    hide TicksToNanos;
    var end, hasVideo, videoStart, videoEnd := g.end, g.hasVideo, g.videoStart, g.videoEnd;
    var lastSane: map<nat, nat> := g.sane;
    var limit := STRETCHED_SECONDS * ts;
    var dts: int := f.base;
    for j := 0 to |f.entries|
      invariant (Gauge(end, hasVideo, videoStart, videoEnd, lastSane), dts) == MeasureEntries(g, f, ts, video, j)
    {
      var d := f.entries[j].duration;
      if d > limit {
        d := if f.id in lastSane then lastSane[f.id] else 0;
        if d == 0 { d := ts / 25; }
      } else {
        lastSane := lastSane[f.id := d];
      }
      if video {
        var cto := f.entries[j].cto;
        var pts := TicksToNanos(dts + cto, ts);
        if !hasVideo || pts < videoStart { videoStart := pts; }
        hasVideo := true;
        videoEnd := Max(videoEnd, TicksToNanos(dts + cto + d, ts));
      }
      dts := dts + d;
    }
    g1 := Gauge(Max(end, TicksToNanos(dts, ts)), hasVideo, videoStart, videoEnd, lastSane);
  }

  /** The walk over the file. */
  method Measure(tracks: seq<InitTrack>, frags: seq<Fragment>) returns (duration: int, video: Option<(int, int)>)
    ensures (duration, video) == Measured(tracks, frags)
  {
    hide TicksToNanos;
    var scales, videoId := Tables(tracks);
    var g := Gauge(0, false, 0, 0, map[]);
    for k := 0 to |frags|
      invariant g == MeasureFragments(tracks, frags[..k])
    {
      assert frags[..k + 1][..k] == frags[..k];
      var f := frags[k];
      var ts := if f.id in scales then scales[f.id] else 0;
      assert ts == Scale(tracks, f.id);
      if ts != 0 && f.entries != [] {
        g := WalkTrun(g, f, ts, f.id == videoId);
      }
    }
    assert frags[..|frags|] == frags;
    duration, video := g.end, None;
    if g.hasVideo {
      duration, video := Max(g.end, g.videoEnd), Some((g.videoStart, g.videoEnd));
    }
  }

  // ----- what it measures on a file without stretched samples -----

  /** Decode time of entry k, or of the fragment's end, in ticks. */
  function Position(f: Fragment, k: nat): int
    requires k <= |f.entries|
  {
    if k == 0 then f.base else Position(f, k - 1) + f.entries[k - 1].duration
  }

  ghost predicate Unstretched(tracks: seq<InitTrack>, f: Fragment) {
    && 0 < Scale(tracks, f.id) && f.entries != []
    && forall k | 0 <= k < |f.entries| :: f.entries[k].duration <= STRETCHED_SECONDS * Scale(tracks, f.id)
  }

  ghost predicate AllUnstretched(tracks: seq<InitTrack>, frags: seq<Fragment>) {
    forall f | f in frags :: Unstretched(tracks, f)
  }

  /** When each of the first n entries is first shown, and until when. */
  function Shown(scale: nat, f: Fragment, n: nat): seq<int>
    requires 0 < scale && n <= |f.entries|
  {
    if n == 0 then []
    else Shown(scale, f, n - 1) + [TicksToNanos(Position(f, n - 1) + f.entries[n - 1].cto, scale)]
  }

  function Until(scale: nat, f: Fragment, n: nat): seq<int>
    requires 0 < scale && n <= |f.entries|
  {
    if n == 0 then []
    else Until(scale, f, n - 1)
         + [TicksToNanos(Position(f, n - 1) + f.entries[n - 1].cto + f.entries[n - 1].duration, scale)]
  }

  function EndOf(scale: nat, f: Fragment): int
    requires 0 < scale
  {
    TicksToNanos(Position(f, |f.entries|), scale)
  }

  function Ends(tracks: seq<InitTrack>, frags: seq<Fragment>): seq<int>
    requires AllUnstretched(tracks, frags)
  {
    if frags == [] then []
    else
      assert Unstretched(tracks, Last(frags));
      Ends(tracks, frags[..|frags| - 1]) + [EndOf(Scale(tracks, Last(frags).id), Last(frags))]
  }

  function VideoShown(tracks: seq<InitTrack>, frags: seq<Fragment>): seq<int>
    requires AllUnstretched(tracks, frags)
  {
    if frags == [] then []
    else
      var init, f := VideoShown(tracks, frags[..|frags| - 1]), Last(frags);
      assert Unstretched(tracks, f);
      if f.id == VideoId(tracks) then init + Shown(Scale(tracks, f.id), f, |f.entries|) else init
  }

  function VideoUntil(tracks: seq<InitTrack>, frags: seq<Fragment>): seq<int>
    requires AllUnstretched(tracks, frags)
  {
    if frags == [] then []
    else
      var init, f := VideoUntil(tracks, frags[..|frags| - 1]), Last(frags);
      assert Unstretched(tracks, f);
      if f.id == VideoId(tracks) then init + Until(Scale(tracks, f.id), f, |f.entries|) else init
  }

  /** x is the largest of 0 and the elements of s. */
  ghost predicate IsMax(x: int, s: seq<int>) {
    0 <= x && (x == 0 || x in s) && forall y | y in s :: y <= x
  }

  ghost predicate IsMin(x: int, s: seq<int>) {
    x in s && forall y | y in s :: x <= y
  }

  ghost predicate ExactVideo(g: Gauge, shown: seq<int>, until: seq<int>) {
    && (g.hasVideo <==> shown != [])
    && (g.hasVideo ==> IsMin(g.videoStart, shown))
    && IsMax(g.videoEnd, until)
  }

  lemma {:induction false} EntriesMeasured(f: Fragment, scale: nat, video: bool, g: Gauge, n: nat,
                                           shown: seq<int>, until: seq<int>)
    requires 0 < scale && n <= |f.entries| && ExactVideo(g, shown, until)
    requires forall k | 0 <= k < n :: f.entries[k].duration <= STRETCHED_SECONDS * scale
    ensures var (g1, dts) := MeasureEntries(g, f, scale, video, n);
      && dts == Position(f, n) && g1.end == g.end
      && (if video then ExactVideo(g1, shown + Shown(scale, f, n), until + Until(scale, f, n))
          else ExactVideo(g1, shown, until))
  {
    hide TicksToNanos;
    if n == 0 {
      assert shown + [] == shown && until + [] == until;
    } else {
      EntriesMeasured(f, scale, video, g, n - 1, shown, until);
      var g1 := MeasureEntries(g, f, scale, video, n - 1).0;
      var s, u := shown + Shown(scale, f, n - 1), until + Until(scale, f, n - 1);
      var x := TicksToNanos(Position(f, n - 1) + f.entries[n - 1].cto, scale);
      var y := TicksToNanos(Position(f, n - 1) + f.entries[n - 1].cto + f.entries[n - 1].duration, scale);
      assert shown + Shown(scale, f, n) == s + [x] && until + Until(scale, f, n) == u + [y];
      if video {
        ExtendVideo(g1, s, u, x, y);
      }
    }
  }

  lemma ExtendVideo(g: Gauge, s: seq<int>, u: seq<int>, x: int, y: int)
    requires ExactVideo(g, s, u)
    ensures ExactVideo(g.(videoStart := if !g.hasVideo || x < g.videoStart then x else g.videoStart,
                          hasVideo := true, videoEnd := Max(g.videoEnd, y)), s + [x], u + [y])
  {
  }

  /** On a file no sample of which was stretched, the walk finds the exact end of
      the longest track and the exact extent of the video. */
  lemma {:induction false} MeasureIsExact(tracks: seq<InitTrack>, frags: seq<Fragment>)
    requires AllUnstretched(tracks, frags)
    ensures var g := MeasureFragments(tracks, frags);
      && IsMax(g.end, Ends(tracks, frags))
      && ExactVideo(g, VideoShown(tracks, frags), VideoUntil(tracks, frags))
  {
    hide TicksToNanos;
    hide Position;
    if frags != [] {
      var init, f := frags[..|frags| - 1], Last(frags);
      MeasureIsExact(tracks, init);
      assert Unstretched(tracks, f);
      EntriesMeasured(f, Scale(tracks, f.id), f.id == VideoId(tracks), MeasureFragments(tracks, init), |f.entries|,
                      VideoShown(tracks, init), VideoUntil(tracks, init));
    }
  }
}
