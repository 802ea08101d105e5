/** What recovery.measure makes of stretched samples. */
module RecoveryLaws {
  import opened Wrappers
  import opened Clock
  import opened Recovery

  function Durations(entries: seq<Entry>): seq<nat> {
    seq(|entries|, k requires 0 <= k < |entries| => entries[k].duration)
  }

  /** The durations of a track's samples, in file order. */
  function TrackDurations(frags: seq<Fragment>, id: nat): seq<nat> {
    if frags == [] then []
    else
      var init, f := TrackDurations(frags[..|frags| - 1], id), Last(frags);
      if f.id == id then init + Durations(f.entries) else init
  }

  /** The latest duration of five seconds at most; 0 when there is none. */
  function LatestPlain(durations: seq<nat>, scale: nat): nat {
    if durations == [] then 0
    else if Last(durations) <= 5 * scale then Last(durations)
    else LatestPlain(durations[..|durations| - 1], scale)
  }

  /** The duration a sample should have had: its own unless it is longer than five
      seconds, then that of the latest earlier sample which is not, or a 25th of a
      second. */
  function Plain(earlier: seq<nat>, scale: nat, duration: nat): nat {
    if duration <= 5 * scale then duration
    else if LatestPlain(earlier, scale) != 0 then LatestPlain(earlier, scale)
    else scale / 25
  }

  function PlainEntry(earlier: seq<nat>, scale: nat, entries: seq<Entry>, k: nat): Entry
    requires k < |entries|
  {
    entries[k].(duration := Plain(earlier + Durations(entries[..k]), scale, entries[k].duration))
  }

  function PlainFragment(earlier: seq<nat>, scale: nat, f: Fragment): Fragment {
    f.(entries := seq(|f.entries|, k requires 0 <= k < |f.entries| => PlainEntry(earlier, scale, f.entries, k)))
  }

  /** The file with every stretched sample cut back. */
  function PlainFile(tracks: seq<InitTrack>, frags: seq<Fragment>): seq<Fragment> {
    if frags == [] then []
    else
      var init, f := frags[..|frags| - 1], Last(frags);
      PlainFile(tracks, init) + [PlainFragment(TrackDurations(init, f.id), Scale(tracks, f.id), f)]
  }

  predicate SameExtent(g: Gauge, h: Gauge) {
    g.end == h.end && g.hasVideo == h.hasVideo && g.videoStart == h.videoStart && g.videoEnd == h.videoEnd
  }

  lemma {:induction false} LatestBound(durations: seq<nat>, scale: nat)
    ensures LatestPlain(durations, scale) <= 5 * scale
  {
    if durations != [] { LatestBound(durations[..|durations| - 1], scale); }
  }

  lemma LatestAppend(durations: seq<nat>, scale: nat, d: nat)
    ensures LatestPlain(durations + [d], scale) == if d <= 5 * scale then d else LatestPlain(durations, scale)
  {
    assert (durations + [d])[..|durations|] == durations;
  }

  lemma DurationsGrow(entries: seq<Entry>, k: nat)
    requires k < |entries|
    ensures Durations(entries[..k + 1]) == Durations(entries[..k]) + [entries[k].duration]
  {
  }

  /** One entry and the same cut back: the same extent, the same time later. */
  lemma EntryPlain(g: Gauge, h: Gauge, id: nat, scale: nat, video: bool, earlier: seq<nat>, e: Entry, dts: int)
    requires 0 < scale && SameExtent(g, h) && Sane(g, id) == LatestPlain(earlier, scale)
    ensures var e1 := e.(duration := Plain(earlier, scale, e.duration));
      var g1 := MeasureEntry(g, id, scale, video, e, dts);
      && SameExtent(g1, MeasureEntry(h, id, scale, video, e1, dts))
      && Counted(g, id, scale, e.duration) == Counted(h, id, scale, e1.duration)
      && Sane(g1, id) == LatestPlain(earlier + [e.duration], scale)
      && forall other | other != id :: Sane(g1, other) == Sane(g, other)
  {
    LatestAppend(earlier, scale, e.duration);
    LatestBound(earlier, scale);
    hide TicksToNanos;
    hide LatestPlain;
  }

  /** Entry by entry. */
  lemma {:induction false} EntriesPlain(g: Gauge, h: Gauge, f: Fragment, scale: nat, video: bool, earlier: seq<nat>,
                                        k: nat)
    requires 0 < scale && k <= |f.entries| && SameExtent(g, h) && Sane(g, f.id) == LatestPlain(earlier, scale)
    ensures var (g1, dts) := MeasureEntries(g, f, scale, video, k);
      var (h1, dts1) := MeasureEntries(h, PlainFragment(earlier, scale, f), scale, video, k);
      && SameExtent(g1, h1) && dts == dts1
      && Sane(g1, f.id) == LatestPlain(earlier + Durations(f.entries[..k]), scale)
      && forall id | id != f.id :: Sane(g1, id) == Sane(g, id)
  {
    hide MeasureEntry;
    hide Counted;
    hide Sane;
    hide SameExtent;
    hide Plain;
    hide LatestPlain;
    if k == 0 {
      assert earlier + Durations(f.entries[..0]) == earlier;
    } else {
      EntriesPlain(g, h, f, scale, video, earlier, k - 1);
      var e, before := f.entries[k - 1], earlier + Durations(f.entries[..k - 1]);
      DurationsGrow(f.entries, k - 1);
      assert earlier + Durations(f.entries[..k]) == before + [e.duration];
      var (g1, dts) := MeasureEntries(g, f, scale, video, k - 1);
      var h1 := MeasureEntries(h, PlainFragment(earlier, scale, f), scale, video, k - 1).0;
      EntryPlain(g1, h1, f.id, scale, video, before, e, dts);
    }
  }

  /** What the sane table holds after the first fragments. */
  ghost predicate SaneOk(g: Gauge, tracks: seq<InitTrack>, frags: seq<Fragment>) {
    forall id | 0 < Scale(tracks, id) :: Sane(g, id) == LatestPlain(TrackDurations(frags, id), Scale(tracks, id))
  }

  /** The walk measures the file with every stretched sample cut back. */
  lemma {:induction false} StretchedCutBack(tracks: seq<InitTrack>, frags: seq<Fragment>)
    ensures var g, h := MeasureFragments(tracks, frags), MeasureFragments(tracks, PlainFile(tracks, frags));
      SameExtent(g, h) && SaneOk(g, tracks, frags)
  {
    hide TicksToNanos;
    hide MeasureEntries;
    hide LatestPlain;
    if frags == [] {
      NothingSane(tracks);
    } else {
      var init, f := frags[..|frags| - 1], Last(frags);
      StretchedCutBack(tracks, init);
      var scale, earlier := Scale(tracks, f.id), TrackDurations(init, f.id);
      var plain := PlainFile(tracks, init);
      var f1 := PlainFragment(earlier, scale, f);
      assert PlainFile(tracks, frags) == plain + [f1] && (plain + [f1])[..|plain|] == plain;
      FragmentPlain(MeasureFragments(tracks, init), MeasureFragments(tracks, plain), tracks, init, f);
    }
  }

  lemma NothingSane(tracks: seq<InitTrack>)
    ensures SaneOk(Gauge(0, false, 0, 0, map[]), tracks, [])
  {
  }

  lemma FragmentPlain(g: Gauge, h: Gauge, tracks: seq<InitTrack>, init: seq<Fragment>, f: Fragment)
    requires SameExtent(g, h) && SaneOk(g, tracks, init)
    ensures var f1 := PlainFragment(TrackDurations(init, f.id), Scale(tracks, f.id), f);
      && SameExtent(MeasureFragment(g, tracks, f), MeasureFragment(h, tracks, f1))
      && SaneOk(MeasureFragment(g, tracks, f), tracks, init + [f])
  {
    var scale, earlier := Scale(tracks, f.id), TrackDurations(init, f.id);
    assert (init + [f])[..|init|] == init;
    if scale == 0 || f.entries == [] {
      assert f.entries == [] ==> earlier + Durations(f.entries) == earlier;
    } else {
      EntriesPlain(g, h, f, scale, f.id == VideoId(tracks), earlier, |f.entries|);
      assert f.entries[..|f.entries|] == f.entries;
    }
    hide TicksToNanos;
    hide MeasureEntries;
    hide LatestPlain;
    hide VideoId;
    hide Scale;
  }

  /** That file has none, so the walk over it is exact. */
  lemma {:induction false} PlainIsUnstretched(tracks: seq<InitTrack>, frags: seq<Fragment>)
    requires forall f | f in frags :: 0 < Scale(tracks, f.id) && f.entries != []
    ensures AllUnstretched(tracks, PlainFile(tracks, frags))
  {
    if frags != [] {
      var init, f := frags[..|frags| - 1], Last(frags);
      PlainIsUnstretched(tracks, init);
      var scale, earlier := Scale(tracks, f.id), TrackDurations(init, f.id);
      forall k | 0 <= k < |f.entries|
        ensures PlainFragment(earlier, scale, f).entries[k].duration <= STRETCHED_SECONDS * scale
      {
        LatestBound(earlier + Durations(f.entries[..k]), scale);
      }
      assert f in frags;
    }
  }

  // ----- the init's tables -----

  /** The first video track's id. A track of id 0 counts as none. */
  function FirstVideo(tracks: seq<InitTrack>): nat {
    if tracks == [] then 0
    else if tracks[0].video && tracks[0].id != 0 then tracks[0].id
    else FirstVideo(tracks[1..])
  }

  lemma {:induction false} FirstVideoMore(tracks: seq<InitTrack>, t: InitTrack)
    ensures FirstVideo(tracks + [t])
         == if FirstVideo(tracks) == 0 && t.video then t.id else FirstVideo(tracks)
  {
    if tracks == [] {
      assert [] + [t] == [t] && [t][1..] == [];
    } else {
      FirstVideoMore(tracks[1..], t);
      assert (tracks + [t])[1..] == tracks[1..] + [t];
    }
  }

  /** The video is the first video track, and a track's clock that of its last
      description. */
  lemma {:induction false} TablesAre(tracks: seq<InitTrack>, id: nat, k: nat)
    requires k < |tracks| && tracks[k].id == id && forall j | k < j < |tracks| :: tracks[j].id != id
    ensures VideoId(tracks) == FirstVideo(tracks) && Scale(tracks, id) == tracks[k].scale
  {
    VideoIsFirst(tracks);
    if k < |tracks| - 1 { TablesAre(tracks[..|tracks| - 1], id, k); }
  }

  lemma {:induction false} VideoIsFirst(tracks: seq<InitTrack>)
    ensures VideoId(tracks) == FirstVideo(tracks)
  {
    if tracks != [] {
      VideoIsFirst(tracks[..|tracks| - 1]);
      FirstVideoMore(tracks[..|tracks| - 1], Last(tracks));
      assert tracks == tracks[..|tracks| - 1] + [Last(tracks)];
    }
  }
}
