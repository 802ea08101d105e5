/** The segment repair tool, scripts/repair-segments.py: it reads the boxes of a
    fragmented MP4 file (ISO/IEC 14496-12) and patches stretched sample durations
    and the movie duration in place. Reads past the end of the file, which raise in
    the original, give 0 here; Segment rules them out. */
module RepairSpec {
  import opened Wrappers

  type Byte = n: int | 0 <= n < 256
  type Bytes = seq<Byte>

  const UINT32: int := 0x1_0000_0000
  const GAP_SECONDS: int := 5
  const FALLBACK_FPS: int := 25
  const MIN_FRAME: int := 120          // a frame interval is at least 1/120 s
  const MOOV: int := 0x6d6f6f76
  const TRAK: int := 0x7472616b
  const MDIA: int := 0x6d646961
  const MINF: int := 0x6d696e66
  const STBL: int := 0x7374626c
  const MOOF: int := 0x6d6f6f66
  const TRAF: int := 0x74726166
  const MVEX: int := 0x6d766578
  const EDTS: int := 0x65647473
  const TKHD: int := 0x746b6864
  const MDHD: int := 0x6d646864
  const HDLR: int := 0x68646c72
  const TFHD: int := 0x74666864
  const TFDT: int := 0x74666474
  const TRUN: int := 0x7472756e
  const MVHD: int := 0x6d766864
  const VIDE: int := 0x76696465

  function At(d: Bytes, i: int): (n: int)
    ensures 0 <= n < 256
  {
    if 0 <= i < |d| then d[i] else 0
  }

  function U32(d: Bytes, i: int): (n: int)
    ensures 0 <= n < UINT32
  {
    At(d, i) * 0x100_0000 + At(d, i + 1) * 0x1_0000 + At(d, i + 2) * 0x100 + At(d, i + 3)
  }

  function U64(d: Bytes, i: int): (n: int)
    ensures 0 <= n
  {
    U32(d, i) * UINT32 + U32(d, i + 4)
  }

  // ----- boxes -----

  /** A box: where it starts, its size with the header, and the type it is in. */
  datatype Box = Box(p: nat, size: nat, typ: int, hdr: nat, parent: int)

  predicate Container(typ: int) {
    typ == MOOV || typ == TRAK || typ == MDIA || typ == MINF || typ == STBL || typ == MOOF || typ == TRAF
    || typ == MVEX || typ == EDTS
  }

  /** The box whose header is at p, None when it does not fit before end. */
  function Head(d: Bytes, p: nat, end: nat, parent: int): (b: Option<Box>)
    ensures b.Some? ==> b.value.p == p && 8 <= b.value.hdr <= b.value.size && p + b.value.size <= end
  {
    if p + 8 > end then None
    else
      var size32 := U32(d, p);
      var hdr := if size32 == 1 then 16 else 8;
      var size := if size32 == 1 then U64(d, p + 8) else if size32 == 0 then end - p else size32;
      if size < hdr || p + size > end then None else Some(Box(p, size, U32(d, p + 4), hdr, parent))
  }

  /** walk: the boxes from start to end, each followed by those inside it. */
  function Walk(d: Bytes, start: nat, end: nat, parent: int): seq<Box>
    decreases end - start
  {
    var b := Head(d, start, end, parent);
    if b.None? then []
    else
      var next := start + b.value.size;
      [b.value]
      + (if Container(b.value.typ) then Walk(d, start + b.value.hdr, next, b.value.typ) else [])
      + Walk(d, next, end, parent)
  }

  function Boxes(d: Bytes): seq<Box> {
    Walk(d, 0, |d|, 0)
  }

  // ----- tracks -----

  datatype Track = Track(timescale: int, handler: int)

  /** What is known of the trak being read. */
  datatype Current = Current(id: Option<int>, timescale: Option<int>, handler: Option<int>)

  /** order is that of the dictionary's keys. */
  datatype Tracks = Tracks(order: seq<int>, info: map<int, Track>, current: Option<Current>)

  function Version(d: Bytes, b: Box): int {
    At(d, b.p + b.hdr)
  }

  /** The field behind the version-sized times of tkhd and mdhd. */
  function AfterTimes(d: Bytes, b: Box): int {
    U32(d, b.p + b.hdr + if Version(d, b) == 1 then 20 else 12)
  }

  function ReadBox(d: Bytes, b: Box, current: Option<Current>): Option<Current> {
    if b.typ == TRAK then Some(Current(None, None, None))
    else if current.None? then None
    else if b.typ == TKHD then Some(current.value.(id := Some(AfterTimes(d, b))))
    else if b.typ == MDHD then Some(current.value.(timescale := Some(AfterTimes(d, b))))
    else if b.typ == HDLR then Some(current.value.(handler := Some(U32(d, b.p + b.hdr + 8))))
    else current
  }

  function Complete(t: Tracks, current: Option<Current>): Tracks {
    if current.Some? && current.value.id.Some? && current.value.timescale.Some? && current.value.handler.Some? then
      var id := current.value.id.value;
      Tracks(if id in t.info then t.order else t.order + [id],
             t.info[id := Track(current.value.timescale.value, current.value.handler.value)], None)
    else t.(current := current)
  }

  /** parse_tracks. */
  function ReadTracks(d: Bytes, boxes: seq<Box>): Tracks {
    if boxes == [] then Tracks([], map[], None)
    else
      var t := ReadTracks(d, boxes[..|boxes| - 1]);
      Complete(t, ReadBox(d, Last(boxes), t.current))
  }

  // ----- fragments -----

  datatype Entry = Entry(duration: int, off: Option<nat>, cto: int)

  datatype Frag = Frag(track: Option<int>, fallback: int, base: int, entries: seq<Entry>)

  predicate Bit(flags: int, mask: int)
    requires mask > 0
  {
    flags / mask % 2 == 1
  }

  function Flags(d: Bytes, b: Box): int {
    At(d, b.p + b.hdr + 1) * 0x1_0000 + At(d, b.p + b.hdr + 2) * 0x100 + At(d, b.p + b.hdr + 3)
  }

  function Word(flags: int, mask: int): nat
    requires mask > 0
  {
    if Bit(flags, mask) then 4 else 0
  }

  function EntrySize(flags: int): (n: nat)
    ensures Bit(flags, 0x100) ==> n >= 4
  {
    Word(flags, 0x100) + Word(flags, 0x200) + Word(flags, 0x400) + Word(flags, 0x800)
  }

  function FirstEntry(flags: int, b: Box): nat {
    b.p + b.hdr + 8 + Word(flags, 1) + Word(flags, 4)
  }

  function Count(d: Bytes, b: Box): nat {
    U32(d, b.p + b.hdr + 4)
  }

  /** A composition offset: signed in version 1. */
  function Cto(d: Bytes, b: Box, at: int): int {
    var n := U32(d, at);
    if Version(d, b) == 1 && n >= 0x8000_0000 then n - UINT32 else n
  }

  function EntryAt(d: Bytes, b: Box, fallback: int, i: nat): Entry {
    var flags := Flags(d, b);
    var at := FirstEntry(flags, b) + i * EntrySize(flags);
    Entry(if Bit(flags, 0x100) then U32(d, at) else fallback,
          if Bit(flags, 0x100) then Some(at) else None,
          if Bit(flags, 0x800) then Cto(d, b, at + EntrySize(flags) - 4) else 0)
  }

  /** trun_entries. */
  function EntriesOf(d: Bytes, b: Box, fallback: int): seq<Entry> {
    if EntrySize(Flags(d, b)) == 0 then []
    else seq(Count(d, b), i requires 0 <= i < Count(d, b) => EntryAt(d, b, fallback, i))
  }

  function Fallback(d: Bytes, b: Box): int {
    var flags := Flags(d, b);
    if Bit(flags, 8) then U32(d, b.p + b.hdr + 8 + (if Bit(flags, 1) then 8 else 0) + Word(flags, 2)) else 0
  }

  function ReadPart(d: Bytes, b: Box, f: Frag): Frag {
    if b.typ == TFHD then f.(track := Some(U32(d, b.p + b.hdr + 4)), fallback := Fallback(d, b))
    else if b.typ == TFDT then
      f.(base := if Version(d, b) == 1 then U64(d, b.p + b.hdr + 4) else U32(d, b.p + b.hdr + 4))
    else if b.typ == TRUN then f.(entries := f.entries + EntriesOf(d, b, f.fallback))
    else f
  }

  function ReadTraf(d: Bytes, boxes: seq<Box>): Frag {
    if boxes == [] then Frag(None, 0, 0, [])
    else ReadPart(d, Last(boxes), ReadTraf(d, boxes[..|boxes| - 1]))
  }

  function Inside(d: Bytes, t: Box): seq<Box> {
    Walk(d, t.p + t.hdr, t.p + t.size, t.typ)
  }

  /** scan, in file order. */
  function ReadFrags(d: Bytes, boxes: seq<Box>): seq<Frag> {
    if boxes == [] then []
    else
      var rest, b := ReadFrags(d, boxes[..|boxes| - 1]), Last(boxes);
      if b.typ == TRAF && ReadTraf(d, Inside(d, b)).track.Some? then rest + [ReadTraf(d, Inside(d, b))] else rest
  }

  function OfTrack(frags: seq<Frag>, id: int): seq<Frag> {
    if frags == [] then []
    else OfTrack(frags[..|frags| - 1], id) + if Last(frags).track == Some(id) then [Last(frags)] else []
  }

  function Flat(frags: seq<Frag>): seq<Entry> {
    if frags == [] then [] else Flat(frags[..|frags| - 1]) + Last(frags).entries
  }

  // ----- the repair -----

  predicate Stretched(e: Entry, timescale: int) {
    e.duration > GAP_SECONDS * timescale && e.off.Some?
  }

  /** A duration long enough to be a frame interval. */
  predicate Sane(e: Entry, timescale: int) {
    e.duration * MIN_FRAME >= timescale
  }

  /** The last sane duration of a track's samples. */
  function Previous(entries: seq<Entry>, timescale: int): int {
    if entries == [] then 0
    else if !Stretched(Last(entries), timescale) && Sane(Last(entries), timescale) then Last(entries).duration
    else Previous(entries[..|entries| - 1], timescale)
  }

  /** What a sample after these gets when it is stretched. */
  function Interval(before: seq<Entry>, timescale: int): int {
    var previous := Previous(before, timescale);
    if previous > 0 then previous else Max(timescale / FALLBACK_FPS, 1)
  }

  /** A track's samples with the stretched ones cut back. */
  function Fixed(entries: seq<Entry>, timescale: int): seq<Entry> {
    if entries == [] then []
    else
      var init, e := entries[..|entries| - 1], Last(entries);
      Fixed(init, timescale) + [if Stretched(e, timescale) then e.(duration := Interval(init, timescale)) else e]
  }

  /** The fields a track's repair rewrites. */
  function Fixes(entries: seq<Entry>, timescale: int): map<nat, int> {
    if entries == [] then map[]
    else
      var init, e := entries[..|entries| - 1], Last(entries);
      var m := Fixes(init, timescale);
      if Stretched(e, timescale) then m[e.off.value := Interval(init, timescale)] else m
  }

  function AllFixes(frags: seq<Frag>, order: seq<int>, info: map<int, Track>): map<nat, int> {
    if order == [] then map[]
    else
      var m, id := AllFixes(frags, order[..|order| - 1], info), Last(order);
      if id in info then m + Fixes(Flat(OfTrack(frags, id)), info[id].timescale) else m
  }

  function Part32(v: int, k: nat): Byte
    requires k < 4
  {
    if k == 0 then v / 0x100_0000 % 256
    else if k == 1 then v / 0x1_0000 % 256
    else if k == 2 then v / 0x100 % 256
    else v % 256
  }

  function Patch(d: Bytes, m: map<nat, int>, i: nat): Byte
    requires i < |d|
  {
    if i in m then Part32(m[i], 0)
    else if i >= 1 && i - 1 in m then Part32(m[i - 1], 1)
    else if i >= 2 && i - 2 in m then Part32(m[i - 2], 2)
    else if i >= 3 && i - 3 in m then Part32(m[i - 3], 3)
    else d[i]
  }

  /** The file with every 32-bit field of m rewritten. */
  function Overlay(d: Bytes, m: map<nat, int>): (d1: Bytes)
    ensures |d1| == |d|
  {
    seq(|d|, i requires 0 <= i < |d| => Patch(d, m, i))
  }

  // ----- the movie duration -----

  /** Where a fragment's samples leave the clock and the track's end. */
  function FragEnd(base: int, entries: seq<Entry>, video: bool, end: int): (int, int) {
    if entries == [] then (base, end)
    else
      var (dts, end1) := FragEnd(base, entries[..|entries| - 1], video, end);
      var e := Last(entries);
      (dts + e.duration, Max(Max(end1, dts + e.duration), if video then dts + e.cto + e.duration else 0))
  }

  function TrackEnd(frags: seq<Frag>, video: bool): (end: int)
  {
    if frags == [] then 0
    else FragEnd(Last(frags).base, Last(frags).entries, video, TrackEnd(frags[..|frags| - 1], video)).1
  }

  /** The end of the longest track, in nanoseconds. */
  function EndNs(frags: seq<Frag>, order: seq<int>, info: map<int, Track>): (end: int) {
    if order == [] then 0
    else
      var end, id := EndNs(frags, order[..|order| - 1], info), Last(order);
      if id in info && OfTrack(frags, id) != [] && info[id].timescale > 0 then
        Max(end, TrackEnd(OfTrack(frags, id), info[id].handler == VIDE) * 1_000_000_000 / info[id].timescale)
      else end
  }

  /** mvhd_duration_field: the first mvhd of a moov. */
  function MvhdField(d: Bytes, boxes: seq<Box>): Option<(nat, nat)> {
    if boxes == [] then None
    else if boxes[0].typ == MVHD && boxes[0].parent == MOOV then
      Some(if Version(d, boxes[0]) == 1 then (boxes[0].p + boxes[0].hdr + 24, 8)
        else (boxes[0].p + boxes[0].hdr + 16, 4))
    else MvhdField(d, boxes[1..])
  }

  function MvhdFixes(field: Option<(nat, nat)>, ms: int): map<nat, int> {
    match field
    case None => map[]
    case Some((at, width)) => if width == 8 then map[at := ms / UINT32, at + 4 := ms % UINT32] else map[at := ms]
  }

  /** Raises is a movie duration the field cannot hold; the sample durations are
      already rewritten then. */
  datatype Outcome = Untouched | Repaired(endNs: int) | Raises

  /** The samples with their durations as the file has them after the fixes. */
  function Reread(entries: seq<Entry>, m: map<nat, int>): (r: seq<Entry>)
    ensures |r| == |entries|
  {
    if entries == [] then []
    else
      var e := Last(entries);
      Reread(entries[..|entries| - 1], m)
      + [if e.off.Some? && e.off.value in m then e.(duration := m[e.off.value]) else e]
  }

  function RereadAll(frags: seq<Frag>, m: map<nat, int>): seq<Frag> {
    if frags == [] then []
    else
      RereadAll(frags[..|frags| - 1], m) + [Last(frags).(entries := Reread(Last(frags).entries, m))]
  }

  /** repair_file without dry run. */
  function Repair(d: Bytes): (Bytes, Outcome) {
    var t, frags := ReadTracks(d, Boxes(d)), ReadFrags(d, Boxes(d));
    var m := AllFixes(frags, t.order, t.info);
    if m == map[] then (d, Untouched)
    else
      var d1 := Overlay(d, m);
      var endNs := EndNs(RereadAll(frags, m), t.order, t.info);
      var field, ms := MvhdField(d1, Boxes(d1)), endNs / 1_000_000;
      if field.Some? && ms >= (if field.value.1 == 4 then UINT32 else UINT32 * UINT32) then (d1, Raises)
      else (Overlay(d1, MvhdFixes(field, ms)), Repaired(endNs))
  }
}

module RepairProofs {
  import opened Wrappers
  import opened RepairSpec

  // ----- the box tree -----

  predicate Before(a: Box, b: Box) {
    a.p + a.size <= b.p
  }

  predicate Holds(a: Box, b: Box) {
    Container(a.typ) && a.p + a.hdr <= b.p && b.p + b.size <= a.p + a.size
  }

  predicate Fitting(b: Box, start: nat, end: nat) {
    start <= b.p && 8 <= b.hdr <= b.size && b.p + b.size <= end
  }

  /** Boxes come in file order: a later one is inside an earlier container or after it. */
  ghost predicate Nested(boxes: seq<Box>) {
    forall i, j | 0 <= i < j < |boxes| :: Before(boxes[i], boxes[j]) || Holds(boxes[i], boxes[j])
  }

  function InsideOf(d: Bytes, b: Box): seq<Box> {
    if Container(b.typ) then Inside(d, b) else []
  }

  /** walk, one box at a time. */
  lemma WalkIs(d: Bytes, start: nat, end: nat, parent: int)
    ensures var h := Head(d, start, end, parent);
      Walk(d, start, end, parent) ==
        if h.None? then [] else [h.value] + InsideOf(d, h.value) + Walk(d, start + h.value.size, end, parent)
  {
    hide Head;
  }

  lemma {:induction false} WalkShape(d: Bytes, start: nat, end: nat, parent: int)
    ensures forall b | b in Walk(d, start, end, parent) :: Fitting(b, start, end)
    ensures Nested(Walk(d, start, end, parent))
    decreases end - start
  {
    hide Walk;
    hide Head;
    WalkIs(d, start, end, parent);
    var h := Head(d, start, end, parent);
    if h.Some? {
      var b := h.value;
      var next := start + b.size;
      if Container(b.typ) { WalkShape(d, start + b.hdr, next, b.typ); }
      WalkShape(d, next, end, parent);
      JoinShape(b, InsideOf(d, b), Walk(d, next, end, parent), start, next, end);
    }
  }

  lemma JoinShape(b: Box, inner: seq<Box>, rest: seq<Box>, start: nat, next: nat, end: nat)
    requires b.p == start && 8 <= b.hdr <= b.size && start + b.size == next <= end
    requires inner != [] ==> Container(b.typ)
    requires Nested(inner) && forall c | c in inner :: Fitting(c, start + b.hdr, next)
    requires Nested(rest) && forall c | c in rest :: Fitting(c, next, end)
    ensures var all := [b] + inner + rest;
      Nested(all) && forall c | c in all :: Fitting(c, start, end)
  {
    var all := [b] + inner + rest;
    forall i, j | 0 <= i < j < |all| ensures Before(all[i], all[j]) || Holds(all[i], all[j]) {
      if j <= |inner| {
        assert all[j] == inner[j - 1] && inner[j - 1] in inner;
        if i > 0 { assert all[i] == inner[i - 1]; }
      } else {
        assert all[j] == rest[j - 1 - |inner|] && rest[j - 1 - |inner|] in rest;
        if 0 < i <= |inner| { assert all[i] == inner[i - 1] && inner[i - 1] in inner; }
        else if i > |inner| { assert all[i] == rest[i - 1 - |inner|]; }
      }
    }
  }

  /** Two different boxes without boxes inside do not overlap. */
  lemma LeavesApart(boxes: seq<Box>, b: Box, c: Box)
    requires Nested(boxes) && b in boxes && c in boxes && b != c && !Container(b.typ) && !Container(c.typ)
    ensures Before(b, c) || Before(c, b)
  {
    var i :| 0 <= i < |boxes| && boxes[i] == b;
    var j :| 0 <= j < |boxes| && boxes[j] == c;
    if i < j {
      assert Before(boxes[i], boxes[j]);
    } else {
      assert Before(boxes[j], boxes[i]);
    }
  }

  /** What walk finds inside a box is part of what it finds around it. */
  lemma {:induction false} InsideIn(d: Bytes, start: nat, end: nat, parent: int, t: Box)
    requires t in Walk(d, start, end, parent) && Container(t.typ)
    ensures forall b | b in Inside(d, t) :: b in Walk(d, start, end, parent)
    decreases end - start
  {
    hide Walk;
    hide Head;
    WalkIs(d, start, end, parent);
    var b := Head(d, start, end, parent).value;
    if t != b {
      if t in InsideOf(d, b) {
        InsideIn(d, start + b.hdr, start + b.size, b.typ, t);
      } else {
        InsideIn(d, start + b.size, end, parent, t);
      }
    }
  }

  // ----- changes that stay inside the boxes -----

  predicate InBody(b: Box, x: int) {
    !Container(b.typ) && b.p + b.hdr <= x < b.p + b.size
  }

  /** Only contents of boxes that hold no boxes differ. */
  ghost predicate Confined(d: Bytes, d1: Bytes, start: nat, end: nat, boxes: seq<Box>) {
    && |d1| == |d|
    && forall x | start <= x < end && x < |d| && d[x] != d1[x] :: exists b | b in boxes :: InBody(b, x)
  }

  lemma HeadSame(d: Bytes, d1: Bytes, start: nat, end: nat, parent: int)
    requires |d1| == |d| && end <= |d|
    requires var h := Head(d, start, end, parent);
      forall x | start <= x < (if h.Some? then start + h.value.hdr else end) :: d[x] == d1[x]
    ensures Head(d1, start, end, parent) == Head(d, start, end, parent)
  {
    if start + 8 <= end {
      assert U32(d, start) == U32(d1, start) && U32(d, start + 4) == U32(d1, start + 4);
      if start + 16 <= end && U32(d, start) == 1 {
        hide U32;
        SameU32(d, d1, start + 8);
        SameU32(d, d1, start + 12);
      }
    }
  }

  lemma SameU32(d: Bytes, d1: Bytes, i: int)
    requires |d1| == |d|
    requires forall x | i <= x < i + 4 && 0 <= x < |d| :: d[x] == d1[x]
    ensures U32(d1, i) == U32(d, i)
  {
  }

  lemma {:induction false} WalkSame(d: Bytes, d1: Bytes, start: nat, end: nat, parent: int)
    requires end <= |d| && Confined(d, d1, start, end, Walk(d, start, end, parent))
    ensures Walk(d1, start, end, parent) == Walk(d, start, end, parent)
    ensures forall t | t in Walk(d, start, end, parent) && Container(t.typ) :: Inside(d1, t) == Inside(d, t)
    decreases end - start
  {
    hide Walk;
    hide Head;
    WalkIs(d, start, end, parent);
    WalkIs(d1, start, end, parent);
    var h := Head(d, start, end, parent);
    if h.None? {
      HeadSame(d, d1, start, end, parent);
    } else {
      var b := h.value;
      var next := start + b.size;
      if Container(b.typ) { WalkShape(d, start + b.hdr, next, b.typ); }
      WalkShape(d, next, end, parent);
      SplitConfined(d, d1, b, InsideOf(d, b), Walk(d, next, end, parent), start, next, end);
      HeadSame(d, d1, start, end, parent);
      if Container(b.typ) { WalkSame(d, d1, start + b.hdr, next, b.typ); }
      WalkSame(d, d1, next, end, parent);
    }
  }

  lemma SplitConfined(d: Bytes, d1: Bytes, b: Box, inner: seq<Box>, rest: seq<Box>, start: nat, next: nat, end: nat)
    requires b.p == start && 8 <= b.hdr <= b.size && start + b.size == next <= end <= |d|
    requires forall c | c in inner :: Fitting(c, start + b.hdr, next)
    requires forall c | c in rest :: Fitting(c, next, end)
    requires Confined(d, d1, start, end, [b] + inner + rest)
    ensures forall x | start <= x < start + b.hdr :: d[x] == d1[x]
    ensures Container(b.typ) ==> Confined(d, d1, start + b.hdr, next, inner)
    ensures Confined(d, d1, next, end, rest)
  {
    forall x | start <= x < end && d[x] != d1[x]
      ensures x >= start + b.hdr
      ensures x < next && Container(b.typ) ==> exists c | c in inner :: InBody(c, x)
      ensures x >= next ==> exists c | c in rest :: InBody(c, x)
    {
      var c :| c in [b] + inner + rest && InBody(c, x);
      assert c == b || c in inner || c in rest;
    }
  }

  // ----- what a segment must look like -----

  /** A field of a box does not run past it. */
  predicate Fits(d: Bytes, b: Box) {
    var body := b.size - b.hdr;
    if b.typ == TKHD || b.typ == MDHD then body >= (if Version(d, b) == 1 then 24 else 16)
    else if b.typ == HDLR then body >= 12
    else if b.typ == TFHD then
      body >= 8 + (if Bit(Flags(d, b), 1) then 8 else 0) + Word(Flags(d, b), 2) + Word(Flags(d, b), 8)
    else if b.typ == TFDT then body >= (if Version(d, b) == 1 then 12 else 8)
    else if b.typ == MVHD then body >= (if Version(d, b) == 1 then 32 else 20)
    else if b.typ == TRUN then
      body >= 8 && FirstEntry(Flags(d, b), b) + Count(d, b) * EntrySize(Flags(d, b)) <= b.p + b.size
    else true
  }

  ghost predicate AllFit(d: Bytes) {
    forall b | b in Boxes(d) :: Fits(d, b)
  }

  /** A field the repair may rewrite: a sample's duration or part of the movie's. */
  ghost predicate Field(d: Bytes, b: Box, k: int) {
    if b.typ == TRUN then
      var flags := Flags(d, b);
      Bit(flags, 0x100) && exists i: nat | i < Count(d, b) :: k == FirstEntry(flags, b) + i * EntrySize(flags)
    else b.typ == MVHD && b.p + b.hdr + 16 <= k && k + 4 <= b.p + b.size
  }

  ghost predicate Touches(d: Bytes, m: map<nat, int>) {
    forall k | k in m :: 0 <= m[k] < UINT32 && exists b | b in Boxes(d) :: Field(d, b, k)
  }

  lemma EntriesFit(first: int, n: nat, size: nat, i: nat, end: int)
    requires i < n && first + n * size <= end
    ensures first + i * size + size <= end && 0 <= i * size
  {
    assert (i + 1) * size <= n * size;
  }

  lemma FieldInside(d: Bytes, b: Box, k: int)
    requires Fits(d, b) && Field(d, b, k)
    ensures !Container(b.typ) && b.p + b.hdr + 8 <= k && k + 4 <= b.p + b.size
  {
    if b.typ == TRUN {
      var flags := Flags(d, b);
      var i: nat :| i < Count(d, b) && k == FirstEntry(flags, b) + i * EntrySize(flags);
      hide Flags;
      hide Count;
      EntriesFit(FirstEntry(flags, b), Count(d, b), EntrySize(flags), i, b.p + b.size);
    }
  }

  // ----- reading through the patches -----

  lemma Part32Sum(v: int)
    requires 0 <= v < UINT32
    ensures Part32(v, 0) * 0x100_0000 + Part32(v, 1) * 0x1_0000 + Part32(v, 2) * 0x100 + Part32(v, 3) == v
  {
    var q1, q2, q3 := v / 0x100, v / 0x1_0000, v / 0x100_0000;
    assert q1 / 0x100 == q2 && q2 / 0x100 == q3;
    assert v == 0x100 * q1 + v % 256 && q1 == 0x100 * q2 + q1 % 256 && q2 == 0x100 * q3 + q2 % 256;
    assert 0 <= q3 < 256;
  }

  lemma OverlayField(d: Bytes, m: map<nat, int>, k: nat)
    requires k in m && 0 <= m[k] < UINT32 && k + 4 <= |d|
    requires forall j | j in m :: j == k || j + 4 <= k || k + 4 <= j
    ensures U32(Overlay(d, m), k) == m[k]
  {
    Part32Sum(m[k]);
    hide Part32;
    var d1 := Overlay(d, m);
    assert k + 1 !in m && k + 2 !in m && k + 3 !in m;
    assert d1[k] == Part32(m[k], 0);
    assert d1[k + 1] == Part32(m[k], 1);
    assert d1[k + 2] == Part32(m[k], 2);
    assert d1[k + 3] == Part32(m[k], 3);
    hide Overlay;
  }

  lemma OverlayByte(d: Bytes, m: map<nat, int>, x: nat)
    requires x < |d| && forall k | k in m :: !(k <= x < k + 4)
    ensures Overlay(d, m)[x] == d[x]
  {
    hide Part32;
  }

  /** A change is in some box's field. */
  lemma ChangeInField(d: Bytes, m: map<nat, int>, x: nat) returns (b: Box, k: nat)
    requires AllFit(d) && Touches(d, m) && x < |d| && Overlay(d, m)[x] != d[x]
    ensures b in Boxes(d) && k in m && Field(d, b, k) && InBody(b, x) && k <= x < k + 4
  {
    hide Overlay;
    hide Field;
    hide Boxes;
    hide Fits;
    if forall j | j in m :: !(j <= x < j + 4) { OverlayByte(d, m, x); }
    k :| k in m && k <= x < k + 4;
    b :| b in Boxes(d) && Field(d, b, k);
    FieldInside(d, b, k);
  }

  lemma OverlayWalk(d: Bytes, m: map<nat, int>)
    requires AllFit(d) && Touches(d, m)
    ensures Boxes(Overlay(d, m)) == Boxes(d)
    ensures forall t | t in Boxes(d) && Container(t.typ) :: Inside(Overlay(d, m), t) == Inside(d, t)
  {
    hide Overlay;
    hide Walk;
    hide Fits;
    hide Field;
    var d1 := Overlay(d, m);
    forall x | 0 <= x < |d| && d[x] != d1[x] ensures exists b | b in Boxes(d) :: InBody(b, x) {
      var b, k := ChangeInField(d, m, x);
    }
    WalkSame(d, d1, 0, |d|, 0);
  }

  /** Bytes of a box outside its own rewritable fields stay. */
  lemma BodySame(d: Bytes, m: map<nat, int>, b: Box, x: int)
    requires AllFit(d) && Touches(d, m) && b in Boxes(d) && InBody(b, x)
    requires forall k | Field(d, b, k) :: !(k <= x < k + 4)
    ensures 0 <= x < |d| && Overlay(d, m)[x] == d[x]
  {
    WalkShape(d, 0, |d|, 0);
    hide Overlay;
    hide Walk;
    hide Fits;
    hide Field;
    if Overlay(d, m)[x] != d[x] {
      var c, k := ChangeInField(d, m, x);
      if c != b { LeavesApart(Boxes(d), b, c); }
    }
  }

  lemma WordSame(d: Bytes, m: map<nat, int>, b: Box, at: int)
    requires AllFit(d) && Touches(d, m) && b in Boxes(d) && !Container(b.typ)
    requires b.p + b.hdr <= at && at + 4 <= b.p + b.size
    requires forall k | Field(d, b, k) :: k + 4 <= at || at + 4 <= k
    ensures U32(Overlay(d, m), at) == U32(d, at)
  {
    hide Overlay;
    hide Boxes;
    hide Field;
    forall x | at <= x < at + 4 && 0 <= x < |d| ensures d[x] == Overlay(d, m)[x] { BodySame(d, m, b, x); }
    SameU32(d, Overlay(d, m), at);
  }

  /** The first bytes of a box never change. */
  lemma FrontSame(d: Bytes, m: map<nat, int>, b: Box, at: int)
    requires AllFit(d) && Touches(d, m) && b in Boxes(d) && !Container(b.typ)
    requires b.p + b.hdr <= at < b.p + b.size
    requires (b.typ == TRUN || b.typ == MVHD) ==> at < b.p + b.hdr + 8
    ensures At(Overlay(d, m), at) == At(d, at)
  {
    hide Overlay;
    hide Boxes;
    forall k | Field(d, b, k) ensures !(k <= at < k + 4) { FieldInside(d, b, k); }
    hide Field;
    hide Fits;
    BodySame(d, m, b, at);
  }

  // ----- tracks and fragments read the same -----

  lemma PlainWord(d: Bytes, m: map<nat, int>, b: Box, at: int)
    requires AllFit(d) && Touches(d, m) && b in Boxes(d) && !Container(b.typ) && b.typ != TRUN && b.typ != MVHD
    requires b.p + b.hdr <= at && at + 4 <= b.p + b.size
    ensures U32(Overlay(d, m), at) == U32(d, at)
  {
    forall k ensures !Field(d, b, k) {}
    hide *;
    WordSame(d, m, b, at);
  }

  lemma VersionSame(d: Bytes, m: map<nat, int>, b: Box)
    requires AllFit(d) && Touches(d, m) && b in Boxes(d) && !Container(b.typ) && b.hdr < b.size
    ensures Version(Overlay(d, m), b) == Version(d, b)
  {
    hide Overlay;
    hide At;
    hide AllFit;
    hide Touches;
    hide Boxes;
    FrontSame(d, m, b, b.p + b.hdr);
  }

  lemma TimesFit(d: Bytes, b: Box)
    requires Fits(d, b)
    ensures b.typ == TKHD || b.typ == MDHD ==> b.size - b.hdr >= (if Version(d, b) == 1 then 24 else 16)
    ensures b.typ == TFDT ==> b.size - b.hdr >= (if Version(d, b) == 1 then 12 else 8)
  {
    hide Version;
    hide Flags;
    hide Count;
  }

  lemma TimesSame(d: Bytes, m: map<nat, int>, b: Box)
    requires AllFit(d) && Touches(d, m) && b in Boxes(d) && (b.typ == TKHD || b.typ == MDHD)
    ensures AfterTimes(Overlay(d, m), b) == AfterTimes(d, b)
  {
    hide Fits;
    hide Touches;
    hide Boxes;
    hide Overlay;
    hide U32;
    hide Version;
    assert Fits(d, b);
    TimesFit(d, b);
    hide AllFit;
    VersionSame(d, m, b);
    PlainWord(d, m, b, b.p + b.hdr + if Version(d, b) == 1 then 20 else 12);
  }

  lemma HandlerSame(d: Bytes, m: map<nat, int>, b: Box)
    requires AllFit(d) && Touches(d, m) && b in Boxes(d) && b.typ == HDLR
    ensures U32(Overlay(d, m), b.p + b.hdr + 8) == U32(d, b.p + b.hdr + 8)
  {
    assert Fits(d, b);
    forall k ensures !Field(d, b, k) {}
    WordSame(d, m, b, b.p + b.hdr + 8);
  }

  lemma BoxReadsSame(d: Bytes, m: map<nat, int>, b: Box, current: Option<Current>)
    requires AllFit(d) && Touches(d, m) && b in Boxes(d)
    ensures ReadBox(Overlay(d, m), b, current) == ReadBox(d, b, current)
  {
    hide Boxes;
    hide Overlay;
    hide AllFit;
    hide Touches;
    hide AfterTimes;
    hide U32;
    if b.typ == TKHD || b.typ == MDHD { TimesSame(d, m, b); }
    if b.typ == HDLR { HandlerSame(d, m, b); }
  }

  lemma {:induction false} TracksSame(d: Bytes, m: map<nat, int>, boxes: seq<Box>)
    requires AllFit(d) && Touches(d, m) && forall b | b in boxes :: b in Boxes(d)
    ensures ReadTracks(Overlay(d, m), boxes) == ReadTracks(d, boxes)
  {
    hide Boxes;
    hide Overlay;
    hide AllFit;
    hide Touches;
    hide ReadBox;
    hide Complete;
    if boxes != [] {
      var init := boxes[..|boxes| - 1];
      TracksSame(d, m, init);
      assert Last(boxes) in boxes;
      BoxReadsSame(d, m, Last(boxes), ReadTracks(d, init).current);
    }
  }

  /** Patched fields lie apart from any field of any box. */
  lemma FieldsApart(d: Bytes, b: Box, c: Box, j: int, k: int)
    requires AllFit(d) && b in Boxes(d) && c in Boxes(d) && b.typ == TRUN && Field(d, b, j) && Field(d, c, k) && j != k
    ensures j + 4 <= k || k + 4 <= j
  {
    WalkShape(d, 0, |d|, 0);
    FieldInside(d, b, j);
    FieldInside(d, c, k);
    hide Walk;
    if b != c {
      LeavesApart(Boxes(d), b, c);
    } else {
      SameBoxApart(d, b, j, k);
    }
    hide Field;
  }

  lemma SameBoxApart(d: Bytes, b: Box, j: int, k: int)
    requires b.typ == TRUN && Field(d, b, j) && Field(d, b, k) && j != k
    ensures j + 4 <= k || k + 4 <= j
  {
    var flags := Flags(d, b);
    var x: nat :| x < Count(d, b) && j == FirstEntry(flags, b) + x * EntrySize(flags);
    var y: nat :| y < Count(d, b) && k == FirstEntry(flags, b) + y * EntrySize(flags);
    hide Flags;
    hide Count;
    StepsApart(x, y, EntrySize(flags));
  }

  lemma StepsApart(x: int, y: int, size: int)
    requires size >= 4 && x != y
    ensures x * size + 4 <= y * size || y * size + 4 <= x * size
  {
    if x < y { StepUp(x, y, size); } else { StepUp(y, x, size); }
  }

  lemma StepUp(x: int, y: int, size: int)
    requires size >= 4 && x < y
    ensures x * size + 4 <= y * size
  {
    var n := y - x - 1;
    assert n * size >= 0;
    assert y * size == (x + 1 + n) * size == x * size + size + n * size;
  }

  /** One entry as the patched file has it. */
  function Seen(e: Entry, m: map<nat, int>): Entry {
    if e.off.Some? && e.off.value in m then e.(duration := m[e.off.value]) else e
  }

  lemma FlagsSame(d: Bytes, m: map<nat, int>, b: Box)
    requires AllFit(d) && Touches(d, m) && b in Boxes(d) && b.typ == TRUN
    ensures Flags(Overlay(d, m), b) == Flags(d, b) && Version(Overlay(d, m), b) == Version(d, b)
    ensures Count(Overlay(d, m), b) == Count(d, b)
  {
    assert Fits(d, b);
    hide Overlay;
    FrontSame(d, m, b, b.p + b.hdr);
    FrontSame(d, m, b, b.p + b.hdr + 1);
    FrontSame(d, m, b, b.p + b.hdr + 2);
    FrontSame(d, m, b, b.p + b.hdr + 3);
    forall k | Field(d, b, k) ensures b.p + b.hdr + 8 <= k { FieldInside(d, b, k); }
    hide Field;
    hide At;
    WordSame(d, m, b, b.p + b.hdr + 4);
    hide U32;
  }

  lemma DurationSeen(d: Bytes, m: map<nat, int>, b: Box, k: nat)
    requires AllFit(d) && Touches(d, m) && b in Boxes(d) && b.typ == TRUN && Field(d, b, k)
    ensures U32(Overlay(d, m), k) == if k in m then m[k] else U32(d, k)
  {
    FieldInside(d, b, k);
    forall j | j in m && j != k ensures j + 4 <= k || k + 4 <= j {
      var c :| c in Boxes(d) && Field(d, c, j);
      FieldsApart(d, b, c, k, j);
    }
    assert k + 4 <= |d| by { WalkShape(d, 0, |d|, 0); }
    hide Boxes;
    hide Field;
    hide Fits;
    if k in m {
      OverlayField(d, m, k);
    } else {
      forall x | k <= x < k + 4 ensures d[x] == Overlay(d, m)[x] { OverlayByte(d, m, x); }
      hide Overlay;
      SameU32(d, Overlay(d, m), k);
    }
  }

  lemma CtoApart(d: Bytes, b: Box, i: nat, k: int)
    requires b.typ == TRUN && Field(d, b, k) && Bit(Flags(d, b), 0x800)
    ensures var at := FirstEntry(Flags(d, b), b) + i * EntrySize(Flags(d, b)) + EntrySize(Flags(d, b)) - 4;
      k + 4 <= at || at + 4 <= k
  {
    var flags := Flags(d, b);
    var j: nat :| j < Count(d, b) && k == FirstEntry(flags, b) + j * EntrySize(flags);
    hide Flags;
    hide Count;
    var size := EntrySize(flags);
    assert size >= 8;
    hide EntrySize;
    if j < i { StepUp(j, i, size); } else if i < j { NextStep(i, j, size); }
  }

  lemma NextStep(x: int, y: int, size: int)
    requires size >= 0 && x < y
    ensures x * size + size <= y * size
  {
    var n := y - x - 1;
    assert n * size >= 0;
    assert y * size == (x + 1 + n) * size == x * size + size + n * size;
  }

  lemma CtoSame(d: Bytes, m: map<nat, int>, b: Box, i: nat)
    requires AllFit(d) && Touches(d, m) && b in Boxes(d) && b.typ == TRUN && i < Count(d, b) && Bit(Flags(d, b), 0x800)
    ensures var at := FirstEntry(Flags(d, b), b) + i * EntrySize(Flags(d, b)) + EntrySize(Flags(d, b)) - 4;
      Cto(Overlay(d, m), b, at) == Cto(d, b, at)
  {
    assert Fits(d, b);
    hide Overlay;
    hide Flags;
    hide Count;
    hide Boxes;
    hide Field;
    hide U32;
    hide Version;
    hide AllFit;
    hide Touches;
    var size := EntrySize(Flags(d, b));
    var at := FirstEntry(Flags(d, b), b) + i * size + size - 4;
    FlagsSame(d, m, b);
    EntriesFit(FirstEntry(Flags(d, b), b), Count(d, b), size, i, b.p + b.size);
    forall k | Field(d, b, k) ensures k + 4 <= at || at + 4 <= k { CtoApart(d, b, i, k); }
    WordSame(d, m, b, at);
  }

  lemma FieldAt(d: Bytes, b: Box, i: nat)
    requires b.typ == TRUN && i < Count(d, b) && Bit(Flags(d, b), 0x100)
    ensures Field(d, b, FirstEntry(Flags(d, b), b) + i * EntrySize(Flags(d, b)))
  {
  }

  lemma EntrySeen(d: Bytes, m: map<nat, int>, b: Box, fallback: int, i: nat)
    requires AllFit(d) && Touches(d, m) && b in Boxes(d) && b.typ == TRUN && i < Count(d, b)
    ensures EntryAt(Overlay(d, m), b, fallback, i) == Seen(EntryAt(d, b, fallback, i), m)
  {
    hide Overlay;
    hide U32;
    hide Flags;
    hide Count;
    hide Version;
    hide Cto;
    hide AllFit;
    hide Boxes;
    hide Field;
    hide Touches;
    hide FirstEntry;
    hide EntrySize;
    hide Bit;
    var flags := Flags(d, b);
    var at := FirstEntry(flags, b) + i * EntrySize(flags);
    FlagsSame(d, m, b);
    if Bit(flags, 0x100) {
      FieldAt(d, b, i);
      DurationSeen(d, m, b, at);
    }
    if Bit(flags, 0x800) { CtoSame(d, m, b, i); }
  }

  lemma {:induction false} RereadAt(entries: seq<Entry>, m: map<nat, int>, k: nat)
    requires k < |entries|
    ensures Reread(entries, m)[k] == Seen(entries[k], m)
  {
    if k < |entries| - 1 { RereadAt(entries[..|entries| - 1], m, k); }
  }

  lemma RereadJoin(a: seq<Entry>, b: seq<Entry>, m: map<nat, int>)
    ensures Reread(a + b, m) == Reread(a, m) + Reread(b, m)
  {
    forall k | 0 <= k < |a + b| ensures Reread(a + b, m)[k] == (Reread(a, m) + Reread(b, m))[k] {
      RereadAt(a + b, m, k);
      if k < |a| { RereadAt(a, m, k); } else { RereadAt(b, m, k - |a|); }
    }
  }

  lemma EntriesSeen(d: Bytes, m: map<nat, int>, b: Box, fallback: int)
    requires AllFit(d) && Touches(d, m) && b in Boxes(d) && b.typ == TRUN
    ensures EntriesOf(Overlay(d, m), b, fallback) == Reread(EntriesOf(d, b, fallback), m)
  {
    FlagsSame(d, m, b);
    var was, now := EntriesOf(d, b, fallback), EntriesOf(Overlay(d, m), b, fallback);
    assert |was| == |now|;
    forall i | 0 <= i < |was| ensures now[i] == Reread(was, m)[i] {
      EntrySeen(d, m, b, fallback, i);
      RereadAt(was, m, i);
      hide EntryAt;
      hide Reread;
    }
  }

  lemma TfdtSame(d: Bytes, m: map<nat, int>, b: Box)
    requires AllFit(d) && Touches(d, m) && b in Boxes(d) && b.typ == TFDT
    ensures Version(Overlay(d, m), b) == Version(d, b)
    ensures U32(Overlay(d, m), b.p + b.hdr + 4) == U32(d, b.p + b.hdr + 4)
    ensures Version(d, b) == 1 ==> U64(Overlay(d, m), b.p + b.hdr + 4) == U64(d, b.p + b.hdr + 4)
  {
    assert Fits(d, b);
    TimesFit(d, b);
    hide Fits;
    hide AllFit;
    hide Touches;
    hide Boxes;
    hide Overlay;
    hide U32;
    hide Version;
    VersionSame(d, m, b);
    PlainWord(d, m, b, b.p + b.hdr + 4);
    if Version(d, b) == 1 { PlainWord(d, m, b, b.p + b.hdr + 8); }
  }

  lemma TfhdSame(d: Bytes, m: map<nat, int>, b: Box)
    requires AllFit(d) && Touches(d, m) && b in Boxes(d) && b.typ == TFHD
    ensures U32(Overlay(d, m), b.p + b.hdr + 4) == U32(d, b.p + b.hdr + 4)
  {
    assert Fits(d, b);
    forall k ensures !Field(d, b, k) {}
    WordSame(d, m, b, b.p + b.hdr + 4);
  }

  lemma PartSeen(d: Bytes, m: map<nat, int>, b: Box, f: Frag)
    requires AllFit(d) && Touches(d, m) && b in Boxes(d)
    ensures ReadPart(Overlay(d, m), b, f.(entries := Reread(f.entries, m)))
            == ReadPart(d, b, f).(entries := Reread(ReadPart(d, b, f).entries, m))
  {
    hide Boxes;
    hide Overlay;
    hide AllFit;
    hide Touches;
    hide EntriesOf;
    hide Reread;
    hide Fallback;
    hide U32;
    hide U64;
    hide Version;
    if b.typ == TFHD {
      FallbackSame(d, m, b);
      TfhdSame(d, m, b);
    } else if b.typ == TFDT {
      TfdtSame(d, m, b);
    } else if b.typ == TRUN {
      EntriesSeen(d, m, b, f.fallback);
      RereadJoin(f.entries, EntriesOf(d, b, f.fallback), m);
    }
  }

  lemma FallbackSame(d: Bytes, m: map<nat, int>, b: Box)
    requires AllFit(d) && Touches(d, m) && b in Boxes(d) && b.typ == TFHD
    ensures Fallback(Overlay(d, m), b) == Fallback(d, b)
  {
    assert Fits(d, b);
    forall k ensures !Field(d, b, k) {}
    hide Boxes;
    hide Overlay;
    hide Field;
    hide AllFit;
    hide Touches;
    HeadFlagsSame(d, m, b);
    hide Flags;
    hide U32;
    var flags := Flags(d, b);
    if Bit(flags, 8) { WordSame(d, m, b, b.p + b.hdr + 8 + (if Bit(flags, 1) then 8 else 0) + Word(flags, 2)); }
  }

  lemma HeadFlagsSame(d: Bytes, m: map<nat, int>, b: Box)
    requires AllFit(d) && Touches(d, m) && b in Boxes(d) && b.typ == TFHD && b.hdr + 4 <= b.size
    ensures Flags(Overlay(d, m), b) == Flags(d, b)
  {
    hide Boxes;
    hide Overlay;
    hide AllFit;
    hide Touches;
    hide At;
    FrontSame(d, m, b, b.p + b.hdr + 1);
    FrontSame(d, m, b, b.p + b.hdr + 2);
    FrontSame(d, m, b, b.p + b.hdr + 3);
  }

  lemma {:induction false} TrafSeen(d: Bytes, m: map<nat, int>, boxes: seq<Box>)
    requires AllFit(d) && Touches(d, m) && forall b | b in boxes :: b in Boxes(d)
    ensures var f := ReadTraf(d, boxes); ReadTraf(Overlay(d, m), boxes) == f.(entries := Reread(f.entries, m))
  {
    hide Boxes;
    hide Overlay;
    hide AllFit;
    hide Touches;
    hide ReadPart;
    if boxes != [] {
      var init := boxes[..|boxes| - 1];
      TrafSeen(d, m, init);
      assert Last(boxes) in boxes;
      hide Reread;
      PartSeen(d, m, Last(boxes), ReadTraf(d, init));
    }
  }

  /** The patched file has the same fragments, with the new durations. */
  lemma {:induction false} FragsSeen(d: Bytes, m: map<nat, int>, boxes: seq<Box>)
    requires AllFit(d) && Touches(d, m) && forall b | b in boxes :: b in Boxes(d)
    ensures ReadFrags(Overlay(d, m), boxes) == RereadAll(ReadFrags(d, boxes), m)
  {
    if boxes != [] {
      var init, t := boxes[..|boxes| - 1], Last(boxes);
      FragsSeen(d, m, init);
      assert t in boxes;
      if t.typ == TRAF {
        OverlayWalk(d, m);
        InsideIn(d, 0, |d|, 0, t);
        TrafSeen(d, m, Inside(d, t));
      }
      hide Boxes;
      hide Overlay;
      hide AllFit;
      hide Touches;
      hide ReadTraf;
      hide Reread;
      hide Inside;
      if ReadFrags(d, boxes) != ReadFrags(d, init) {
        var f := ReadTraf(d, Inside(d, t));
        assert (ReadFrags(d, init) + [f])[..|ReadFrags(d, init)|] == ReadFrags(d, init);
      }
    }
  }

  // ----- every rewritable field belongs to one sample -----

  function Offs(entries: seq<Entry>): set<nat> {
    set e | e in entries && e.off.Some? :: e.off.value
  }

  /** Duration fields in file order, none overlapping the next. */
  ghost predicate Rising(entries: seq<Entry>) {
    forall i, j | 0 <= i < j < |entries| && entries[i].off.Some? && entries[j].off.Some? ::
      entries[i].off.value + 4 <= entries[j].off.value
  }

  ghost predicate Within(entries: seq<Entry>, start: int, end: int) {
    forall e | e in entries && e.off.Some? :: start <= e.off.value && e.off.value + 4 <= end
  }

  lemma RisingJoin(a: seq<Entry>, b: seq<Entry>, start: int, mid: int, end: int)
    requires Rising(a) && Rising(b) && Within(a, start, mid) && Within(b, mid, end) && start <= mid <= end
    ensures Rising(a + b) && Within(a + b, start, end)
  {
    forall i, j | 0 <= i < j < |a + b| && (a + b)[i].off.Some? && (a + b)[j].off.Some?
      ensures (a + b)[i].off.value + 4 <= (a + b)[j].off.value
    {
      if i < |a| <= j { assert a[i] in a && b[j - |a|] in b; }
    }
  }

  lemma EntriesRise(d: Bytes, b: Box, fallback: int)
    requires b.typ == TRUN && Fits(d, b)
    ensures Rising(EntriesOf(d, b, fallback)) && Within(EntriesOf(d, b, fallback), b.p, b.p + b.size)
    ensures forall e | e in EntriesOf(d, b, fallback) && e.off.Some? :: Field(d, b, e.off.value)
    ensures forall e | e in EntriesOf(d, b, fallback) && e.off.Some? :: 0 <= e.duration < UINT32
  {
    var es := EntriesOf(d, b, fallback);
    forall i | 0 <= i < |es| && es[i].off.Some?
      ensures Field(d, b, es[i].off.value) && 0 <= es[i].duration < UINT32
    {
      FieldAt(d, b, i);
    }
    hide Field;
    forall e | e in es && e.off.Some? ensures b.p <= e.off.value && e.off.value + 4 <= b.p + b.size {
      FieldInside(d, b, e.off.value);
    }
    hide Fits;
    forall i, j | 0 <= i < j < |es| && es[i].off.Some? && es[j].off.Some?
      ensures es[i].off.value + 4 <= es[j].off.value
    {
      hide FirstEntry;
      hide EntrySize;
      hide Flags;
      hide U32;
      StepUp(i, j, EntrySize(Flags(d, b)));
    }
  }

  /** The fields of a fragment's samples lie in its runs. */
  ghost predicate FromRuns(d: Bytes, boxes: seq<Box>, entries: seq<Entry>) {
    forall e | e in entries && e.off.Some? ::
      0 <= e.duration < UINT32 && exists b | b in boxes :: b.typ == TRUN && Field(d, b, e.off.value)
  }

  /** What a walk of runs gathered ends where the last one does. */
  ghost predicate Gathered(d: Bytes, boxes: seq<Box>, es: seq<Entry>, start: int, end: int) {
    Rising(es) && FromRuns(d, boxes, es) && Within(es, start, end)
  }

  lemma RunsBefore(d: Bytes, boxes: seq<Box>, es: seq<Entry>, b: Box, start: int, end: int)
    requires Gathered(d, boxes, es, start, end) && Nested(boxes + [b]) && forall c | c in boxes :: Fits(d, c)
    ensures Within(es, start, b.p)
  {
    forall e | e in es && e.off.Some? ensures start <= e.off.value && e.off.value + 4 <= b.p {
      var c :| c in boxes && c.typ == TRUN && Field(d, c, e.off.value);
      FieldInside(d, c, e.off.value);
      var i :| 0 <= i < |boxes| && boxes[i] == c;
      assert (boxes + [b])[i] == c && (boxes + [b])[|boxes|] == b;
      hide Field;
      hide Fits;
      assert Before((boxes + [b])[i], (boxes + [b])[|boxes|]);
    }
  }

  lemma RunJoins(d: Bytes, boxes: seq<Box>, es: seq<Entry>, b: Box, fallback: int, start: int, end: int)
    requires Gathered(d, boxes, es, start, end) && Nested(boxes + [b]) && forall c | c in boxes :: Fits(d, c)
    requires Fits(d, b) && b.typ == TRUN && start <= b.p && b.p + b.size <= end
    ensures Gathered(d, boxes + [b], es + EntriesOf(d, b, fallback), start, end)
  {
    RunsBefore(d, boxes, es, b, start, end);
    EntriesRise(d, b, fallback);
    hide Field;
    hide Fits;
    hide EntriesOf;
    RisingJoin(es, EntriesOf(d, b, fallback), start, b.p, b.p + b.size);
    hide Rising;
    hide Nested;
    assert forall c | c in boxes :: c in boxes + [b];
    assert b in boxes + [b];
  }

  lemma {:induction false} TrafRises(d: Bytes, boxes: seq<Box>, start: nat, end: nat)
    requires Nested(boxes) && start <= end && forall b | b in boxes :: Fitting(b, start, end) && Fits(d, b)
    ensures Gathered(d, boxes, ReadTraf(d, boxes).entries, start, end)
  {
    if boxes != [] {
      var init, b := boxes[..|boxes| - 1], Last(boxes);
      assert boxes == init + [b];
      assert Nested(init);
      hide Fits;
      hide Field;
      hide EntriesOf;
      hide Rising;
      hide Nested;
      TrafRises(d, init, start, end);
      var f := ReadTraf(d, init);
      assert b in boxes;
      if b.typ == TRUN {
        RunJoins(d, init, f.entries, b, f.fallback, start, end);
      } else {
        assert ReadTraf(d, boxes).entries == f.entries;
        assert forall c | c in init :: c in boxes;
      }
    }
  }

  /** No fragment's traf is inside another. */
  ghost predicate TrafsApart(boxes: seq<Box>) {
    forall i, j | 0 <= i < j < |boxes| && boxes[i].typ == TRAF && boxes[j].typ == TRAF :: Before(boxes[i], boxes[j])
  }

  lemma FragRises(d: Bytes, t: Box)
    requires AllFit(d) && t in Boxes(d) && t.typ == TRAF
    ensures var es := ReadTraf(d, Inside(d, t)).entries;
      Rising(es) && FromRuns(d, Boxes(d), es) && Within(es, t.p, t.p + t.size)
  {
    hide Walk;
    hide Fits;
    hide Field;
    hide ReadTraf;
    hide Rising;
    InsideIn(d, 0, |d|, 0, t);
    WalkShape(d, 0, |d|, 0);
    WalkShape(d, t.p + t.hdr, t.p + t.size, t.typ);
    hide Nested;
    TrafRises(d, Inside(d, t), t.p + t.hdr, t.p + t.size);
  }

  ghost predicate InTrafs(entries: seq<Entry>, boxes: seq<Box>) {
    forall k | k in Offs(entries) :: exists t | t in boxes :: t.typ == TRAF && t.p <= k && k + 4 <= t.p + t.size
  }

  /** The samples of a track lie in trafs; different tracks' in different ones. */
  ghost predicate Settled(frags: seq<Frag>, boxes: seq<Box>) {
    && (forall id :: Rising(Flat(OfTrack(frags, id))) && InTrafs(Flat(OfTrack(frags, id)), boxes))
    && (forall a, b | a != b :: Offs(Flat(OfTrack(frags, a))) !! Offs(Flat(OfTrack(frags, b))))
  }

  lemma FlatAdds(frags: seq<Frag>, f: Frag, id: int)
    ensures Flat(OfTrack(frags + [f], id)) == Flat(OfTrack(frags, id)) + if f.track == Some(id) then f.entries else []
  {
    assert (frags + [f])[..|frags|] == frags;
    if f.track == Some(id) {
      assert (OfTrack(frags, id) + [f])[..|OfTrack(frags, id)|] == OfTrack(frags, id);
    } else {
      assert OfTrack(frags, id) + [] == OfTrack(frags, id);
    }
  }

  lemma InMoreTrafs(es: seq<Entry>, more: seq<Entry>, boxes: seq<Box>, t: Box)
    requires InTrafs(es, boxes) && t.typ == TRAF && Within(more, t.p, t.p + t.size)
    ensures InTrafs(es + more, boxes + [t]) && InTrafs(es, boxes + [t])
  {
    forall k | k in Offs(es + more)
      ensures exists u | u in boxes + [t] :: u.typ == TRAF && u.p <= k && k + 4 <= u.p + u.size
    {
      if k in Offs(es) {
        var u :| u in boxes && u.typ == TRAF && u.p <= k && k + 4 <= u.p + u.size;
        assert u in boxes + [t];
      } else {
        assert t in boxes + [t];
      }
    }
    assert forall k | k in Offs(es) :: k in Offs(es + more);
  }

  lemma InTrafsBefore(es: seq<Entry>, boxes: seq<Box>, t: Box)
    requires InTrafs(es, boxes) && forall u | u in boxes && u.typ == TRAF :: Before(u, t)
    ensures Within(es, 0, t.p)
  {
    forall e | e in es && e.off.Some? ensures e.off.value + 4 <= t.p {
      assert e.off.value in Offs(es);
      var u :| u in boxes && u.typ == TRAF && u.p <= e.off.value && e.off.value + 4 <= u.p + u.size;
    }
  }

  lemma GrowOne(es: seq<Entry>, more: seq<Entry>, boxes: seq<Box>, t: Box)
    requires Rising(es) && InTrafs(es, boxes) && t.typ == TRAF
    requires forall u | u in boxes && u.typ == TRAF :: Before(u, t)
    requires Rising(more) && Within(more, t.p, t.p + t.size)
    ensures Rising(es + more) && InTrafs(es + more, boxes + [t]) && Within(es, 0, t.p)
    ensures Offs(es + more) == Offs(es) + Offs(more)
  {
    InTrafsBefore(es, boxes, t);
    InMoreTrafs(es, more, boxes, t);
    RisingJoin(es, more, 0, t.p, t.p + t.size);
    hide Rising;
    hide InTrafs;
  }

  function Part(f: Frag, id: int): seq<Entry> {
    if f.track == Some(id) then f.entries else []
  }

  /** One track's samples with one more fragment. */
  lemma SettledOne(frags: seq<Frag>, boxes: seq<Box>, t: Box, f: Frag, id: int)
    requires Settled(frags, boxes) && t.typ == TRAF
    requires forall u | u in boxes && u.typ == TRAF :: Before(u, t)
    requires Rising(f.entries) && Within(f.entries, t.p, t.p + t.size)
    ensures var es, es1 := Flat(OfTrack(frags, id)), Flat(OfTrack(frags + [f], id));
      && Rising(es1) && InTrafs(es1, boxes + [t]) && Within(es, 0, t.p)
      && Offs(es1) == Offs(es) + Offs(Part(f, id))
  {
    FlatAdds(frags, f, id);
    hide Flat;
    hide OfTrack;
    GrowOne(Flat(OfTrack(frags, id)), Part(f, id), boxes, t);
    hide Rising;
    hide InTrafs;
    hide Within;
    hide Offs;
  }

  lemma SettledMore(frags: seq<Frag>, boxes: seq<Box>, t: Box, f: Frag)
    requires Settled(frags, boxes) && t.typ == TRAF && f.track.Some?
    requires forall u | u in boxes && u.typ == TRAF :: Before(u, t)
    requires Rising(f.entries) && Within(f.entries, t.p, t.p + t.size)
    ensures Settled(frags + [f], boxes + [t])
  {
    hide Flat;
    hide OfTrack;
    hide Rising;
    forall id ensures Rising(Flat(OfTrack(frags + [f], id))) && InTrafs(Flat(OfTrack(frags + [f], id)), boxes + [t]) {
      SettledOne(frags, boxes, t, f, id);
    }
    forall a, b | a != b ensures Offs(Flat(OfTrack(frags + [f], a))) !! Offs(Flat(OfTrack(frags + [f], b))) {
      SettledOne(frags, boxes, t, f, a);
      SettledOne(frags, boxes, t, f, b);
      hide InTrafs;
      assert Offs(Part(f, a)) == {} || Offs(Part(f, b)) == {};
    }
  }

  lemma SettledSame(frags: seq<Frag>, boxes: seq<Box>, t: Box)
    requires Settled(frags, boxes)
    ensures Settled(frags, boxes + [t])
  {
    hide Flat;
    hide OfTrack;
    hide Rising;
    forall u | u in boxes ensures u in boxes + [t] {}
  }

  lemma {:induction false} FragsSettle(d: Bytes, boxes: seq<Box>)
    requires AllFit(d) && TrafsApart(boxes) && forall b | b in boxes :: b in Boxes(d)
    ensures Settled(ReadFrags(d, boxes), boxes)
    ensures FromRuns(d, Boxes(d), Flat(ReadFrags(d, boxes)))
  {
    if boxes == [] {
      assert forall id :: Flat(OfTrack([], id)) == [];
    } else {
      hide Boxes;
      hide AllFit;
      hide Inside;
      hide ReadTraf;
      hide Rising;
      hide Within;
      hide Field;
      hide Before;
      hide FromRuns;
      var init, t := boxes[..|boxes| - 1], Last(boxes);
      assert boxes == init + [t];
      FragsSettle(d, init);
      var f := ReadTraf(d, Inside(d, t));
      if t.typ == TRAF { FragRises(d, t); }
      if t.typ == TRAF && f.track.Some? {
        var frags := ReadFrags(d, init);
        forall u | u in init && u.typ == TRAF ensures Before(u, t) {
          var i :| 0 <= i < |init| && init[i] == u;
          assert Before(boxes[i], boxes[|boxes| - 1]);
        }
        SettledMore(frags, init, t, f);
        assert (frags + [f])[..|frags|] == frags;
      } else {
        SettledSame(ReadFrags(d, init), init, t);
      }
      hide Settled;
    }
  }

  // ----- the fixes -----

  lemma {:induction false} FixesIn(es: seq<Entry>, timescale: int)
    ensures Fixes(es, timescale).Keys <= Offs(es)
  {
    if es != [] {
      var init := es[..|es| - 1];
      FixesIn(init, timescale);
      assert forall e | e in init :: e in es;
      assert Last(es) in es;
      hide Interval;
    }
  }

  lemma {:induction false} PreviousBound(es: seq<Entry>, timescale: int)
    requires timescale > 0 && forall e | e in es :: 0 <= e.duration < UINT32 && e.off.Some?
    ensures 0 <= Previous(es, timescale) <= GAP_SECONDS * timescale && Previous(es, timescale) < UINT32
  {
    if es != [] { PreviousBound(es[..|es| - 1], timescale); assert Last(es) in es; }
  }

  lemma IntervalBound(es: seq<Entry>, timescale: int)
    requires 0 < timescale < UINT32 && forall e | e in es :: 0 <= e.duration < UINT32 && e.off.Some?
    ensures 0 < Interval(es, timescale) <= GAP_SECONDS * timescale && Interval(es, timescale) < UINT32
  {
    PreviousBound(es, timescale);
  }

  // ----- the end of a track -----

  function Ticks(entries: seq<Entry>, k: nat): int
    requires k <= |entries|
  {
    if k == 0 then 0 else Ticks(entries, k - 1) + entries[k - 1].duration
  }

  /** Where a sample ends; the picture of a video sample may be shown for longer. */
  function SampleEnd(f: Frag, k: nat, video: bool): int
    requires k < |f.entries|
  {
    f.base + Ticks(f.entries, k + 1) + if video then Max(f.entries[k].cto, 0) else 0
  }

  /** end is the latest end of the samples of the first n fragments, or zero. */
  ghost predicate LatestEnd(end: int, frags: seq<Frag>, video: bool) {
    && 0 <= end
    && (forall i, k | 0 <= i < |frags| && 0 <= k < |frags[i].entries| :: SampleEnd(frags[i], k, video) <= end)
    && (end == 0
        || exists i, k | 0 <= i < |frags| && 0 <= k < |frags[i].entries| :: SampleEnd(frags[i], k, video) == end)
  }

  lemma {:induction false} FragEndIs(f: Frag, k: nat, video: bool, end: int) returns (last: int)
    requires k <= |f.entries| && 0 <= end
    ensures var (dts, end1) := FragEnd(f.base, f.entries[..k], video, end);
      && dts == f.base + Ticks(f.entries, k) && end <= end1
      && (forall j | 0 <= j < k :: SampleEnd(f, j, video) <= end1)
      && (end1 == end || (0 <= last < k && SampleEnd(f, last, video) == end1))
  {
    last := -1;
    if k > 0 {
      last := FragEndIs(f, k - 1, video, end);
      assert f.entries[..k][..k - 1] == f.entries[..k - 1];
      var end0 := FragEnd(f.base, f.entries[..k - 1], video, end).1;
      if SampleEnd(f, k - 1, video) >= end0 { last := k - 1; }
    }
  }

  /** A track's end is the latest end of its samples. */
  lemma {:induction false} TrackEndIs(frags: seq<Frag>, video: bool)
    ensures LatestEnd(TrackEnd(frags, video), frags, video)
  {
    if frags != [] {
      var init, f := frags[..|frags| - 1], Last(frags);
      TrackEndIs(init, video);
      var last := FragEndIs(f, |f.entries|, video, TrackEnd(init, video));
      assert f.entries[..|f.entries|] == f.entries;
      hide FragEnd;
      hide SampleEnd;
      var end := TrackEnd(frags, video);
      if end == TrackEnd(init, video) && end != 0 {
        var i, k :| 0 <= i < |init| && 0 <= k < |init[i].entries| && SampleEnd(init[i], k, video) == end;
        assert SampleEnd(frags[i], k, video) == end;
      }
    }
  }

  /** In nanoseconds, the movie's end is that of the track that ends last, of those with
      a clock and a fragment. */
  lemma {:induction false} MovieEndIs(frags: seq<Frag>, order: seq<int>, info: map<int, Track>, id: int)
    requires id in order && id in info && OfTrack(frags, id) != [] && info[id].timescale > 0
    ensures EndNs(frags, order, info)
         >= TrackEnd(OfTrack(frags, id), info[id].handler == VIDE) * 1_000_000_000 / info[id].timescale
    ensures exists j | j in order && j in info && OfTrack(frags, j) != [] && info[j].timescale > 0 ::
      EndNs(frags, order, info)
      == Max(0, TrackEnd(OfTrack(frags, j), info[j].handler == VIDE) * 1_000_000_000 / info[j].timescale)
  {
    var init, last := order[..|order| - 1], Last(order);
    assert forall x :: x in order <==> x in init || x == last;
    if id in init { MovieEndIs(frags, init, info, id); } else { MovieEndOrNone(frags, init, info); }
  }

  lemma {:induction false} MovieEndOrNone(frags: seq<Frag>, order: seq<int>, info: map<int, Track>)
    ensures EndNs(frags, order, info) >= 0
    ensures EndNs(frags, order, info) == 0
      || exists j | j in order && j in info && OfTrack(frags, j) != [] && info[j].timescale > 0 ::
           EndNs(frags, order, info)
           == Max(0, TrackEnd(OfTrack(frags, j), info[j].handler == VIDE) * 1_000_000_000 / info[j].timescale)
  {
    if order != [] {
      var init, last := order[..|order| - 1], Last(order);
      assert forall x :: x in order <==> x in init || x == last;
      MovieEndOrNone(frags, init, info);
    }
  }

  /** A duration that can stand for a frame's interval: at least a 120th of a second, at
      most five seconds. */
  predicate Plausible(e: Entry, timescale: int) {
    120 * e.duration >= timescale && e.duration <= 5 * timescale
  }

  /** A stretched sample is cut back to the duration of the latest plausible sample
      before it; without one to a 25th of a second, but at least one tick. */
  lemma {:induction false} IntervalIs(before: seq<Entry>, timescale: int, k: nat)
    requires 0 < timescale && k <= |before| && forall e | e in before :: e.off.Some?
    requires forall j | k <= j < |before| :: !Plausible(before[j], timescale)
    ensures k > 0 && Plausible(before[k - 1], timescale) ==> Interval(before, timescale) == before[k - 1].duration
    ensures k == 0 ==> Interval(before, timescale) == Max(timescale / 25, 1)
  {
    if k < |before| {
      var init := before[..|before| - 1];
      assert before[|before| - 1] in before;
      IntervalIs(init, timescale, k);
    } else if k > 0 {
      assert before[k - 1] in before;
    }
  }

  ghost predicate Timed(es: seq<Entry>) {
    forall e | e in es :: 0 <= e.duration < UINT32 && e.off.Some?
  }

  /** One sample and what the repair makes of it. */
  predicate CutBack(e: Entry, e1: Entry, timescale: int) {
    && e1 == e.(duration := e1.duration) && 0 <= e1.duration <= GAP_SECONDS * timescale && e1.duration < UINT32
    && (e.duration <= GAP_SECONDS * timescale ==> e1 == e)
  }

  /** No fixed sample is a stretched one, and nothing but durations changed. */
  lemma {:induction false} FixedBound(es: seq<Entry>, timescale: int)
    requires 0 < timescale < UINT32 && Timed(es)
    ensures |Fixed(es, timescale)| == |es|
    ensures forall k | 0 <= k < |es| :: CutBack(es[k], Fixed(es, timescale)[k], timescale)
    ensures forall k | k in Fixes(es, timescale) :: 0 <= Fixes(es, timescale)[k] < UINT32
  {
    if es != [] {
      var init, e := es[..|es| - 1], Last(es);
      assert e in es && forall x | x in init :: x in es;
      FixedBound(init, timescale);
      IntervalBound(init, timescale);
      hide Interval;
      var x := if Stretched(e, timescale) then e.(duration := Interval(init, timescale)) else e;
      assert CutBack(e, x, timescale);
      assert Fixed(es, timescale) == Fixed(init, timescale) + [x];
      hide CutBack;
      hide Fixed;
      hide Timed;
    }
  }

  lemma {:induction false} NothingStretched(es: seq<Entry>, timescale: int)
    requires forall e | e in es :: !Stretched(e, timescale)
    ensures Fixes(es, timescale) == map[] && Fixed(es, timescale) == es
  {
    hide Interval;
    if es != [] {
      var init := es[..|es| - 1];
      assert es == init + [Last(es)] && Last(es) in es && forall x | x in init :: x in es;
      NothingStretched(init, timescale);
    }
  }

  /** m rewrites these samples' fields as their track's repair does. */
  ghost predicate Agrees(m: map<nat, int>, es: seq<Entry>, fixes: map<nat, int>) {
    forall k | k in Offs(es) :: (k in m <==> k in fixes) && (k in m ==> m[k] == fixes[k])
  }

  lemma {:induction false} RereadIsFixed(es: seq<Entry>, timescale: int, m: map<nat, int>)
    requires Rising(es) && Agrees(m, es, Fixes(es, timescale))
    ensures Reread(es, m) == Fixed(es, timescale)
  {
    if es != [] {
      var init, e := es[..|es| - 1], Last(es);
      FixesIn(init, timescale);
      assert e in es && forall x | x in init :: x in es;
      LastApart(es);
      hide Rising;
      hide Interval;
      forall k | k in Offs(init) ensures k in Offs(es) {}
      if e.off.Some? { assert e.off.value in Offs(es); }
      assert Agrees(m, init, Fixes(init, timescale));
      assert Rising(init) by { RisingPrefix(es); }
      RereadIsFixed(init, timescale, m);
    }
  }

  lemma RisingPrefix(es: seq<Entry>)
    requires es != [] && Rising(es)
    ensures Rising(es[..|es| - 1])
  {
  }

  lemma LastApart(es: seq<Entry>)
    requires es != [] && Rising(es)
    ensures Last(es).off.Some? ==> Last(es).off.value !in Offs(es[..|es| - 1])
  {
    if Last(es).off.Some? {
      forall e | e in es[..|es| - 1] && e.off.Some? ensures e.off.value != Last(es).off.value {
        var i :| 0 <= i < |es| - 1 && es[i] == e;
        assert es[i].off.value + 4 <= es[|es| - 1].off.value;
      }
    }
  }

  lemma {:induction false} AllFixesAgree(frags: seq<Frag>, boxes: seq<Box>, order: seq<int>, info: map<int, Track>,
      id: int)
    requires Settled(frags, boxes) && id in info
    ensures var es := Flat(OfTrack(frags, id));
      Agrees(AllFixes(frags, order, info), es, if id in order then Fixes(es, info[id].timescale) else map[])
  {
    if order != [] {
      var init, last := order[..|order| - 1], Last(order);
      AllFixesAgree(frags, boxes, init, info, id);
      assert id in order <==> id in init || id == last;
      var es := Flat(OfTrack(frags, id));
      if last in info {
        FixesIn(Flat(OfTrack(frags, last)), info[last].timescale);
        assert last != id ==> Offs(Flat(OfTrack(frags, last))) !! Offs(es);
        FixesIn(es, info[id].timescale);
      }
      hide Flat;
      hide OfTrack;
      hide Fixes;
      hide Settled;
    }
  }

  // ----- what is read after the fixes -----

  lemma {:induction false} RereadAllParts(frags: seq<Frag>, m: map<nat, int>, id: int)
    ensures OfTrack(RereadAll(frags, m), id) == RereadAll(OfTrack(frags, id), m)
    ensures Flat(RereadAll(frags, m)) == Reread(Flat(frags), m)
    ensures |RereadAll(frags, m)| == |frags|
  {
    if frags != [] {
      var init, f := frags[..|frags| - 1], Last(frags);
      RereadAllParts(init, m, id);
      RereadJoin(Flat(init), f.entries, m);
      var g := f.(entries := Reread(f.entries, m));
      hide Reread;
      assert RereadAll(frags, m)[..|frags| - 1] == RereadAll(init, m);
      if f.track == Some(id) {
        assert (OfTrack(init, id) + [f])[..|OfTrack(init, id)|] == OfTrack(init, id);
      } else {
        assert OfTrack(init, id) + [] == OfTrack(init, id);
        assert OfTrack(RereadAll(init, m), id) + [] == OfTrack(RereadAll(init, m), id);
      }
    }
  }

  lemma TrackReread(frags: seq<Frag>, m: map<nat, int>, id: int)
    ensures Flat(OfTrack(RereadAll(frags, m), id)) == Reread(Flat(OfTrack(frags, id)), m)
    ensures |OfTrack(RereadAll(frags, m), id)| == |OfTrack(frags, id)|
  {
    RereadAllParts(frags, m, id);
    RereadAllParts(OfTrack(frags, id), m, id);
  }

  lemma {:induction false} FlatOfTrack(frags: seq<Frag>, id: int)
    ensures forall e | e in Flat(OfTrack(frags, id)) :: e in Flat(frags)
  {
    if frags != [] {
      var init, f := frags[..|frags| - 1], Last(frags);
      FlatOfTrack(init, id);
      assert frags == init + [f];
      FlatAdds(init, f, id);
      hide OfTrack;
    }
  }

  /** A segment as the recorder writes it: boxes hold their fields, trafs are not
      nested, timescales are positive and every sample has its own duration. */
  ghost predicate Segment(d: Bytes) {
    && AllFit(d) && TrafsApart(Boxes(d))
    && (forall id | id in ReadTracks(d, Boxes(d)).info :: 0 < ReadTracks(d, Boxes(d)).info[id].timescale)
    && (forall e | e in Flat(ReadFrags(d, Boxes(d))) :: e.off.Some?)
  }

  function SegmentFixes(d: Bytes): map<nat, int> {
    var t := ReadTracks(d, Boxes(d));
    AllFixes(ReadFrags(d, Boxes(d)), t.order, t.info)
  }

  lemma {:induction false} TimescalesFit(d: Bytes, boxes: seq<Box>)
    ensures forall id | id in ReadTracks(d, boxes).info :: ReadTracks(d, boxes).info[id].timescale < UINT32
    ensures ReadTracks(d, boxes).current.Some? && ReadTracks(d, boxes).current.value.timescale.Some?
            ==> ReadTracks(d, boxes).current.value.timescale.value < UINT32
    ensures forall id | id in ReadTracks(d, boxes).info :: id in ReadTracks(d, boxes).order
  {
    if boxes != [] { TimescalesFit(d, boxes[..|boxes| - 1]); }
  }

  lemma FragsTimed(d: Bytes)
    requires Segment(d)
    ensures Timed(Flat(ReadFrags(d, Boxes(d)))) && Settled(ReadFrags(d, Boxes(d)), Boxes(d))
    ensures FromRuns(d, Boxes(d), Flat(ReadFrags(d, Boxes(d))))
  {
    FragsSettle(d, Boxes(d));
    hide Settled;
    hide Boxes;
    hide ReadFrags;
    hide ReadTracks;
    hide Flat;
    hide Field;
  }

  lemma {:induction false} AllFixesTouch(d: Bytes, frags: seq<Frag>, order: seq<int>, info: map<int, Track>)
    requires Timed(Flat(frags)) && FromRuns(d, Boxes(d), Flat(frags))
    requires forall id | id in info :: 0 < info[id].timescale < UINT32
    ensures Touches(d, AllFixes(frags, order, info))
  {
    hide Boxes;
    hide Field;
    if order != [] {
      AllFixesTouch(d, frags, order[..|order| - 1], info);
      var id := Last(order);
      if id in info {
        var es := Flat(OfTrack(frags, id));
        FlatOfTrack(frags, id);
        hide OfTrack;
        hide Flat;
        assert Timed(es);
        FixedBound(es, info[id].timescale);
        FixesIn(es, info[id].timescale);
        hide Fixes;
        hide Fixed;
      }
    }
  }

  // ----- the file after a repair -----

  lemma FlagsKept(d: Bytes, m: map<nat, int>, b: Box)
    requires AllFit(d) && Touches(d, m) && b in Boxes(d) && !Container(b.typ) && b.size - b.hdr >= 4
    ensures Flags(Overlay(d, m), b) == Flags(d, b)
  {
    hide Overlay;
    hide At;
    hide AllFit;
    hide Touches;
    hide Boxes;
    FrontSame(d, m, b, b.p + b.hdr + 1);
    FrontSame(d, m, b, b.p + b.hdr + 2);
    FrontSame(d, m, b, b.p + b.hdr + 3);
  }

  lemma FitsSame(d: Bytes, m: map<nat, int>, b: Box)
    requires AllFit(d) && Touches(d, m) && b in Boxes(d)
    ensures Fits(Overlay(d, m), b)
  {
    assert Fits(d, b);
    hide AllFit;
    hide Touches;
    hide Boxes;
    hide Overlay;
    hide Flags;
    hide Version;
    hide Count;
    hide Bit;
    hide EntrySize;
    if b.typ == TKHD || b.typ == MDHD || b.typ == TFDT || b.typ == MVHD { VersionSame(d, m, b); }
    if b.typ == TFHD { FlagsKept(d, m, b); }
    if b.typ == TRUN { FlagsSame(d, m, b); }
  }

  lemma OverlayFits(d: Bytes, m: map<nat, int>)
    requires AllFit(d) && Touches(d, m)
    ensures AllFit(Overlay(d, m))
  {
    OverlayWalk(d, m);
    forall b | b in Boxes(Overlay(d, m)) ensures Fits(Overlay(d, m), b) { FitsSame(d, m, b); }
    hide Boxes;
    hide Fits;
  }

  lemma {:induction false} MvhdSame(d: Bytes, m: map<nat, int>, boxes: seq<Box>)
    requires AllFit(d) && Touches(d, m) && forall b | b in boxes :: b in Boxes(d)
    ensures MvhdField(Overlay(d, m), boxes) == MvhdField(d, boxes)
    decreases |boxes|
  {
    hide Boxes;
    hide Overlay;
    hide Touches;
    if boxes != [] {
      var b := boxes[0];
      assert b in boxes;
      if b.typ == MVHD && b.parent == MOOV {
        assert Fits(d, b);
        hide AllFit;
        hide Version;
        VersionSame(d, m, b);
      } else {
        hide AllFit;
        MvhdSame(d, m, boxes[1..]);
      }
    }
  }

  /** Where the movie duration lies. */
  lemma {:induction false} MvhdInside(d: Bytes, boxes: seq<Box>) returns (b: Box)
    requires MvhdField(d, boxes).Some? && forall c | c in boxes :: Fits(d, c)
    ensures b in boxes && b.typ == MVHD && b.p + b.hdr + 16 <= MvhdField(d, boxes).value.0
    ensures MvhdField(d, boxes).value.0 + MvhdField(d, boxes).value.1 <= b.p + b.size
    ensures MvhdField(d, boxes).value.1 == 4 || MvhdField(d, boxes).value.1 == 8
    decreases |boxes|
  {
    b := boxes[0];
    assert b in boxes;
    if !(b.typ == MVHD && b.parent == MOOV) { b := MvhdInside(d, boxes[1..]); }
  }

  lemma {:induction false} RereadNone(es: seq<Entry>, m: map<nat, int>)
    requires Offs(es) !! m.Keys
    ensures Reread(es, m) == es
  {
    if es != [] {
      var init := es[..|es| - 1];
      OffsGrow(init, Last(es));
      assert es == init + [Last(es)];
      hide Offs;
      RereadNone(init, m);
    }
  }

  lemma OffsGrow(es: seq<Entry>, e: Entry)
    ensures Offs(es) <= Offs(es + [e]) && (e.off.Some? ==> e.off.value in Offs(es + [e]))
  {
    assert forall x | x in es :: x in es + [e];
    assert e in es + [e];
  }

  lemma {:induction false} RereadAllNone(frags: seq<Frag>, m: map<nat, int>)
    requires Offs(Flat(frags)) !! m.Keys
    ensures RereadAll(frags, m) == frags
  {
    if frags != [] {
      var init, f := frags[..|frags| - 1], Last(frags);
      forall k | k in Offs(Flat(init)) ensures k in Offs(Flat(frags)) {
        var e :| e in Flat(init) && e.off == Some(k);
        assert e in Flat(frags);
      }
      forall k | k in Offs(f.entries) ensures k in Offs(Flat(frags)) {
        var e :| e in f.entries && e.off == Some(k);
        assert e in Flat(frags);
      }
      RereadAllNone(init, m);
      RereadNone(f.entries, m);
    }
  }

  /** Everything the tool reads of a file, whatever it rewrites. */
  ghost predicate ReadsAs(d1: Bytes, d: Bytes, frags: seq<Frag>) {
    && Boxes(d1) == Boxes(d) && AllFit(d1)
    && ReadTracks(d1, Boxes(d1)) == ReadTracks(d, Boxes(d))
    && ReadFrags(d1, Boxes(d1)) == frags
    && MvhdField(d1, Boxes(d1)) == MvhdField(d, Boxes(d))
  }

  lemma OverlayReads(d: Bytes, m: map<nat, int>)
    requires AllFit(d) && Touches(d, m)
    ensures ReadsAs(Overlay(d, m), d, RereadAll(ReadFrags(d, Boxes(d)), m))
  {
    OverlayWalk(d, m);
    OverlayFits(d, m);
    TracksSame(d, m, Boxes(d));
    FragsSeen(d, m, Boxes(d));
    MvhdSame(d, m, Boxes(d));
    hide *;
  }

  /** Rewriting the movie duration changes nothing else that is read. */
  lemma MvhdReads(d: Bytes, ms: int)
    requires AllFit(d) && FromRuns(d, Boxes(d), Flat(ReadFrags(d, Boxes(d))))
    requires MvhdField(d, Boxes(d)).Some? ==>
      0 <= ms < if MvhdField(d, Boxes(d)).value.1 == 4 then UINT32 else UINT32 * UINT32
    ensures var n := MvhdFixes(MvhdField(d, Boxes(d)), ms);
      Touches(d, n) && ReadsAs(Overlay(d, n), d, ReadFrags(d, Boxes(d)))
  {
    var field := MvhdField(d, Boxes(d));
    var n := MvhdFixes(field, ms);
    var frags := ReadFrags(d, Boxes(d));
    if field.None? {
      assert n == map[];
    } else {
      var b := MvhdInside(d, Boxes(d));
      assert forall k | k in n :: Field(d, b, k) && 0 <= n[k] < UINT32;
      MvhdApart(d, b, n, Flat(frags));
    }
    hide MvhdField;
    hide MvhdFixes;
    hide Boxes;
    hide ReadFrags;
    OverlayReads(d, n);
    assert Offs(Flat(frags)) !! n.Keys;
    RereadAllNone(frags, n);
  }

  lemma MvhdApart(d: Bytes, b: Box, n: map<nat, int>, es: seq<Entry>)
    requires AllFit(d) && FromRuns(d, Boxes(d), es) && b in Boxes(d) && b.typ == MVHD
    requires forall k | k in n :: Field(d, b, k)
    ensures Offs(es) !! n.Keys
  {
    WalkShape(d, 0, |d|, 0);
    hide Walk;
    hide Fits;
    forall e | e in es && e.off.Some? ensures e.off.value !in n {
      var c :| c in Boxes(d) && c.typ == TRUN && Field(d, c, e.off.value);
      FieldInside(d, c, e.off.value);
      LeavesApart(Boxes(d), b, c);
      forall k | k in n ensures k != e.off.value { FieldInside(d, b, k); }
    }
  }

  /** The samples after the fixes: each track's are its old ones, cut back. */
  lemma FixedReads(d: Bytes)
    requires Segment(d)
    ensures var m := SegmentFixes(d);
      && Touches(d, m)
      && ReadsAs(Overlay(d, m), d, RereadAll(ReadFrags(d, Boxes(d)), m))
  {
    var t, frags := ReadTracks(d, Boxes(d)), ReadFrags(d, Boxes(d));
    FragsTimed(d);
    TimescalesFit(d, Boxes(d));
    AllFixesTouch(d, frags, t.order, t.info);
    hide Boxes;
    hide ReadTracks;
    hide ReadFrags;
    hide AllFixes;
    hide Touches;
    hide Flat;
    OverlayReads(d, SegmentFixes(d));
  }

  lemma TrackFixed(d: Bytes, id: int)
    requires Segment(d) && id in ReadTracks(d, Boxes(d)).info
    ensures var frags, track := ReadFrags(d, Boxes(d)), ReadTracks(d, Boxes(d)).info[id];
      var es := Flat(OfTrack(frags, id));
      && Flat(OfTrack(RereadAll(frags, SegmentFixes(d)), id)) == Fixed(es, track.timescale)
      && |OfTrack(RereadAll(frags, SegmentFixes(d)), id)| == |OfTrack(frags, id)|
      && 0 < track.timescale < UINT32 && Timed(es)
  {
    var t, frags := ReadTracks(d, Boxes(d)), ReadFrags(d, Boxes(d));
    FragsTimed(d);
    TimescalesFit(d, Boxes(d));
    FlatOfTrack(frags, id);
    AllFixesAgree(frags, Boxes(d), t.order, t.info, id);
    assert Rising(Flat(OfTrack(frags, id)));
    hide Boxes;
    hide ReadTracks;
    hide ReadFrags;
    hide Flat;
    hide OfTrack;
    hide AllFixes;
    hide Rising;
    hide Settled;
    RereadIsFixed(Flat(OfTrack(frags, id)), t.info[id].timescale, SegmentFixes(d));
    TrackReread(frags, SegmentFixes(d), id);
  }

  lemma {:induction false} EndNonNeg(frags: seq<Frag>, order: seq<int>, info: map<int, Track>)
    ensures EndNs(frags, order, info) >= 0
  {
    if order != [] { EndNonNeg(frags, order[..|order| - 1], info); }
  }

  function MovieMs(d: Bytes): int {
    var t := ReadTracks(d, Boxes(d));
    EndNs(RereadAll(ReadFrags(d, Boxes(d)), SegmentFixes(d)), t.order, t.info) / 1_000_000
  }

  /** The movie duration fits its field. */
  predicate Holds32(field: Option<(nat, nat)>, ms: int) {
    field.Some? ==> ms < if field.value.1 == 4 then UINT32 else UINT32 * UINT32
  }

  /** The steps of a repair that rewrites something. */
  lemma RepairSteps(d: Bytes)
    requires Segment(d)
    ensures var m := SegmentFixes(d);
      var d1 := Overlay(d, m);
      var field := MvhdField(d, Boxes(d));
      Repair(d) ==
        if m == map[] then (d, Untouched)
        else if !Holds32(field, MovieMs(d)) then (d1, Raises)
        else
          (Overlay(d1, MvhdFixes(field, MovieMs(d))),
           Repaired(EndNs(RereadAll(ReadFrags(d, Boxes(d)), m), ReadTracks(d, Boxes(d)).order,
             ReadTracks(d, Boxes(d)).info)))
  {
    FixedReads(d);
    MvhdWidth(d, Boxes(d));
    hide Segment;
    hide Overlay;
    hide Boxes;
    hide ReadTracks;
    hide ReadFrags;
    hide MvhdField;
    hide MvhdFixes;
    hide AllFixes;
    hide RereadAll;
    hide EndNs;
    hide AllFit;
    hide Touches;
  }

  lemma {:induction false} MvhdWidth(d: Bytes, boxes: seq<Box>)
    ensures MvhdField(d, boxes).Some? ==> MvhdField(d, boxes).value.1 == 4 || MvhdField(d, boxes).value.1 == 8
    decreases |boxes|
  {
    if boxes != [] && !(boxes[0].typ == MVHD && boxes[0].parent == MOOV) { MvhdWidth(d, boxes[1..]); }
  }

  /** What the tool reads of the repaired file. */
  lemma RepairReads(d: Bytes)
    requires Segment(d)
    ensures ReadsAs(Repair(d).0, d, RereadAll(ReadFrags(d, Boxes(d)), SegmentFixes(d)))
  {
    var m := SegmentFixes(d);
    var d1 := Overlay(d, m);
    var frags := ReadFrags(d, Boxes(d));
    RepairSteps(d);
    hide Repair;
    FixedReads(d);
    var t := ReadTracks(d, Boxes(d));
    EndNonNeg(RereadAll(frags, m), t.order, t.info);
    if m == map[] {
      hide SegmentFixes;
      RereadAllNone(frags, m);
    } else if Holds32(MvhdField(d, Boxes(d)), MovieMs(d)) {
      FragsSettle(d1, Boxes(d1));
      hide SegmentFixes;
      hide EndNs;
      hide MvhdField;
      hide MvhdFixes;
      hide Boxes;
      hide ReadFrags;
      hide ReadTracks;
      hide Settled;
      hide FromRuns;
      hide RereadAll;
      hide AllFit;
      hide Touches;
      hide Overlay;
      MvhdReads(d1, MovieMs(d));
    }
  }

  // ----- the main results -----

  lemma {:induction false} AllFixesIn(frags: seq<Frag>, order: seq<int>, info: map<int, Track>)
    ensures AllFixes(frags, order, info).Keys <= Offs(Flat(frags))
  {
    if order != [] {
      AllFixesIn(frags, order[..|order| - 1], info);
      var id := Last(order);
      if id in info {
        FixesIn(Flat(OfTrack(frags, id)), info[id].timescale);
        FlatOfTrack(frags, id);
        hide Flat;
        hide OfTrack;
        hide Fixes;
      }
    }
  }

  /** A byte of some sample's duration, or of the movie's. */
  ghost predicate DurationByte(d: Bytes, x: nat) {
    || (exists b, k: nat :: b in Boxes(d) && b.typ == TRUN && Field(d, b, k) && k <= x < k + 4)
    || (var field := MvhdField(d, Boxes(d)); field.Some? && field.value.0 <= x < field.value.0 + field.value.1)
  }

  /** The repair keeps the file's length and changes no byte but of sample durations
      and of the movie duration. */
  lemma OnlyDurationsChange(d: Bytes, x: nat)
    requires Segment(d) && x < |d|
    ensures |Repair(d).0| == |d|
    ensures Repair(d).0[x] != d[x] ==> DurationByte(d, x)
  {
    RepairSteps(d);
    hide Repair;
    FixesInRuns(d, x);
    var m := SegmentFixes(d);
    var d1 := Overlay(d, m);
    var n := MvhdFixes(MvhdField(d, Boxes(d)), MovieMs(d));
    MvhdWidth(d, Boxes(d));
    if forall k | k in m :: !(k <= x < k + 4) { OverlayByte(d, m, x); }
    if forall k | k in n :: !(k <= x < k + 4) { OverlayByte(d1, n, x); }
    hide Overlay;
    hide Segment;
    hide SegmentFixes;
    hide MovieMs;
    hide Boxes;
    hide MvhdField;
    hide Field;
  }

  lemma FixesInRuns(d: Bytes, x: nat)
    requires Segment(d)
    ensures forall k | k in SegmentFixes(d) && k <= x < k + 4 ::
      exists b :: b in Boxes(d) && b.typ == TRUN && Field(d, b, k)
  {
    var t, frags := ReadTracks(d, Boxes(d)), ReadFrags(d, Boxes(d));
    FragsTimed(d);
    AllFixesIn(frags, t.order, t.info);
    hide Boxes;
    hide ReadTracks;
    hide ReadFrags;
    hide AllFixes;
    hide Flat;
    hide Field;
    forall k | k in SegmentFixes(d) && k <= x < k + 4
      ensures exists b :: b in Boxes(d) && b.typ == TRUN && Field(d, b, k)
    {
      assert k in Offs(Flat(frags));
    }
  }

  /** The boxes, the tracks and the samples of each track read as before; a sample's
      duration is cut back when it was longer than five seconds and unchanged when it
      was not, and none is longer afterwards. */
  lemma SamplesCutBack(d: Bytes, id: int, k: nat)
    requires Segment(d) && id in ReadTracks(d, Boxes(d)).info
    requires k < |Flat(OfTrack(ReadFrags(d, Boxes(d)), id))|
    ensures var d2, timescale := Repair(d).0, ReadTracks(d, Boxes(d)).info[id].timescale;
      var es := Flat(OfTrack(ReadFrags(d, Boxes(d)), id));
      && Boxes(d2) == Boxes(d) && ReadTracks(d2, Boxes(d2)) == ReadTracks(d, Boxes(d))
      && |OfTrack(ReadFrags(d2, Boxes(d2)), id)| == |OfTrack(ReadFrags(d, Boxes(d)), id)|
      && var es2 := Flat(OfTrack(ReadFrags(d2, Boxes(d2)), id));
      && |es2| == |es|
      && es2[k] == es[k].(duration :=
        if es[k].duration > GAP_SECONDS * timescale then Interval(es[..k], timescale) else es[k].duration)
      && es2[k].duration <= GAP_SECONDS * timescale
  {
    RepairReads(d);
    TrackFixed(d, id);
    hide Repair;
    hide Segment;
    hide Boxes;
    hide ReadTracks;
    hide ReadFrags;
    hide AllFixes;
    hide RereadAll;
    var es, timescale := Flat(OfTrack(ReadFrags(d, Boxes(d)), id)), ReadTracks(d, Boxes(d)).info[id].timescale;
    FixedBound(es, timescale);
    FixedAt(es, timescale, k);
    hide Flat;
    hide OfTrack;
    hide Fixed;
    hide Interval;
    assert CutBack(es[k], Fixed(es, timescale)[k], timescale);
    assert es[k].off.Some?;
  }

  lemma {:induction false} FixedAt(es: seq<Entry>, timescale: int, k: nat)
    requires k < |es|
    ensures |Fixed(es, timescale)| == |es|
    ensures Fixed(es, timescale)[k] ==
      if Stretched(es[k], timescale) then es[k].(duration := Interval(es[..k], timescale)) else es[k]
  {
    hide Interval;
    var init := es[..|es| - 1];
    if |es| > 1 { FixedAt(init, timescale, if k < |init| then k else 0); }
    if k < |init| { assert init[..k] == es[..k]; }
  }

  lemma {:induction false} NoFixes(frags: seq<Frag>, order: seq<int>, info: map<int, Track>)
    requires forall id | id in info :: Fixes(Flat(OfTrack(frags, id)), info[id].timescale) == map[]
    ensures AllFixes(frags, order, info) == map[]
  {
    hide Flat;
    hide OfTrack;
    hide Fixes;
    if order != [] { NoFixes(frags, order[..|order| - 1], info); }
  }

  /** A second run changes nothing. */
  lemma SecondRunChangesNothing(d: Bytes)
    requires Segment(d)
    ensures Repair(Repair(d).0) == (Repair(d).0, Untouched)
  {
    var d2 := Repair(d).0;
    RepairReads(d);
    var t, frags2 := ReadTracks(d, Boxes(d)), ReadFrags(d2, Boxes(d2));
    forall id | id in t.info ensures Fixes(Flat(OfTrack(frags2, id)), t.info[id].timescale) == map[] {
      TrackFixed(d, id);
      var es := Flat(OfTrack(ReadFrags(d, Boxes(d)), id));
      FixedBound(es, t.info[id].timescale);
      hide Boxes;
      hide Flat;
      hide OfTrack;
      hide Fixed;
      hide Fixes;
      hide SegmentFixes;
      hide RereadAll;
      forall e | e in Fixed(es, t.info[id].timescale) ensures !Stretched(e, t.info[id].timescale) {
        var k :| 0 <= k < |es| && Fixed(es, t.info[id].timescale)[k] == e;
        assert CutBack(es[k], e, t.info[id].timescale);
      }
      NothingStretched(Fixed(es, t.info[id].timescale), t.info[id].timescale);
    }
    NoFixes(frags2, t.order, t.info);
    RepairOfNothing(d2);
  }

  lemma RepairOfNothing(d: Bytes)
    requires SegmentFixes(d) == map[]
    ensures Repair(d) == (d, Untouched)
  {
  }

  /** The number in a field of four or eight bytes. */
  function FieldValue(d: Bytes, field: (nat, nat)): int {
    if field.1 == 8 then U64(d, field.0) else U32(d, field.0)
  }

  lemma MvhdWritten(d: Bytes, ms: int, at: nat, width: nat)
    requires 0 <= ms && at + width <= |d| && (width == 4 || width == 8)
    requires ms < if width == 4 then UINT32 else UINT32 * UINT32
    ensures FieldValue(Overlay(d, MvhdFixes(Some((at, width)), ms)), (at, width)) == ms
  {
    var n := MvhdFixes(Some((at, width)), ms);
    OverlayField(d, n, at);
    if width == 8 { OverlayField(d, n, at + 4); }
    hide Overlay;
    hide U32;
  }

  /** The movie duration written is that of the repaired samples: reading the
      repaired file anew gives the end the repair reports, and its mvhd holds it in
      milliseconds. */
  lemma MovieDurationMatches(d: Bytes)
    requires Segment(d) && Repair(d).1.Repaired?
    ensures var (d2, out) := Repair(d);
      var t := ReadTracks(d2, Boxes(d2));
      && out.endNs == EndNs(ReadFrags(d2, Boxes(d2)), t.order, t.info)
      && var field := MvhdField(d2, Boxes(d2));
         field.Some? ==> FieldValue(d2, field.value) == out.endNs / 1_000_000
  {
    RepairReads(d);
    RepairSteps(d);
    hide Repair;
    var field := MvhdField(d, Boxes(d));
    var t := ReadTracks(d, Boxes(d));
    EndNonNeg(RereadAll(ReadFrags(d, Boxes(d)), SegmentFixes(d)), t.order, t.info);
    if field.Some? {
      var b := MvhdInside(d, Boxes(d));
      WalkShape(d, 0, |d|, 0);
      hide Walk;
      MvhdWritten(Overlay(d, SegmentFixes(d)), MovieMs(d), field.value.0, field.value.1);
    }
    hide Overlay;
    hide Boxes;
    hide ReadTracks;
    hide ReadFrags;
    hide SegmentFixes;
    hide MvhdField;
    hide EndNs;
    hide FieldValue;
    hide Segment;
  }
}

/** The repair on the mapped file. */
module Repair {
  import opened Wrappers
  import opened RepairSpec
  import opened RepairProofs

  /** One more field rewritten, apart from those before. */
  lemma OverlayMore(d: Bytes, m: map<nat, int>, k: nat, v: int, x: nat)
    requires x < |d| && forall j | j in m :: j + 4 <= k || k + 4 <= j
    ensures Overlay(d, m[k := v])[x]
            == if k <= x < k + 4 then Part32(v, x - k) else Overlay(d, m)[x]
  {
    hide Part32;
  }

  /** struct.pack_into of a 32-bit number. */
  method PackInto(data: array<Byte>, ghost d: Bytes, ghost m: map<nat, int>, k: nat, v: int)
    requires k + 4 <= data.Length && data[..] == Overlay(d, m)
    requires forall j | j in m :: j + 4 <= k || k + 4 <= j
    modifies data
    ensures data[..] == Overlay(d, m[k := v])
  {
    data[k] := Part32(v, 0);
    data[k + 1] := Part32(v, 1);
    data[k + 2] := Part32(v, 2);
    data[k + 3] := Part32(v, 3);
    hide Part32;
    forall x | 0 <= x < |d| ensures data[..][x] == Overlay(d, m[k := v])[x] { OverlayMore(d, m, k, v, x); }
    hide Overlay;
  }

  /** What is known of one track's samples while the file is repaired. */
  ghost predicate Ready(d: Bytes, es: seq<Entry>, timescale: int, m: map<nat, int>) {
    && AllFit(d) && FromRuns(d, Boxes(d), es) && Rising(es) && timescale > 0
    && Agrees(m, es, Fixes(es, timescale))
  }

  /** The state of the work on one track: m0 are the fields of the tracks before it,
      m those of the whole file. */
  ghost predicate Working(d: Bytes, m0: map<nat, int>, m: map<nat, int>, es: seq<Entry>, timescale: int) {
    && Ready(d, es, timescale, m) && Timed(es) && 0 < timescale < UINT32
    && Touches(d, m0) && m0.Keys !! Offs(es)
  }

  /** A field not rewritten yet is apart from those that are. */
  lemma NextApart(d: Bytes, es: seq<Entry>, k: nat, timescale: int, m: map<nat, int>, done: map<nat, int>)
    requires Ready(d, es, timescale, m) && k < |es| && es[k].off.Some?
    requires Touches(d, done) && es[k].off.value !in done
    ensures forall j | j in done :: j + 4 <= es[k].off.value || es[k].off.value + 4 <= j
    ensures es[k].off.value + 4 <= |d|
  {
    assert es[k] in es;
    var b :| b in Boxes(d) && b.typ == TRUN && Field(d, b, es[k].off.value);
    forall j | j in done ensures j + 4 <= es[k].off.value || es[k].off.value + 4 <= j {
      var c :| c in Boxes(d) && Field(d, c, j);
      FieldsApart(d, b, c, es[k].off.value, j);
    }
    FieldInside(d, b, es[k].off.value);
    WalkShape(d, 0, |d|, 0);
  }

  /** What the final map holds for one sample. */
  lemma SeenIsFixed(es: seq<Entry>, k: nat, timescale: int, m: map<nat, int>)
    requires Rising(es) && Agrees(m, es, Fixes(es, timescale)) && k < |es|
    ensures Seen(es[k], m)
         == if Stretched(es[k], timescale) then es[k].(duration := Interval(es[..k], timescale)) else es[k]
  {
    RereadIsFixed(es, timescale, m);
    RereadAt(es, m, k);
    FixedAt(es, timescale, k);
    hide Interval;
    hide Seen;
  }

  lemma FixesStep(es: seq<Entry>, k: nat, timescale: int)
    requires k < |es|
    ensures Fixes(es[..k + 1], timescale) ==
      if Stretched(es[k], timescale) then Fixes(es[..k], timescale)[es[k].off.value := Interval(es[..k], timescale)]
      else Fixes(es[..k], timescale)
    ensures Previous(es[..k + 1], timescale) ==
      if !Stretched(es[k], timescale) && Sane(es[k], timescale) then es[k].duration else Previous(es[..k], timescale)
  {
    assert es[..k + 1][..k] == es[..k];
    hide Interval;
  }

  lemma FixesPrefix(es: seq<Entry>, k: nat, timescale: int)
    requires Rising(es) && k < |es| && es[k].off.Some?
    ensures es[k].off.value !in Fixes(es[..k], timescale)
  {
    FixesIn(es[..k], timescale);
    LastApart(es[..k + 1]);
    assert es[..k + 1][..k] == es[..k];
    hide Fixes;
  }

  lemma EndStep(base: int, es: seq<Entry>, i: nat, m: map<nat, int>, video: bool, end: int)
    requires i < |es|
    ensures var (dts, end1) := FragEnd(base, Reread(es[..i], m), video, end);
      var e := Seen(es[i], m);
      FragEnd(base, Reread(es[..i + 1], m), video, end)
      == (dts + e.duration, Max(Max(end1, dts + e.duration), if video then dts + e.cto + e.duration else 0))
  {
    assert es[..i + 1][..i] == es[..i];
    assert Reread(es[..i + 1], m) == Reread(es[..i], m) + [Seen(es[i], m)];
    assert Reread(es[..i + 1], m)[..i] == Reread(es[..i], m);
  }

  lemma FlatPrefix(frs: seq<Frag>, n: nat)
    requires n < |frs|
    ensures Flat(frs[..n + 1]) == Flat(frs[..n]) + frs[n].entries
  {
    assert frs[..n + 1][..n] == frs[..n];
  }

  lemma {:induction false} FlatSplit(frs: seq<Frag>, n: nat)
    requires n <= |frs|
    ensures Flat(frs[..n]) <= Flat(frs)
    decreases |frs| - n
  {
    if n < |frs| {
      FlatPrefix(frs, n);
      FlatSplit(frs, n + 1);
    } else {
      assert frs[..n] == frs;
    }
  }

  lemma TrackEndStep(frs: seq<Frag>, n: nat, m: map<nat, int>, video: bool)
    requires n < |frs|
    ensures TrackEnd(RereadAll(frs[..n + 1], m), video)
            == FragEnd(frs[n].base, Reread(frs[n].entries, m), video, TrackEnd(RereadAll(frs[..n], m), video)).1
  {
    assert frs[..n + 1][..n] == frs[..n];
    var a, f := RereadAll(frs[..n], m), frs[n].(entries := Reread(frs[n].entries, m));
    assert RereadAll(frs[..n + 1], m) == a + [f];
    assert (a + [f])[..|a|] == a;
    hide FragEnd;
  }

  lemma DoneTouches(d: Bytes, es: seq<Entry>, k: nat, timescale: int, m0: map<nat, int>)
    requires Touches(d, m0) && FromRuns(d, Boxes(d), es) && Timed(es) && 0 < timescale < UINT32 && k <= |es|
    ensures Touches(d, m0 + Fixes(es[..k], timescale))
  {
    FixesIn(es[..k], timescale);
    FixedBound(es[..k], timescale);
    hide Fixes;
    hide Fixed;
    hide Boxes;
    hide Field;
    forall j | j in Fixes(es[..k], timescale) ensures exists b | b in Boxes(d) :: Field(d, b, j) {
      assert j in Offs(es[..k]);
      var e :| e in es[..k] && e.off == Some(j);
      assert e in es;
    }
  }

  /** All that matters of one sample. */
  lemma SampleFacts(d: Bytes, es: seq<Entry>, k: nat, timescale: int, m0: map<nat, int>, m: map<nat, int>)
    requires k < |es| && Working(d, m0, m, es, timescale)
    ensures es[k].off.Some?
    ensures Seen(es[k], m).duration
            == if Stretched(es[k], timescale) then Interval(es[..k], timescale) else es[k].duration
    ensures var at := es[k].off.value;
      && at !in m0 && at !in Fixes(es[..k], timescale) && at + 4 <= |d|
      && forall j | j in m0 + Fixes(es[..k], timescale) :: j + 4 <= at || at + 4 <= j
  {
    DoneTouches(d, es, k, timescale, m0);
    SeenIsFixed(es, k, timescale, m);
    assert es[k] in es;
    assert es[k].off.value in Offs(es);
    FixesPrefix(es, k, timescale);
    hide Fixes;
    hide Previous;
    hide Interval;
    NextApart(d, es, k, timescale, m, m0 + Fixes(es[..k], timescale));
    hide Ready;
    hide Touches;
  }

  /** One sample: cut back when it is stretched, and what it tells of the frame
      interval otherwise. */
  method RepairSample(data: array<Byte>, ghost d: Bytes, ghost m0: map<nat, int>, ghost m: map<nat, int>,
                      ghost es: seq<Entry>, ghost k: nat, e: Entry, timescale: int, previous: int)
    returns (duration: int, next: int, capped: bool)
    requires k < |es| && es[k] == e && Working(d, m0, m, es, timescale) && previous == Previous(es[..k], timescale)
    requires data[..] == Overlay(d, m0 + Fixes(es[..k], timescale))
    modifies data
    ensures data[..] == Overlay(d, m0 + Fixes(es[..k + 1], timescale))
    ensures duration == Seen(e, m).duration && next == Previous(es[..k + 1], timescale)
    ensures capped <==> Stretched(e, timescale)
  {
    hide Fixes;
    hide Previous;
    hide Working;
    hide Overlay;
    hide Seen;
    SampleFacts(d, es, k, timescale, m0, m);
    FixesStep(es, k, timescale);
    ghost var before := Fixes(es[..k], timescale);
    duration, next, capped := e.duration, previous, false;
    if e.duration > GAP_SECONDS * timescale && e.off.Some? {
      duration := if previous > 0 then previous else Max(timescale / FALLBACK_FPS, 1);
      assert |data[..]| == |d|;
      PackInto(data, d, m0 + before, e.off.value, duration);
      assert (m0 + before)[e.off.value := duration] == m0 + before[e.off.value := duration];
      capped := true;
    } else if e.duration * MIN_FRAME >= timescale {
      next := e.duration;
    }
  }

  /** One fragment, whose samples come after the first start of its track's. */
  method RepairFrag(data: array<Byte>, ghost d: Bytes, ghost m0: map<nat, int>, ghost m: map<nat, int>,
                    ghost es: seq<Entry>, ghost start: nat, base: int, entries: seq<Entry>,
                    timescale: int, video: bool, previous0: int, end0: int)
    returns (previous: int, end: int, changed: bool)
    requires start + |entries| <= |es| && es[start..start + |entries|] == entries
    requires Working(d, m0, m, es, timescale) && previous0 == Previous(es[..start], timescale)
    requires data[..] == Overlay(d, m0 + Fixes(es[..start], timescale))
    modifies data
    ensures data[..] == Overlay(d, m0 + Fixes(es[..start + |entries|], timescale))
    ensures previous == Previous(es[..start + |entries|], timescale)
    ensures end == FragEnd(base, Reread(entries, m), video, end0).1
    ensures changed || Fixes(es[..start], timescale) != map[] <==> Fixes(es[..start + |entries|], timescale) != map[]
  {
    hide Fixes;
    hide Previous;
    hide Working;
    hide Overlay;
    hide FragEnd;
    hide Reread;
    hide Interval;
    hide Seen;
    var dts := base;
    previous, end, changed := previous0, end0, false;
    NothingYet(base, entries, m, video, end);
    for i := 0 to |entries|
      invariant previous == Previous(es[..start + i], timescale)
      invariant data[..] == Overlay(d, m0 + Fixes(es[..start + i], timescale))
      invariant (dts, end) == FragEnd(base, Reread(entries[..i], m), video, end0)
      invariant changed || Fixes(es[..start], timescale) != map[] <==> Fixes(es[..start + i], timescale) != map[]
    {
      var e := entries[i];
      ghost var k := start + i;
      assert es[k] == es[start..start + |entries|][i] == e;
      FixesStep(es, k, timescale);
      EndStep(base, entries, i, m, video, end0);
      SeenCto(e, m);
      var duration, next, capped := RepairSample(data, d, m0, m, es, k, e, timescale, previous);
      if capped { assert e.off.value in Fixes(es[..k + 1], timescale); }
      previous := next;
      changed := changed || capped;
      end := Max(Max(end, dts + duration), if video then dts + e.cto + duration else 0);
      dts := dts + duration;
    }
    assert entries[..|entries|] == entries;
  }

  lemma SeenCto(e: Entry, m: map<nat, int>)
    ensures Seen(e, m).cto == e.cto
  {
  }

  /** One track: its samples cut back in the file, and the end of its media. */
  method RepairTrack(data: array<Byte>, ghost d: Bytes, ghost m0: map<nat, int>, ghost m: map<nat, int>,
                     frs: seq<Frag>, timescale: int, video: bool)
    returns (end: int, changed: bool)
    requires Working(d, m0, m, Flat(frs), timescale) && data[..] == Overlay(d, m0)
    modifies data
    ensures data[..] == Overlay(d, m0 + Fixes(Flat(frs), timescale))
    ensures end == TrackEnd(RereadAll(frs, m), video)
    ensures changed <==> Fixes(Flat(frs), timescale) != map[]
  {
    hide *;
    ghost var es := Flat(frs);
    var previous := 0;
    end, changed := 0, false;
    NoneYet(frs, m, timescale, video);
    assert es[..0] == [] && m0 + map[] == m0;
    ghost var k: nat := 0;
    for n := 0 to |frs|
      invariant k <= |es| && Flat(frs[..n]) == es[..k]
      invariant previous == Previous(es[..k], timescale)
      invariant data[..] == Overlay(d, m0 + Fixes(es[..k], timescale))
      invariant end == TrackEnd(RereadAll(frs[..n], m), video)
      invariant changed <==> Fixes(es[..k], timescale) != map[]
    {
      var entries := frs[n].entries;
      FragSlice(frs, n, k);
      TrackEndStep(frs, n, m, video);
      var capped;
      previous, end, capped := RepairFrag(data, d, m0, m, es, k, frs[n].base, entries, timescale, video, previous, end);
      changed := changed || capped;
      k := k + |entries|;
    }
    assert frs[..|frs|] == frs && es[..|es|] == es;
  }

  /** Where a fragment's samples stand among its track's. */
  lemma FragSlice(frs: seq<Frag>, n: nat, k: nat)
    requires n < |frs| && k <= |Flat(frs)| && Flat(frs[..n]) == Flat(frs)[..k]
    ensures var es, entries := Flat(frs), frs[n].entries;
      k + |entries| <= |es| && es[k..k + |entries|] == entries && Flat(frs[..n + 1]) == es[..k + |entries|]
  {
    FlatPrefix(frs, n);
    FlatSplit(frs, n + 1);
    hide Flat;
    var es, entries := Flat(frs), frs[n].entries;
    assert Flat(frs[..n + 1]) == es[..k] + entries;
    assert |Flat(frs[..n + 1])| == k + |entries|;
    assert es[..k + |entries|] == Flat(frs[..n + 1]);
    SliceAfter(es, k, entries);
  }

  lemma SliceAfter<T>(s: seq<T>, k: nat, part: seq<T>)
    requires k + |part| <= |s| && s[..k + |part|] == s[..k] + part
    ensures s[k..k + |part|] == part
  {
    assert s[k..k + |part|] == s[..k + |part|][k..];
  }

  lemma NoneYet(frs: seq<Frag>, m: map<nat, int>, timescale: int, video: bool)
    ensures Flat(frs[..0]) == [] && TrackEnd(RereadAll(frs[..0], m), video) == 0
    ensures Fixes([], timescale) == map[] && Previous([], timescale) == 0
  {
  }

  lemma NothingYet(base: int, entries: seq<Entry>, m: map<nat, int>, video: bool, end: int)
    ensures FragEnd(base, Reread(entries[..0], m), video, end) == (base, end)
  {
  }

  /** One more track of the dictionary. */
  lemma OrderStep(frags: seq<Frag>, order: seq<int>, info: map<int, Track>, n: nat)
    requires n < |order| && order[n] in info
    ensures AllFixes(frags, order[..n + 1], info)
            == AllFixes(frags, order[..n], info) + Fixes(Flat(OfTrack(frags, order[n])), info[order[n]].timescale)
  {
    assert order[..n + 1][..n] == order[..n];
    hide Fixes;
  }

  lemma EndNsStep(frags: seq<Frag>, order: seq<int>, info: map<int, Track>, n: nat)
    requires n < |order|
    ensures EndNs(frags, order[..n + 1], info) ==
      var end, id := EndNs(frags, order[..n], info), order[n];
      if id in info && OfTrack(frags, id) != [] && info[id].timescale > 0 then
        Max(end, TrackEnd(OfTrack(frags, id), info[id].handler == VIDE) * 1_000_000_000 / info[id].timescale)
      else end
  {
    assert order[..n + 1][..n] == order[..n];
    hide TrackEnd;
  }

  /** A track whose turn has not come is untouched. */
  lemma {:induction false} OthersApart(frags: seq<Frag>, boxes: seq<Box>, order: seq<int>, info: map<int, Track>,
      id: int)
    requires Settled(frags, boxes) && id !in order
    ensures AllFixes(frags, order, info).Keys !! Offs(Flat(OfTrack(frags, id)))
  {
    hide Fixes;
    if order != [] {
      var last := Last(order);
      OthersApart(frags, boxes, order[..|order| - 1], info, id);
      assert last in order;
      if last in info { FixesIn(Flat(OfTrack(frags, last)), info[last].timescale); }
    }
  }

  ghost predicate Listed(t: Tracks) {
    && (forall id :: id in t.order <==> id in t.info)
    && (forall i, j | 0 <= i < j < |t.order| :: t.order[i] != t.order[j])
  }

  lemma CompleteLists(t: Tracks, current: Option<Current>)
    requires Listed(t)
    ensures Listed(Complete(t, current))
  {
    var t1 := Complete(t, current);
    if t1.order != t.order {
      assert t1.order == t.order + [Last(t1.order)];
    }
  }

  /** The dictionary lists every track once. */
  lemma {:induction false} OrderDistinct(d: Bytes, boxes: seq<Box>)
    ensures Listed(ReadTracks(d, boxes))
  {
    hide ReadBox;
    hide Complete;
    if boxes != [] {
      OrderDistinct(d, boxes[..|boxes| - 1]);
      var t := ReadTracks(d, boxes[..|boxes| - 1]);
      CompleteLists(t, ReadBox(d, Last(boxes), t.current));
    }
  }

  /** What repairing one track needs, and leaves for the next. */
  lemma TrackReady(d: Bytes, n: nat)
    requires Segment(d) && n < |ReadTracks(d, Boxes(d)).order|
    ensures var t, frags := ReadTracks(d, Boxes(d)), ReadFrags(d, Boxes(d));
      var id := t.order[n];
      && id in t.info && t.info[id].timescale > 0
      && Working(d, AllFixes(frags, t.order[..n], t.info), SegmentFixes(d), Flat(OfTrack(frags, id)),
        t.info[id].timescale)
  {
    var t, frags := ReadTracks(d, Boxes(d)), ReadFrags(d, Boxes(d));
    var id := t.order[n];
    OrderDistinct(d, Boxes(d));
    TimescalesFit(d, Boxes(d));
    FragsTimed(d);
    FlatOfTrack(frags, id);
    assert id in t.order;
    assert id !in t.order[..n];
    AllFixesAgree(frags, Boxes(d), t.order, t.info, id);
    OthersApart(frags, Boxes(d), t.order[..n], t.info, id);
    AllFixesTouch(d, frags, t.order[..n], t.info);
    assert Rising(Flat(OfTrack(frags, id)));
    hide Boxes;
    hide ReadTracks;
    hide ReadFrags;
    hide AllFixes;
    hide Flat;
    hide OfTrack;
    hide Settled;
    hide Field;
  }

  /** The loop over the tracks. */
  method RepairTracks(data: array<Byte>, ghost d: Bytes, t: Tracks, frags: seq<Frag>)
      returns (endNs: int, changed: bool)
    requires Segment(d) && data[..] == d && t == ReadTracks(d, Boxes(d)) && frags == ReadFrags(d, Boxes(d))
    modifies data
    ensures data[..] == Overlay(d, SegmentFixes(d))
    ensures endNs == EndNs(RereadAll(frags, SegmentFixes(d)), t.order, t.info)
    ensures changed <==> SegmentFixes(d) != map[]
  {
    hide *;
    ghost var m := SegmentFixes(d);
    FixesOf(d);
    OverlayNothing(d);
    NoTracksYet(frags, t.info, m);
    assert t.order[..|t.order|] == t.order && t.order[..0] == [];
    endNs, changed := 0, false;
    for n := 0 to |t.order|
      invariant data[..] == Overlay(d, AllFixes(frags, t.order[..n], t.info))
      invariant endNs == EndNs(RereadAll(frags, m), t.order[..n], t.info)
      invariant changed <==> AllFixes(frags, t.order[..n], t.info) != map[]
    {
      var id := t.order[n];
      ghost var done := AllFixes(frags, t.order[..n], t.info);
      TrackReady(d, n);
      OrderStep(frags, t.order, t.info, n);
      EndNsStep(RereadAll(frags, m), t.order, t.info, n);
      TrackRereads(frags, m, id);
      var track := t.info[id];
      var frs := OfTrack(frags, id);
      if frs != [] {
        var end, capped := RepairTrack(data, d, done, m, frs, track.timescale, track.handler == VIDE);
        changed := changed || capped;
        endNs := Max(endNs, end * 1_000_000_000 / track.timescale);
      } else {
        NoFragsNoFixes(track.timescale);
        assert done + map[] == done;
      }
    }
  }

  lemma TrackRereads(frags: seq<Frag>, m: map<nat, int>, id: int)
    ensures OfTrack(RereadAll(frags, m), id) == RereadAll(OfTrack(frags, id), m)
    ensures OfTrack(RereadAll(frags, m), id) == [] <==> OfTrack(frags, id) == []
  {
    RereadAllParts(frags, m, id);
    RereadAllParts(OfTrack(frags, id), m, id);
  }

  lemma FixesOf(d: Bytes)
    requires Segment(d)
    ensures var t := ReadTracks(d, Boxes(d));
      SegmentFixes(d) == AllFixes(ReadFrags(d, Boxes(d)), t.order, t.info)
  {
  }

  lemma NoFragsNoFixes(timescale: int)
    ensures Fixes(Flat([]), timescale) == map[]
  {
  }

  lemma OverlayNothing(d: Bytes)
    ensures Overlay(d, map[]) == d
  {
  }

  lemma NoTracksYet(frags: seq<Frag>, info: map<int, Track>, m: map<nat, int>)
    ensures AllFixes(frags, [], info) == map[] && EndNs(RereadAll(frags, m), [], info) == 0
  {
  }

  /** pack_into of the movie duration, of four bytes or of eight. */
  method WriteDuration(data: array<Byte>, at: nat, width: nat, ms: int)
    requires (width == 4 || width == 8) && at + width <= data.Length
    modifies data
    ensures data[..] == Overlay(old(data[..]), MvhdFixes(Some((at, width)), ms))
  {
    ghost var d := data[..];
    OverlayNothing(d);
    hide Overlay;
    if width == 8 {
      PackInto(data, d, map[], at, ms / UINT32);
      PackInto(data, d, map[at := ms / UINT32], at + 4, ms % UINT32);
    } else {
      PackInto(data, d, map[], at, ms);
    }
  }

  /** repair_file, not dry. */
  method RepairMapped(data: array<Byte>) returns (out: Outcome)
    requires Segment(data[..])
    modifies data
    ensures (data[..], out) == RepairSpec.Repair(old(data[..]))
  {
    ghost var d := data[..];
    RepairSteps(d);
    FixedReads(d);
    MvhdWidth(d, Boxes(d));
    FieldFits(d);
    OverlayNothing(d);
    EndNonNeg(RereadAll(ReadFrags(d, Boxes(d)), SegmentFixes(d)), ReadTracks(d, Boxes(d)).order,
      ReadTracks(d, Boxes(d)).info);
    hide Repair;
    hide Segment;
    hide Boxes;
    hide ReadTracks;
    hide ReadFrags;
    hide SegmentFixes;
    hide MvhdField;
    hide AllFit;
    hide Touches;
    hide RereadAll;
    hide EndNs;
    hide Overlay;
    var boxes := Boxes(data[..]);
    var t, frags := ReadTracks(data[..], boxes), ReadFrags(data[..], boxes);
    var endNs, changed := RepairTracks(data, d, t, frags);
    if !changed { return Untouched; }
    var field, ms := MvhdField(data[..], Boxes(data[..])), endNs / 1_000_000;
    if field.Some? {
      var (at, width) := field.value;
      if ms >= (if width == 4 then UINT32 else UINT32 * UINT32) { return Raises; }
      WriteDuration(data, at, width, ms);
    } else {
      OverlayNothing(data[..]);
    }
    out := Repaired(endNs);
  }

  lemma FieldFits(d: Bytes)
    requires Segment(d)
    ensures var field := MvhdField(d, Boxes(d)); field.Some? ==> field.value.0 + field.value.1 <= |d|
  {
    if MvhdField(d, Boxes(d)).Some? {
      var b := MvhdInside(d, Boxes(d));
      WalkShape(d, 0, |d|, 0);
      hide Walk;
    }
  }
}
