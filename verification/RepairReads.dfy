/** What the repair tool reads is what a writer of the format put there: boxes
    (section 4.2 of ISO/IEC 14496-12) and the fields the tool uses. */
module RepairReads {
  import opened Wrappers
  import opened RepairSpec
  import opened RepairProofs

  // ----- bytes -----

  function Be32(v: int): (b: Bytes)
    requires 0 <= v < UINT32
    ensures |b| == 4
  {
    [v / 0x100_0000, v / 0x1_0000 % 256, v / 0x100 % 256, v % 256]
  }

  /** A version and 24 bits of flags. */
  function FullBox(version: Byte, flags: int): (b: Bytes)
    requires 0 <= flags < 0x100_0000
    ensures |b| == 4
  {
    [version, flags / 0x1_0000, flags / 0x100 % 256, flags % 256]
  }

  predicate Placed(d: Bytes, at: int, s: Bytes) {
    0 <= at && at + |s| <= |d| && d[at..at + |s|] == s
  }

  lemma PlacedParts(d: Bytes, at: int, a: Bytes, b: Bytes)
    requires Placed(d, at, a + b)
    ensures Placed(d, at, a) && Placed(d, at + |a|, b)
  {
    var s := d[at..at + |a + b|];
    assert d[at..at + |a|] == s[..|a|] && (a + b)[..|a|] == a;
    assert d[at + |a|..at + |a| + |b|] == s[|a|..] && (a + b)[|a|..] == b;
  }

  lemma FourParts(d: Bytes, at: int, a: Bytes, b: Bytes, c: Bytes, e: Bytes)
    requires Placed(d, at, a + b + c + e)
    ensures Placed(d, at, a) && Placed(d, at + |a|, b)
    ensures Placed(d, at + |a| + |b|, c) && Placed(d, at + |a| + |b| + |c|, e)
  {
    hide Placed;
    PlacedParts(d, at, a + b + c, e);
    PlacedParts(d, at, a + b, c);
    PlacedParts(d, at, a, b);
  }

  lemma Be32Reads(d: Bytes, at: int, v: int)
    requires 0 <= v < UINT32 && Placed(d, at, Be32(v))
    ensures U32(d, at) == v
  {
    var s := d[at..at + 4];
    assert s[0] == d[at] && s[1] == d[at + 1] && s[2] == d[at + 2] && s[3] == d[at + 3];
    var q1, q2, q3 := v / 0x100, v / 0x1_0000, v / 0x100_0000;
    assert q1 / 0x100 == q2 && q2 / 0x100 == q3;
    assert v == 0x100 * q1 + v % 256 && q1 == 0x100 * q2 + q1 % 256 && q2 == 0x100 * q3 + q2 % 256;
  }

  lemma FullBoxReads(d: Bytes, b: Box, version: Byte, flags: int)
    requires 0 <= flags < 0x100_0000 && Placed(d, b.p + b.hdr, FullBox(version, flags))
    ensures Version(d, b) == version && Flags(d, b) == flags
  {
    var at := b.p + b.hdr;
    var s := d[at..at + 4];
    assert s[0] == d[at] && s[1] == d[at + 1] && s[2] == d[at + 2] && s[3] == d[at + 3];
    var q1 := flags / 0x100;
    assert q1 / 0x100 == flags / 0x1_0000 && flags == 0x100 * q1 + flags % 256;
    assert q1 == 0x100 * (q1 / 0x100) + q1 % 256;
  }

  // ----- trun -----

  /** A sample as a trun holds it; which of the four words depends on the flags. */
  datatype Sample = Sample(duration: int, size: int, flags: int, cto: int)

  predicate Fits32(s: Sample, version: Byte) {
    && 0 <= s.duration < UINT32 && 0 <= s.size < UINT32 && 0 <= s.flags < UINT32
    && (if version == 1 then -0x8000_0000 <= s.cto < 0x8000_0000 else 0 <= s.cto < UINT32)
  }

  /** A word that is there or not. */
  function Given(there: bool, word: Bytes): (b: Bytes)
    ensures b == if there then word else []
  {
    if there then word else []
  }

  function SampleBytes(s: Sample, version: Byte, flags: int): (b: Bytes)
    requires Fits32(s, version)
    ensures |b| == EntrySize(flags)
  {
    Given(Bit(flags, 0x100), Be32(s.duration)) + Given(Bit(flags, 0x200), Be32(s.size))
    + Given(Bit(flags, 0x400), Be32(s.flags)) + Given(Bit(flags, 0x800), SignedBytes(s.cto))
  }

  function SamplesBytes(list: seq<Sample>, version: Byte, flags: int): Bytes
    requires forall s | s in list :: Fits32(s, version)
  {
    if list == [] then []
    else
      assert forall s | s in list[..|list| - 1] :: s in list;
      SamplesBytes(list[..|list| - 1], version, flags) + SampleBytes(list[|list| - 1], version, flags)
  }

  function TrunBytes(version: Byte, flags: int, dataOffset: int, firstFlags: int, list: seq<Sample>): Bytes
    requires 0 <= flags < 0x100_0000 && |list| < UINT32 && forall s | s in list :: Fits32(s, version)
    requires 0 <= dataOffset < UINT32 && 0 <= firstFlags < UINT32
  {
    FullBox(version, flags) + Be32(|list|) + OptionBytes(flags, dataOffset, firstFlags)
    + SamplesBytes(list, version, flags)
  }

  lemma {:induction false} SamplesLength(list: seq<Sample>, version: Byte, flags: int)
    requires forall s | s in list :: Fits32(s, version)
    ensures |SamplesBytes(list, version, flags)| == |list| * EntrySize(flags)
  {
    hide SampleBytes;
    hide EntrySize;
    hide Fits32;
    if list != [] {
      var init := list[..|list| - 1];
      assert forall s | s in init :: s in list;
      SamplesLength(init, version, flags);
      OneMore(|init|, EntrySize(flags));
    }
  }

  lemma OneMore(n: nat, size: nat)
    ensures (n + 1) * size == n * size + size
  {
  }

  /** The k-th sample is where the ones before it end. */
  lemma {:induction false} SampleAt(d: Bytes, at: int, list: seq<Sample>, version: Byte, flags: int, k: nat)
    requires k < |list| && (forall s | s in list :: Fits32(s, version))
    requires Placed(d, at, SamplesBytes(list, version, flags))
    ensures Placed(d, at + k * EntrySize(flags), SampleBytes(list[k], version, flags))
  {
    hide SampleBytes;
    hide EntrySize;
    hide Fits32;
    hide Placed;
    var init := list[..|list| - 1];
    assert forall s | s in init :: s in list;
    PlacedParts(d, at, SamplesBytes(init, version, flags), SampleBytes(list[|list| - 1], version, flags));
    SamplesLength(init, version, flags);
    if k < |init| { SampleAt(d, at, init, version, flags, k); }
  }

  function SignedBytes(cto: int): (b: Bytes)
    requires -0x8000_0000 <= cto < UINT32
    ensures |b| == 4
  {
    Be32(if cto < 0 then cto + UINT32 else cto)
  }

  /** Where a sample's first and last words are. */
  lemma SampleParts(d: Bytes, at: int, s: Sample, version: Byte, flags: int)
    requires Fits32(s, version) && Placed(d, at, SampleBytes(s, version, flags))
    ensures Placed(d, at, Given(Bit(flags, 0x100), Be32(s.duration)))
    ensures Placed(d, at + Word(flags, 0x100) + Word(flags, 0x200) + Word(flags, 0x400),
                   Given(Bit(flags, 0x800), SignedBytes(s.cto)))
  {
    hide Be32;
    hide SignedBytes;
    hide Bit;
    hide Placed;
    var w1, w2 := Given(Bit(flags, 0x100), Be32(s.duration)), Given(Bit(flags, 0x200), Be32(s.size));
    var w3, w4 := Given(Bit(flags, 0x400), Be32(s.flags)), Given(Bit(flags, 0x800), SignedBytes(s.cto));
    assert |w1| == Word(flags, 0x100) && |w2| == Word(flags, 0x200) && |w3| == Word(flags, 0x400);
    hide Given;
    hide Word;
    FourParts(d, at, w1, w2, w3, w4);
  }

  /** One sample's duration and composition offset. */
  lemma SampleReads(d: Bytes, b: Box, at: int, s: Sample, version: Byte, flags: int)
    requires Fits32(s, version) && Version(d, b) == version && Placed(d, at, SampleBytes(s, version, flags))
    ensures Bit(flags, 0x100) ==> U32(d, at) == s.duration && Placed(d, at, Be32(s.duration))
    ensures Bit(flags, 0x800) ==> Cto(d, b, at + EntrySize(flags) - 4) == s.cto
  {
    hide SampleBytes;
    hide Bit;
    hide Be32;
    hide U32;
    hide Placed;
    hide Version;
    SampleParts(d, at, s, version, flags);
    if Bit(flags, 0x100) { Be32Reads(d, at, s.duration); }
    if Bit(flags, 0x800) { Be32Reads(d, at + EntrySize(flags) - 4, if s.cto < 0 then s.cto + UINT32 else s.cto); }
  }

  function OptionBytes(flags: int, dataOffset: int, firstFlags: int): (b: Bytes)
    requires 0 <= dataOffset < UINT32 && 0 <= firstFlags < UINT32
    ensures |b| == Word(flags, 1) + Word(flags, 4)
  {
    Given(Bit(flags, 1), Be32(dataOffset)) + Given(Bit(flags, 4), Be32(firstFlags))
  }

  /** A trun's head, and where its samples are. */
  lemma TrunPlaced(d: Bytes, at: int, version: Byte, flags: int, dataOffset: int, firstFlags: int, list: seq<Sample>)
    requires 0 <= flags < 0x100_0000 && |list| < UINT32 && forall s | s in list :: Fits32(s, version)
    requires 0 <= dataOffset < UINT32 && 0 <= firstFlags < UINT32
    requires Placed(d, at, TrunBytes(version, flags, dataOffset, firstFlags, list))
    ensures Placed(d, at, FullBox(version, flags)) && Placed(d, at + 4, Be32(|list|))
    ensures Placed(d, at + 8 + Word(flags, 1) + Word(flags, 4), SamplesBytes(list, version, flags))
  {
    hide FullBox;
    hide Be32;
    hide OptionBytes;
    hide SamplesBytes;
    hide Placed;
    var head, count := FullBox(version, flags), Be32(|list|);
    var opts, body := OptionBytes(flags, dataOffset, firstFlags), SamplesBytes(list, version, flags);
    assert TrunBytes(version, flags, dataOffset, firstFlags, list) == head + (count + (opts + body));
    PlacedParts(d, at, head, count + (opts + body));
    PlacedParts(d, at + 4, count, opts + body);
    PlacedParts(d, at + 8, opts, body);
    hide Word;
  }

  lemma TrunParts(d: Bytes, b: Box, version: Byte, flags: int, dataOffset: int, firstFlags: int, list: seq<Sample>)
    requires 0 <= flags < 0x100_0000 && |list| < UINT32 && forall s | s in list :: Fits32(s, version)
    requires 0 <= dataOffset < UINT32 && 0 <= firstFlags < UINT32
    requires Placed(d, b.p + b.hdr, TrunBytes(version, flags, dataOffset, firstFlags, list))
    ensures Version(d, b) == version && Flags(d, b) == flags && Count(d, b) == |list|
    ensures Placed(d, FirstEntry(flags, b), SamplesBytes(list, version, flags))
  {
    hide FullBox;
    hide Be32;
    hide TrunBytes;
    hide SamplesBytes;
    hide Placed;
    hide U32;
    hide Word;
    TrunPlaced(d, b.p + b.hdr, version, flags, dataOffset, firstFlags, list);
    FullBoxReads(d, b, version, flags);
    Be32Reads(d, b.p + b.hdr + 4, |list|);
    hide Version;
    hide Flags;
  }

  /** A trun is read as its samples: each duration that is there with where it is
      stored, and each composition offset, signed in version 1. */
  lemma TrunReads(d: Bytes, b: Box, version: Byte, flags: int, dataOffset: int, firstFlags: int, list: seq<Sample>,
                  fallback: int, k: nat)
    requires 0 <= flags < 0x100_0000 && |list| < UINT32 && k < |list| && forall s | s in list :: Fits32(s, version)
    requires 0 <= dataOffset < UINT32 && 0 <= firstFlags < UINT32 && EntrySize(flags) > 0
    requires Placed(d, b.p + b.hdr, TrunBytes(version, flags, dataOffset, firstFlags, list))
    ensures var es := EntriesOf(d, b, fallback);
      && |es| == |list|
      && es[k].duration == (if Bit(flags, 0x100) then list[k].duration else fallback)
      && es[k].cto == (if Bit(flags, 0x800) then list[k].cto else 0)
      && (es[k].off.Some? <==> Bit(flags, 0x100))
      && (es[k].off.Some? ==> Placed(d, es[k].off.value, Be32(list[k].duration)))
  {
    hide *;
    TrunParts(d, b, version, flags, dataOffset, firstFlags, list);
    SampleAt(d, FirstEntry(flags, b), list, version, flags, k);
    SampleReads(d, b, FirstEntry(flags, b) + k * EntrySize(flags), list[k], version, flags);
    EntriesAre(d, b, fallback, flags, k);
  }

  /** The k-th entry of a trun with these flags. */
  lemma EntriesAre(d: Bytes, b: Box, fallback: int, flags: int, k: nat)
    requires Flags(d, b) == flags && EntrySize(flags) > 0 && k < Count(d, b)
    ensures var es, at := EntriesOf(d, b, fallback), FirstEntry(flags, b) + k * EntrySize(flags);
      && |es| == Count(d, b)
      && es[k].duration == (if Bit(flags, 0x100) then U32(d, at) else fallback)
      && es[k].off == (if Bit(flags, 0x100) then Some(at) else None)
      && es[k].cto == (if Bit(flags, 0x800) then Cto(d, b, at + EntrySize(flags) - 4) else 0)
  {
    hide U32;
    hide Bit;
    hide EntrySize;
    hide FirstEntry;
    hide Count;
    hide Cto;
    hide Flags;
  }

  // ----- the other boxes -----

  /** A tkhd or mdhd: version, flags, two times of the version's size, and the track's id
      or its clock. */
  lemma HeaderReads(d: Bytes, b: Box, version: Byte, flags: int, times: Bytes, value: int, rest: Bytes,
                    current: Current)
    requires 0 <= flags < 0x100_0000 && 0 <= value < UINT32 && |times| == if version == 1 then 16 else 8
    requires Placed(d, b.p + b.hdr, FullBox(version, flags) + times + Be32(value) + rest)
    ensures b.typ == TKHD ==> ReadBox(d, b, Some(current)) == Some(current.(id := Some(value)))
    ensures b.typ == MDHD ==> ReadBox(d, b, Some(current)) == Some(current.(timescale := Some(value)))
  {
    var at := b.p + b.hdr;
    hide FullBox;
    hide Be32;
    hide Placed;
    var head, v := FullBox(version, flags), Be32(value);
    assert head + times + v + rest == head + (times + (v + rest));
    PlacedParts(d, at, head, times + (v + rest));
    PlacedParts(d, at + 4, times, v + rest);
    PlacedParts(d, at + 4 + |times|, v, rest);
    FullBoxReads(d, b, version, flags);
    Be32Reads(d, at + 4 + |times|, value);
    hide U32;
    hide Version;
  }

  /** A handler box: four bytes it does not define, then the handler's type. */
  lemma HandlerReads(d: Bytes, b: Box, version: Byte, flags: int, handler: int, rest: Bytes, current: Current)
    requires 0 <= flags < 0x100_0000 && 0 <= handler < UINT32 && b.typ == HDLR
    requires Placed(d, b.p + b.hdr, FullBox(version, flags) + Be32(0) + Be32(handler) + rest)
    ensures ReadBox(d, b, Some(current)) == Some(current.(handler := Some(handler)))
  {
    var at := b.p + b.hdr;
    hide FullBox;
    hide Be32;
    hide Placed;
    var head, z, v := FullBox(version, flags), Be32(0), Be32(handler);
    assert head + z + v + rest == head + (z + (v + rest));
    PlacedParts(d, at, head, z + (v + rest));
    PlacedParts(d, at + 4, z, v + rest);
    PlacedParts(d, at + 8, v, rest);
    Be32Reads(d, at + 8, handler);
    hide U32;
  }

  /** A fragment's header: the track, then those of the defaults its flags announce; a
      sample without a duration gets the default one, or none. */
  lemma FragmentReads(d: Bytes, b: Box, version: Byte, flags: int, id: int, offset: Bytes, description: Bytes,
                      duration: int, rest: Bytes, f: Frag)
    requires 0 <= flags < 0x100_0000 && 0 <= id < UINT32 && 0 <= duration < UINT32 && b.typ == TFHD
    requires |offset| == (if Bit(flags, 1) then 8 else 0) && |description| == if Bit(flags, 2) then 4 else 0
    requires Placed(d, b.p + b.hdr, FullBox(version, flags) + Be32(id) + offset
                                    + (description + Given(Bit(flags, 8), Be32(duration)) + rest))
    ensures ReadPart(d, b, f) == f.(track := Some(id), fallback := if Bit(flags, 8) then duration else 0)
  {
    var at := b.p + b.hdr;
    hide FullBox;
    hide Be32;
    hide Placed;
    hide Bit;
    var v := Given(Bit(flags, 8), Be32(duration));
    FourParts(d, at, FullBox(version, flags), Be32(id), offset, description + v + rest);
    assert description + v + rest == description + (v + rest);
    PlacedParts(d, at + 8 + |offset|, description, v + rest);
    PlacedParts(d, at + 8 + |offset| + |description|, v, rest);
    FullBoxReads(d, b, version, flags);
    Be32Reads(d, at + 4, id);
    if Bit(flags, 8) { Be32Reads(d, at + 8 + |offset| + |description|, duration); }
    hide U32;
    hide Flags;
    hide Version;
  }

  /** A fragment's base time, of 64 bits in version 1. */
  lemma BaseReads(d: Bytes, b: Box, version: Byte, flags: int, high: int, low: int, rest: Bytes, f: Frag)
    requires 0 <= flags < 0x100_0000 && 0 <= high < UINT32 && 0 <= low < UINT32 && b.typ == TFDT
    requires Placed(d, b.p + b.hdr,
                    FullBox(version, flags) + (if version == 1 then Be32(high) else []) + Be32(low) + rest)
    ensures ReadPart(d, b, f) == f.(base := if version == 1 then high * UINT32 + low else low)
  {
    var at := b.p + b.hdr;
    hide FullBox;
    hide Be32;
    hide Placed;
    var head, h, l := FullBox(version, flags), if version == 1 then Be32(high) else [], Be32(low);
    assert head + h + l + rest == head + (h + (l + rest));
    PlacedParts(d, at, head, h + (l + rest));
    PlacedParts(d, at + 4, h, l + rest);
    PlacedParts(d, at + 4 + |h|, l, rest);
    FullBoxReads(d, b, version, flags);
    if version == 1 { Be32Reads(d, at + 4, high); }
    Be32Reads(d, at + 4 + |h|, low);
    hide U32;
    hide Version;
  }

  // ----- the box tree -----

  /** A box with a header of 8 bytes, or of 16 for a 64-bit size. */
  datatype Tree = Leaf(typ: int, long: bool, body: Bytes) | Node(typ: int, long: bool, kids: seq<Tree>)

  function HeadBytes(typ: int, long: bool, n: nat): (b: Bytes)
    requires 0 <= typ < UINT32 && n + 16 < UINT32
    ensures |b| == if long then 16 else 8
  {
    if long then Be32(1) + Be32(typ) + Be32(0) + Be32(n + 16) else Be32(n + 8) + Be32(typ)
  }

  /** Types are four bytes, sizes fit 32 bits, and containers hold boxes. */
  ghost predicate Writable(t: Tree) {
    && 0 <= t.typ < UINT32 && (t.Node? <==> Container(t.typ)) && |Body(t)| + 16 < UINT32
    && (t.Node? ==> AllWritable(t.kids))
  }

  ghost predicate AllWritable(list: seq<Tree>) {
    list == [] || (Writable(list[0]) && AllWritable(list[1..]))
  }

  /** What is behind a box's header; a size that does not fit is written as 0. */
  function Body(t: Tree): Bytes
    decreases t, 0
  {
    match t
    case Leaf(_, _, body) => body
    case Node(_, _, kids) => ListBytes(kids)
  }

  function TreeBytes(t: Tree): Bytes
    decreases t, 1
  {
    var body := Body(t);
    (if 0 <= t.typ < UINT32 && |body| + 16 < UINT32 then HeadBytes(t.typ, t.long, |body|) else []) + body
  }

  function ListBytes(list: seq<Tree>): Bytes {
    if list == [] then [] else TreeBytes(list[0]) + ListBytes(list[1..])
  }

  /** The boxes of a tree whose first byte is at p. */
  function TreeBoxes(t: Tree, p: nat, parent: int): seq<Box>
    decreases t, 1
  {
    var hdr := if t.long then 16 else 8;
    [Box(p, hdr + |Body(t)|, t.typ, hdr, parent)] + if t.Node? then ListBoxes(t.kids, p + hdr, t.typ) else []
  }

  function ListBoxes(list: seq<Tree>, p: nat, parent: int): seq<Box> {
    if list == [] then []
    else TreeBoxes(list[0], p, parent) + ListBoxes(list[1..], p + |TreeBytes(list[0])|, parent)
  }

  lemma HeadReads(d: Bytes, p: nat, end: nat, parent: int, typ: int, long: bool, n: nat)
    requires 0 <= typ < UINT32 && n + 16 < UINT32 && Placed(d, p, HeadBytes(typ, long, n))
    requires p + (if long then 16 else 8) + n <= end
    ensures var hdr := if long then 16 else 8; Head(d, p, end, parent) == Some(Box(p, hdr + n, typ, hdr, parent))
  {
    if long { LongHead(d, p, typ, n); } else { ShortHead(d, p, typ, n); }
    hide HeadBytes;
    hide Placed;
    hide U32;
  }

  /** A box of size 0 goes on to the end. */
  lemma OpenHead(d: Bytes, p: nat, end: nat, parent: int, typ: int)
    requires 0 <= typ < UINT32 && p + 8 <= end && Placed(d, p, Be32(0) + Be32(typ))
    ensures Head(d, p, end, parent) == Some(Box(p, end - p, typ, 8, parent))
  {
    PlacedParts(d, p, Be32(0), Be32(typ));
    hide Be32;
    hide Placed;
    Be32Reads(d, p, 0);
    Be32Reads(d, p + 4, typ);
    hide U32;
  }

  lemma ShortHead(d: Bytes, p: nat, typ: int, n: nat)
    requires 0 <= typ < UINT32 && n + 16 < UINT32 && Placed(d, p, HeadBytes(typ, false, n))
    ensures U32(d, p) == n + 8 && U32(d, p + 4) == typ
  {
    hide Be32;
    hide Placed;
    hide U32;
    PlacedParts(d, p, Be32(n + 8), Be32(typ));
    Be32Reads(d, p, n + 8);
    Be32Reads(d, p + 4, typ);
  }

  lemma LongHead(d: Bytes, p: nat, typ: int, n: nat)
    requires 0 <= typ < UINT32 && n + 16 < UINT32 && Placed(d, p, HeadBytes(typ, true, n))
    ensures U32(d, p) == 1 && U32(d, p + 4) == typ && U64(d, p + 8) == n + 16
  {
    hide Be32;
    hide Placed;
    hide U32;
    FourParts(d, p, Be32(1), Be32(typ), Be32(0), Be32(n + 16));
    hide HeadBytes;
    Be32Reads(d, p, 1);
    Be32Reads(d, p + 4, typ);
    Be32Reads(d, p + 8, 0);
    Be32Reads(d, p + 12, n + 16);
  }

  lemma TreeReads(d: Bytes, p: nat, end: nat, t: Tree, rest: Bytes, parent: int)
    requires Writable(t) && Placed(d, p, TreeBytes(t) + rest) && p + |TreeBytes(t)| <= end
    ensures var hdr := if t.long then 16 else 8;
      && |TreeBytes(t)| == hdr + |Body(t)|
      && Head(d, p, end, parent) == Some(Box(p, |TreeBytes(t)|, t.typ, hdr, parent))
      && Placed(d, p + hdr, Body(t)) && Placed(d, p + |TreeBytes(t)|, rest)
  {
    var body := Body(t);
    hide Body;
    hide Head;
    hide HeadBytes;
    hide Placed;
    hide AllWritable;
    PlacedParts(d, p, TreeBytes(t), rest);
    PlacedParts(d, p, HeadBytes(t.typ, t.long, |body|), body);
    HeadReads(d, p, end, parent, t.typ, t.long, |body|);
  }

  lemma WalkOne(d: Bytes, p: nat, end: nat, t: Tree, parent: int)
    requires Writable(t) && |TreeBytes(t)| == (if t.long then 16 else 8) + |Body(t)|
    requires Head(d, p, end, parent)
          == Some(Box(p, |TreeBytes(t)|, t.typ, if t.long then 16 else 8, parent))
    requires t.Node? ==>
      Walk(d, p + (if t.long then 16 else 8), p + |TreeBytes(t)|, t.typ)
      == ListBoxes(t.kids, p + (if t.long then 16 else 8), t.typ)
    ensures Walk(d, p, end, parent) == TreeBoxes(t, p, parent) + Walk(d, p + |TreeBytes(t)|, end, parent)
  {
    WalkIs(d, p, end, parent);
    hide Walk;
    hide Head;
    hide TreeBytes;
    hide Body;
    hide ListBoxes;
    hide AllWritable;
  }

  lemma {:induction false} TreeWalks(d: Bytes, p: nat, end: nat, t: Tree, rest: Bytes, parent: int)
    requires Writable(t) && Placed(d, p, TreeBytes(t) + rest) && p + |TreeBytes(t)| <= end
    ensures Walk(d, p, end, parent) == TreeBoxes(t, p, parent) + Walk(d, p + |TreeBytes(t)|, end, parent)
    ensures Placed(d, p + |TreeBytes(t)|, rest)
    decreases t
  {
    hide *;
    TreeReads(d, p, end, t, rest, parent);
    if t.Node? {
      KidsOf(t);
      WalkReads(d, p + (if t.long then 16 else 8), t.kids, t.typ);
    }
    WalkOne(d, p, end, t, parent);
  }

  /** The walk finds every box of a tree that was written, in order, where it is, however
      its headers are sized. */
  lemma {:induction false} WalkReads(d: Bytes, p: nat, list: seq<Tree>, parent: int)
    requires AllWritable(list) && Placed(d, p, ListBytes(list))
    ensures Walk(d, p, p + |ListBytes(list)|, parent) == ListBoxes(list, p, parent)
    decreases list
  {
    hide *;
    if list == [] {
      NoBoxes(d, p, parent);
    } else {
      ListParts(list, p, parent);
      var rest := list[1..];
      TreeWalks(d, p, p + |ListBytes(list)|, list[0], ListBytes(rest), parent);
      WalkReads(d, p + |TreeBytes(list[0])|, rest, parent);
    }
  }

  lemma ListParts(list: seq<Tree>, p: nat, parent: int)
    requires AllWritable(list) && list != []
    ensures Writable(list[0]) && AllWritable(list[1..])
    ensures ListBytes(list) == TreeBytes(list[0]) + ListBytes(list[1..])
    ensures ListBoxes(list, p, parent)
         == TreeBoxes(list[0], p, parent) + ListBoxes(list[1..], p + |TreeBytes(list[0])|, parent)
  {
  }

  lemma KidsOf(t: Tree)
    requires Writable(t) && t.Node?
    ensures Body(t) == ListBytes(t.kids) && AllWritable(t.kids)
  {
  }

  lemma NoBoxes(d: Bytes, p: nat, parent: int)
    ensures ListBytes([]) == [] && Walk(d, p, p + |ListBytes([])|, parent) == [] == ListBoxes([], p, parent)
  {
    hide U32;
  }
}
