/** Annex B byte streams (section B.1 of ITU-T H.264) and their length-prefixed
    form: playback/gapfill.go. */
module AnnexBSpec {
  import opened Wrappers

  type Byte = n: int | 0 <= n < 256
  type Bytes = seq<Byte>

  const AUD := 9

  /** A start code 00 00 01 at i. */
  predicate Code(b: Bytes, i: nat) {
    i + 3 <= |b| && b[i] == 0 && b[i + 1] == 0 && b[i + 2] == 1
  }

  /** The first start code, |b| without one. */
  function FirstCode(b: Bytes): (n: nat)
    ensures n <= |b|
    ensures n < |b| ==> Code(b, n)
    ensures forall i | 0 <= i < n :: !Code(b, i)
  {
    if |b| < 3 then |b|
    else if Code(b, 0) then 0
    else
      var n := FirstCode(b[1..]);
      assert forall i | 0 < i :: Code(b, i) <==> Code(b[1..], i - 1);
      1 + n
  }

  /** One zero before a start code belongs to it. */
  function Trim(unit: Bytes): Bytes {
    if unit != [] && Last(unit) == 0 then unit[..|unit| - 1] else unit
  }

  /** The units of a stream whose first start code was just read. */
  function Units(b: Bytes): (units: seq<Bytes>)
    ensures units != []
    decreases |b|
  {
    var n := FirstCode(b);
    if n == |b| then [b] else [Trim(b[..n])] + Units(b[n + 3..])
  }

  function Split(b: Bytes): seq<Bytes> {
    var n := FirstCode(b);
    if n == |b| then [] else Units(b[n + 3..])
  }

  /** A unit and its start code, of four bytes or of three. */
  datatype Framed = Framed(long: bool, unit: Bytes)

  function Join(list: seq<Framed>): Bytes {
    if list == [] then []
    else (if list[0].long then [0] else []) + [0, 0, 1] + list[0].unit + Join(list[1..])
  }

  function UnitsOf(list: seq<Framed>): (units: seq<Bytes>)
    ensures |units| == |list| && forall k | 0 <= k < |list| :: units[k] == list[k].unit
  {
    if list == [] then [] else [list[0].unit] + UnitsOf(list[1..])
  }

  // ----- length-prefixed -----

  /** The big-endian 32-bit form of a length. */
  function Prefix(n: nat): Bytes {
    [n / 0x100_0000 % 256, n / 0x1_0000 % 256, n / 0x100 % 256, n % 256]
  }

  function Length(b: Bytes): nat
    requires |b| >= 4
  {
    var b0: int, b1: int, b2: int, b3: int := b[0], b[1], b[2], b[3];
    b0 * 0x100_0000 + b1 * 0x1_0000 + b2 * 0x100 + b3
  }

  /** Units with picture data: not empty, not an access unit delimiter. */
  predicate Wanted(unit: Bytes) {
    unit != [] && unit[0] % 32 != AUD
  }

  function WantedOf(units: seq<Bytes>): seq<Bytes> {
    if units == [] then []
    else WantedOf(units[..|units| - 1]) + if Wanted(Last(units)) then [Last(units)] else []
  }

  function ToAvcc(units: seq<Bytes>): Bytes {
    if units == [] then []
    else ToAvcc(units[..|units| - 1]) + if Wanted(Last(units)) then Prefix(|Last(units)|) + Last(units) else []
  }

  /** What a decoder reads: units as long as their prefixes say, to the end. */
  function Parse(b: Bytes): Option<seq<Bytes>>
    decreases |b|
  {
    if b == [] then Some([])
    else if |b| < 4 || |b| < 4 + Length(b) then None
    else
      match Parse(b[4 + Length(b)..])
      case None => None
      case Some(rest) => Some([b[4..4 + Length(b)]] + rest)
  }
}

module AnnexBProofs {
  import opened Wrappers
  import opened AnnexBSpec

  ghost predicate NoCode(unit: Bytes) {
    forall i: nat :: !Code(unit, i)
  }

  /** What Split gives for units without a start code inside: a unit before a
      three-byte start code loses a trailing zero. */
  function Seen(list: seq<Framed>): seq<Bytes> {
    if list == [] then []
    else if |list| > 1 && !list[1].long then [Trim(list[0].unit)] + Seen(list[1..])
    else [list[0].unit] + Seen(list[1..])
  }

  lemma FirstIs(b: Bytes, n: nat)
    requires Code(b, n) && forall i | 0 <= i < n :: !Code(b, i)
    ensures FirstCode(b) == n
  {
    var m := FirstCode(b);
    if m < n { assert false; }
  }

  /** No start code begins before the one that follows a unit. */
  lemma NextCodeIs(unit: Bytes, long: bool, rest: Bytes)
    requires NoCode(unit)
    ensures var b := unit + (if long then [0] else []) + [0, 0, 1] + rest;
      FirstCode(b) == |unit| + (if long then 1 else 0) && b[FirstCode(b) + 3..] == rest
  {
    var b := unit + (if long then [0] else []) + [0, 0, 1] + rest;
    var n := |unit| + if long then 1 else 0;
    assert b[n] == 0 && b[n + 1] == 0 && b[n + 2] == 1;
    forall i | 0 <= i < n ensures !Code(b, i) {
      if i + 3 <= |unit| {
        assert b[i] == unit[i] && b[i + 1] == unit[i + 1] && b[i + 2] == unit[i + 2];
        assert !Code(unit, i);
      } else {
        assert |unit| <= i + 2 < n + 2 && b[i + 2] == 0;
      }
    }
    FirstIs(b, n);
    assert b[n + 3..] == rest;
  }

  /** A unit and the rest of a stream behind it. */
  lemma UnitsNext(unit: Bytes, long: bool, rest: Bytes)
    requires NoCode(unit)
    ensures Units(unit + (if long then [0] else []) + [0, 0, 1] + rest)
            == [if long then unit else Trim(unit)] + Units(rest)
  {
    var b := unit + (if long then [0] else []) + [0, 0, 1] + rest;
    NextCodeIs(unit, long, rest);
    if long {
      assert b[..|unit| + 1] == unit + [0];
      assert Trim(unit + [0]) == unit;
    } else {
      assert b[..|unit|] == unit;
    }
    hide FirstCode;
    hide NoCode;
  }

  lemma {:induction false} UnitsJoined(list: seq<Framed>)
    requires list != [] && forall f | f in list :: NoCode(f.unit)
    ensures Units(list[0].unit + Join(list[1..])) == Seen(list)
    decreases |list|
  {
    var unit := list[0].unit;
    if |list| == 1 {
      assert unit + Join(list[1..]) == unit;
      assert NoCode(unit);
      assert FirstCode(unit) == |unit|;
    } else {
      hide Units;
      hide NoCode;
      var f := list[1];
      var rest := f.unit + Join(list[2..]);
      assert list[1..][1..] == list[2..];
      assert unit + Join(list[1..]) == unit + (if f.long then [0] else []) + [0, 0, 1] + rest;
      UnitsNext(unit, f.long, rest);
      UnitsJoined(list[1..]);
    }
  }

  lemma SplitJoined(list: seq<Framed>)
    requires list != [] && forall f | f in list :: NoCode(f.unit)
    ensures Split(Join(list)) == Seen(list)
  {
    hide Units;
    hide Seen;
    var rest := list[0].unit + Join(list[1..]);
    var b := [] + (if list[0].long then [0] else []) + [0, 0, 1] + rest;
    assert Join(list) == b;
    NextCodeIs([], list[0].long, rest);
    UnitsJoined(list);
    hide Join;
    hide NoCode;
    assert FirstCode(b) < |b|;
    hide FirstCode;
  }

  /** Whatever the stream, no unit it is split into has a start code inside. */
  lemma {:induction false} UnitsHaveNoCode(b: Bytes)
    ensures forall u | u in Units(b) :: NoCode(u)
    decreases |b|
  {
    var n := FirstCode(b);
    if n == |b| {
      forall i: nat ensures !Code(b, i) {}
    } else {
      UnitsHaveNoCode(b[n + 3..]);
      var u := Trim(b[..n]);
      forall i: nat ensures !Code(u, i) {
        if i + 3 <= |u| {
          assert !Code(b, i);
          assert u[i] == b[i] && u[i + 1] == b[i + 1] && u[i + 2] == b[i + 2];
        }
      }
    }
  }

  /** A unit keeps its last byte when it does not end in zero or the start code
      after it has its own extra zero. */
  predicate KeepsEnd(list: seq<Framed>, k: nat)
    requires k < |list|
  {
    list[k].unit == [] || Last(list[k].unit) != 0 || k + 1 == |list| || list[k + 1].long
  }

  lemma {:induction false} SeenIsUnits(list: seq<Framed>)
    ensures |Seen(list)| == |list|
    ensures forall k | 0 <= k < |list| ::
              Seen(list)[k] == if KeepsEnd(list, k) then list[k].unit else Trim(list[k].unit)
  {
    if list != [] {
      SeenIsUnits(list[1..]);
      var rest := Seen(list[1..]);
      assert Seen(list) == [Seen(list)[0]] + rest;
      forall k | 0 < k < |list|
        ensures Seen(list)[k] == if KeepsEnd(list, k) then list[k].unit else Trim(list[k].unit)
      {
        assert Seen(list)[k] == rest[k - 1] && list[1..][k - 1] == list[k];
        assert KeepsEnd(list, k) == KeepsEnd(list[1..], k - 1);
      }
    }
  }

  /** Splitting undoes framing, with any mix of start codes, exactly when no unit
      contains a start code and none that ends in zero is followed by a three-byte
      one; empty units are allowed. */
  lemma SplitUndoesJoin(list: seq<Framed>)
    requires list != []
    ensures Split(Join(list)) == UnitsOf(list)
            <==> (forall f | f in list :: NoCode(f.unit)) && (forall k | 0 <= k < |list| :: KeepsEnd(list, k))
  {
    hide Units;
    hide Join;
    hide Split;
    hide NoCode;
    if forall f | f in list :: NoCode(f.unit) {
      SplitJoined(list);
      SeenOrTrimmed(list);
    } else {
      InnerCodeShows(list);
    }
  }

  /** A unit ending in zero before a three-byte start code. */
  lemma TrailingZeroLost()
    ensures var list := [Framed(false, [5, 0]), Framed(false, [6])];
      (forall f | f in list :: NoCode(f.unit)) && Split(Join(list)) != UnitsOf(list)
  {
    var list := [Framed(false, [5, 0]), Framed(false, [6])];
    hide Split;
    hide Join;
    SplitUndoesJoin(list);
    assert !KeepsEnd(list, 0);
    assert NoCode([5, 0]) && NoCode([6]);
  }

  lemma InnerCodeShows(list: seq<Framed>)
    requires exists f | f in list :: !NoCode(f.unit)
    ensures Split(Join(list)) != UnitsOf(list)
  {
    hide Units;
    hide Join;
    hide NoCode;
    var b := Join(list);
    var f :| f in list && !NoCode(f.unit);
    var k :| 0 <= k < |list| && list[k] == f;
    assert UnitsOf(list)[k] in UnitsOf(list);
    if FirstCode(b) < |b| { UnitsHaveNoCode(b[FirstCode(b) + 3..]); }
  }

  lemma SeenOrTrimmed(list: seq<Framed>)
    ensures Seen(list) == UnitsOf(list) <==> forall k | 0 <= k < |list| :: KeepsEnd(list, k)
  {
    SeenIsUnits(list);
    hide Seen;
    hide UnitsOf;
    if k: nat :| k < |list| && !KeepsEnd(list, k) {
      assert |Seen(list)[k]| < |UnitsOf(list)[k]|;
    } else {
      assert Seen(list) == UnitsOf(list);
    }
  }

  // ----- length-prefixed -----

  lemma PrefixLength(n: nat)
    requires n < 0x1_0000_0000
    ensures Length(Prefix(n)) == n
  {
    var q1, q2, q3 := n / 0x100, n / 0x1_0000, n / 0x100_0000;
    assert q1 / 0x100 == q2 && q2 / 0x100 == q3;
    assert n == 0x100 * q1 + n % 256 && q1 == 0x100 * q2 + q1 % 256 && q2 == 0x100 * q3 + q2 % 256;
    assert q3 < 256;
  }

  /** Only the first four bytes tell a length. */
  lemma LengthOf(b: Bytes, head: Bytes)
    requires |head| == 4 && head <= b
    ensures Length(b) == Length(head)
  {
  }

  lemma ParseFirst(head: Bytes, unit: Bytes)
    requires |head| == 4 && Length(head) == |unit|
    ensures Parse(head + unit) == Some([unit])
  {
    var b := head + unit;
    LengthOf(b, head);
    hide Length;
    assert b[4..4 + |unit|] == unit && b[4 + |unit|..] == [];
    assert [unit] + [] == [unit];
  }

  lemma ParseOne(unit: Bytes)
    requires |unit| < 0x1_0000_0000
    ensures Parse(Prefix(|unit|) + unit) == Some([unit])
  {
    hide *;
    PrefixSize(|unit|);
    PrefixLength(|unit|);
    ParseFirst(Prefix(|unit|), unit);
  }

  lemma PrefixSize(n: nat)
    ensures |Prefix(n)| == 4
  {
  }

  /** A stream that parses, and then another. */
  lemma {:induction false} ParseAppend(b: Bytes, tail: Bytes)
    requires Parse(b).Some? && Parse(tail).Some?
    ensures Parse(b + tail) == Some(Parse(b).value + Parse(tail).value)
    decreases |b|
  {
    hide Length;
    if b == [] {
      assert b + tail == tail && [] + Parse(tail).value == Parse(tail).value;
    } else {
      LengthOf(b, b[..4]);
      LengthOf(b + tail, b[..4]);
      var n := 4 + Length(b);
      assert (b + tail)[n..] == b[n..] + tail && (b + tail)[4..n] == b[4..n];
      ParseAppend(b[n..], tail);
      ParseStep(b, tail, n);
    }
  }

  lemma ParseStep(b: Bytes, tail: Bytes, n: nat)
    requires 4 <= n <= |b| && n == 4 + Length(b) == 4 + Length(b + tail)
    requires Parse(b).Some? && Parse(tail).Some?
    requires (b + tail)[n..] == b[n..] + tail && (b + tail)[4..n] == b[4..n]
    requires Parse(b[n..] + tail) == Some(Parse(b[n..]).value + Parse(tail).value)
    ensures Parse(b + tail) == Some(Parse(b).value + Parse(tail).value)
  {
    hide Length;
    var one, rest, last := [b[4..n]], Parse(b[n..]).value, Parse(tail).value;
    assert one + (rest + last) == one + rest + last;
  }

  /** The length-prefixed form reads back as the wanted units, in order. */
  lemma {:induction false} AvccReadsBack(units: seq<Bytes>)
    requires forall u | u in units :: |u| < 0x1_0000_0000
    ensures Parse(ToAvcc(units)) == Some(WantedOf(units))
  {
    if units != [] {
      var init := units[..|units| - 1];
      AvccReadsBack(init);
      ParseOne(Last(units));
      assert ToAvcc(init) + [] == ToAvcc(init) && WantedOf(init) + [] == WantedOf(init);
      if Wanted(Last(units)) { ParseAppend(ToAvcc(init), Prefix(|Last(units)|) + Last(units)); }
      hide Parse;
      hide Prefix;
    }
  }

  /** Kept are the units with something in them but access unit delimiters, whose type,
      in the low five bits of the first byte, is 9. */
  lemma {:induction false} KeptUnits(units: seq<Bytes>, u: Bytes)
    ensures u in WantedOf(units) <==> u in units && |u| > 0 && u[0] % 32 != 9
    ensures |WantedOf(units)| <= |units|
  {
    if units != [] {
      KeptUnits(units[..|units| - 1], u);
      assert u in units <==> u in units[..|units| - 1] || u == Last(units);
    }
  }

  /** From framed units to what a decoder reads. */
  lemma ConversionKeepsPictures(list: seq<Framed>)
    requires list != [] && (forall f | f in list :: NoCode(f.unit) && |f.unit| < 0x1_0000_0000)
    requires forall k | 0 <= k < |list| :: KeepsEnd(list, k)
    ensures Parse(ToAvcc(Split(Join(list)))) == Some(WantedOf(UnitsOf(list)))
  {
    SplitUndoesJoin(list);
    forall u | u in UnitsOf(list) ensures |u| < 0x1_0000_0000 {
      var k :| 0 <= k < |list| && UnitsOf(list)[k] == u;
      assert list[k] in list;
    }
    AvccReadsBack(UnitsOf(list));
  }
}

/** The conversion in its own form. */
module AnnexB {
  import opened Wrappers
  import opened AnnexBSpec
  import opened AnnexBProofs

  /** Nothing from i to j starts a code, so the first one from i on is at j or later. */
  lemma Skip(b: Bytes, i: nat, j: nat)
    requires i <= j <= |b| && (forall k | i <= k < j :: !Code(b, k))
    ensures Code(b, j) ==> FirstCode(b[i..]) == j - i
    ensures |b| < j + 3 ==> FirstCode(b[i..]) == |b| - i
  {
    var s := b[i..];
    forall k: nat ensures Code(s, k) <==> Code(b, i + k) {}
    if Code(b, j) { FirstIs(s, j - i); }
    if |b| < j + 3 && FirstCode(s) < |s| { assert false; }
  }

  /** The unit between two start codes. */
  lemma UnitEnds(b: Bytes, start: nat, i: nat)
    requires start <= i && Code(b, i) && forall k | start <= k < i :: !Code(b, k)
    ensures Units(b[start..]) == [Trim(b[start..i])] + Units(b[i + 3..])
  {
    Skip(b, start, i);
    hide FirstCode;
    assert b[start..][..i - start] == b[start..i];
    assert b[start..][i - start + 3..] == b[i + 3..];
  }

  lemma LastUnit(b: Bytes, start: nat, i: nat)
    requires start <= i <= |b| < i + 3 && forall k | start <= k < i :: !Code(b, k)
    ensures Units(b[start..]) == [b[start..]]
  {
    Skip(b, start, i);
  }

  lemma TrimEnds(b: Bytes, start: nat, i: nat)
    requires start <= i <= |b|
    ensures Trim(b[start..i]) == b[start..if i > start && b[i - 1] == 0 then i - 1 else i]
  {
  }

  /** Where the first unit starts, None without a start code. */
  method FindFirst(b: Bytes) returns (start: Option<nat>)
    ensures start.None? ==> Split(b) == []
    ensures start.Some? ==> start.value <= |b| && Split(b) == Units(b[start.value..])
  {
    hide FirstCode;
    hide Units;
    var i: nat := 0;
    assert b[0..] == b;
    while i + 3 <= |b|
      invariant i <= |b| && forall k | 0 <= k < i :: !Code(b, k)
    {
      if b[i] == 0 && b[i + 1] == 0 && b[i + 2] == 1 {
        Skip(b, 0, i);
        return Some(i + 3);
      }
      i := i + 1;
    }
    Skip(b, 0, i);
    start := None;
  }

  /** splitAnnexB; an empty list is the nil of a stream without a start code. */
  method SplitAnnexB(b: Bytes) returns (nals: seq<Bytes>)
    ensures nals == Split(b)
  {
    hide FirstCode;
    hide Split;
    hide Units;
    hide Trim;
    nals := [];
    var first := FindFirst(b);
    if first.None? { return; }
    var start: nat := first.value;
    var i := start;
    while i + 3 <= |b|
      invariant start <= i <= |b| && Split(b) == nals + Units(b[start..])
      invariant forall k | start <= k < i :: !Code(b, k)
    {
      if b[i] == 0 && b[i + 1] == 0 && b[i + 2] == 1 {
        var end := i;
        if end > start && b[end - 1] == 0 { end := end - 1; }
        UnitEnds(b, start, i);
        TrimEnds(b, start, i);
        nals := nals + [b[start..end]];
        start := i + 3;
        i := i + 3;
        continue;
      }
      i := i + 1;
    }
    LastUnit(b, start, i);
    nals := nals + [b[start..]];
  }

  method AnnexBToAVCC(b: Bytes) returns (out: Bytes)
    ensures out == ToAvcc(Split(b))
  {
    var nals := SplitAnnexB(b);
    out := [];
    for k := 0 to |nals|
      invariant out == ToAvcc(nals[..k])
    {
      assert nals[..k + 1][..k] == nals[..k];
      var nal := nals[k];
      if |nal| == 0 { continue; }
      if nal[0] % 32 == AUD { continue; }
      out := out + Prefix(|nal|);
      out := out + nal;
      assert out == ToAvcc(nals[..k]) + (Prefix(|nal|) + nal);
    }
    assert nals[..|nals|] == nals;
  }
}
