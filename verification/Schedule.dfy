/** Recording schedules: schedule/schedule.go. A rules map is the sequence of its
    entries in the order a range over it happens to visit them. */
module ScheduleSpec {
  import opened Wrappers
  import opened Text

  const DAY := 1440
  const WEEK := 10080

  datatype Entry = Entry(key: string, windows: seq<string>)

  type Rules = seq<Entry>

  /** Minutes from midnight; wrap when it runs past midnight. */
  datatype Interval = Interval(start: int, end: int, wrap: bool)

  predicate ValidInterval(iv: Interval) {
    0 <= iv.start < DAY && 0 < iv.end <= DAY && iv.start != iv.end && iv.wrap == (iv.end < iv.start)
  }

  // ----- text -----

  /** Lower case as far as day names go: besides A to Z, only the dotted capital I
      and the Kelvin sign become ASCII letters. */
  function LowerChar(c: char): char {
    if 'A' <= c <= 'Z' then (c as int + 32) as char
    else if c == '\U{130}' then 'i'
    else if c == '\U{212A}' then 'k'
    else c
  }

  function ToLower(s: string): (r: string)
    ensures |r| == |s| && forall k | 0 <= k < |s| :: r[k] == LowerChar(s[k])
  {
    if s == "" then "" else [LowerChar(s[0])] + ToLower(s[1..])
  }

  /** DayKeys, indexed from Sunday. */
  function DayKey(day: nat): string
    requires day < 7
  {
    if day == 0 then "sun" else if day == 1 then "mon" else if day == 2 then "tue" else if day == 3 then "wed"
    else if day == 4 then "thu" else if day == 5 then "fri" else "sat"
  }

  /** The weekday of a key, 7 when it is none. */
  function DayIndex(key: string): (d: nat)
    ensures d <= 7 && (d < 7 ==> DayKey(d) == key)
  {
    if key == "sun" then 0 else if key == "mon" then 1 else if key == "tue" then 2 else if key == "wed" then 3
    else if key == "thu" then 4 else if key == "fri" then 5 else if key == "sat" then 6 else 7
  }

  /** strings.SplitN(s, sep, 2): what is before and after the first sep. */
  function Cut(s: string, sep: char): (r: Option<(string, string)>)
    ensures r.Some? ==> s == r.value.0 + [sep] + r.value.1 && sep !in r.value.0
    ensures r.None? ==> sep !in s
  {
    if s == "" then None
    else if s[0] == sep then Some(("", s[1..]))
    else
      match Cut(s[1..], sep)
      case None => None
      case Some((a, b)) => Some(([s[0]] + a, b))
  }

  predicate IsDigit(c: char) {
    '0' <= c <= '9'
  }

  function DigitsValue(s: string): (n: Option<int>)
    ensures n.Some? ==> n.value >= 0
  {
    if s == "" then Some(0)
    else
      match DigitsValue(s[..|s| - 1])
      case None => None
      case Some(n) => if IsDigit(Last(s)) then Some(10 * n + (Last(s) as int - '0' as int)) else None
  }

  /** strconv.Atoi; numbers too large for an int are refused by the callers anyway. */
  function Atoi(s: string): Option<int> {
    if s == "" then None
    else if s[0] == '-' || s[0] == '+' then
      if |s| == 1 then None
      else
        match DigitsValue(s[1..])
        case None => None
        case Some(n) => Some(if s[0] == '-' then -n else n)
    else DigitsValue(s)
  }

  function ParseMinutes(s: string): Option<int> {
    match Cut(TrimSpace(s), ':')
    case None => None
    case Some((hh, mm)) =>
      var h, m := Atoi(TrimSpace(hh)), Atoi(TrimSpace(mm));
      if h.None? || h.value < 0 || h.value > 24 then None
      else if m.None? || m.value < 0 || m.value > 59 then None
      else if h.value * 60 + m.value > DAY then None
      else Some(h.value * 60 + m.value)
  }

  function ParseInterval(s: string): (iv: Option<Interval>)
    ensures iv.Some? ==> ValidInterval(iv.value)
  {
    match Cut(TrimSpace(s), '-')
    case None => None
    case Some((a, b)) =>
      var start, end := ParseMinutes(a), ParseMinutes(b);
      if start.None? || end.None? then None
      else if start.value >= DAY || end.value == 0 || start.value == end.value then None
      else Some(Interval(start.value, end.value, end.value < start.value))
  }

  function TwoDigits(n: int): string
    requires 0 <= n < 100
  {
    [('0' as int + n / 10) as char, ('0' as int + n % 10) as char]
  }

  function FormatMinutes(m: int): string
    requires 0 <= m <= DAY
  {
    TwoDigits(m / 60) + ":" + TwoDigits(m % 60)
  }

  function FormatInterval(iv: Interval): string
    requires ValidInterval(iv)
  {
    FormatMinutes(iv.start) + "-" + FormatMinutes(iv.end)
  }

  // ----- rules -----

  /** The windows that parse. */
  function ParseAll(windows: seq<string>): (list: seq<Interval>)
    ensures forall iv | iv in list :: ValidInterval(iv)
  {
    if windows == [] then []
    else
      var p := ParseInterval(Last(windows));
      ParseAll(windows[..|windows| - 1]) + if p.Some? then [p.value] else []
  }

  /** One weekday's windows, whatever the case of its keys. */
  function WindowsOf(rules: Rules, day: string): seq<string> {
    if rules == [] then []
    else
      WindowsOf(rules[..|rules| - 1], day) + if ToLower(Last(rules).key) == day then Last(rules).windows else []
  }

  /** sort.SliceStable by start: each one goes after those that start no later. */
  function Insert(sorted: seq<Interval>, iv: Interval): (r: seq<Interval>)
    ensures multiset(r) == multiset(sorted) + multiset{iv}
  {
    if sorted != [] && Last(sorted).start > iv.start then
      assert sorted == sorted[..|sorted| - 1] + [Last(sorted)];
      Insert(sorted[..|sorted| - 1], iv) + [Last(sorted)]
    else sorted + [iv]
  }

  function SortByStart(list: seq<Interval>): (r: seq<Interval>)
    ensures multiset(r) == multiset(list)
  {
    if list == [] then []
    else
      assert list == list[..|list| - 1] + [Last(list)];
      Insert(SortByStart(list[..|list| - 1]), Last(list))
  }

  function FormatAll(list: seq<Interval>): (r: seq<string>)
    requires forall iv | iv in list :: ValidInterval(iv)
    ensures |r| == |list| && forall k | 0 <= k < |list| :: r[k] == FormatInterval(list[k])
  {
    if list == [] then [] else FormatAll(list[..|list| - 1]) + [FormatInterval(Last(list))]
  }

  function Sorted(windows: seq<string>): (list: seq<Interval>)
    ensures forall iv | iv in list :: ValidInterval(iv)
  {
    var list := SortByStart(ParseAll(windows));
    assert forall iv | iv in list :: iv in multiset(list);
    list
  }

  function NormalizeDay(windows: seq<string>): seq<string> {
    FormatAll(Sorted(windows))
  }

  /** The first n weekdays that keep a window. */
  function NormalizeDays(rules: Rules, n: nat): Rules
    requires n <= 7
  {
    if n == 0 then []
    else
      var texts := NormalizeDay(WindowsOf(rules, DayKey(n - 1)));
      NormalizeDays(rules, n - 1) + if texts == [] then [] else [Entry(DayKey(n - 1), texts)]
  }

  function Normalize(rules: Rules): Rules {
    NormalizeDays(rules, 7)
  }
}

module ScheduleProofs {
  import opened Wrappers
  import opened Text
  import opened ScheduleSpec

  /** The window as an arc of the 7x1440-minute circle: its length and whether a
      minute of the week lies on it. */
  function Length(iv: Interval): int {
    if iv.wrap then DAY - iv.start + iv.end else iv.end - iv.start
  }

  predicate Covers(day: int, iv: Interval, minute: int) {
    (minute - (day * DAY + iv.start)) % WEEK < Length(iv)
  }

  /** Some window of the rules covers the minute of the week. */
  ghost predicate Armed(rules: Rules, minute: int) {
    exists e, w | e in rules && w in e.windows ::
      DayIndex(ToLower(e.key)) < 7 && ParseInterval(w).Some?
      && Covers(DayIndex(ToLower(e.key)), ParseInterval(w).value, minute)
  }

  /** What Active tests of a window of today or of yesterday. */
  predicate Tested(day: nat, minute: nat, own: nat, iv: Interval) {
    || (own == day && (if iv.wrap then minute >= iv.start else iv.start <= minute < iv.end))
    || (own == (day + 6) % 7 && iv.wrap && minute < iv.end)
  }

  lemma TestIsCover(day: nat, minute: nat, own: nat, iv: Interval)
    requires day < 7 && own < 7 && minute < DAY && ValidInterval(iv)
    ensures Tested(day, minute, own, iv) <==> Covers(own, iv, day * DAY + minute)
  {
    var x := day * DAY + minute - (own * DAY + iv.start);
    assert -WEEK < x < WEEK;
    assert x % WEEK == if x >= 0 then x else x + WEEK;
  }

  // ----- parsing what was formatted -----

  lemma DigitText(n: int)
    requires 0 <= n < 100
    ensures DigitsValue(TwoDigits(n)) == Some(n)
    ensures TrimSpace(TwoDigits(n)) == TwoDigits(n) && Atoi(TwoDigits(n)) == Some(n)
    ensures forall c | c in TwoDigits(n) :: IsDigit(c)
  {
    var s := TwoDigits(n);
    assert s[..1] == [s[0]] && s[..1][..0] == "";
    assert DigitsValue(s[..1]) == Some(n / 10);
    TrimmedStays(s);
  }

  lemma CutAt(a: string, sep: char, b: string)
    requires sep !in a
    ensures Cut(a + [sep] + b, sep) == Some((a, b))
  {
    var s := a + [sep] + b;
    if a == "" {
      assert s[1..] == b;
    } else {
      assert s[1..] == a[1..] + [sep] + b;
      CutAt(a[1..], sep, b);
      assert [a[0]] + a[1..] == a;
    }
  }

  lemma MinutesText(m: int)
    requires 0 <= m <= DAY
    ensures ParseMinutes(FormatMinutes(m)) == Some(m)
    ensures FormatMinutes(m) != "" && IsDigit(FormatMinutes(m)[0]) && IsDigit(Last(FormatMinutes(m)))
    ensures '-' !in FormatMinutes(m)
  {
    var s := FormatMinutes(m);
    DigitText(m / 60);
    DigitText(m % 60);
    TrimmedStays(s);
    CutAt(TwoDigits(m / 60), ':', TwoDigits(m % 60));
  }

  /** Hours and minutes are a time of day up to 24:00, and nothing else is. */
  lemma MinutesRead(a: string, b: string, h: int, m: int)
    requires ':' !in a && TrimSpace(a + ":" + b) == a + ":" + b
    requires Atoi(TrimSpace(a)) == Some(h) && Atoi(TrimSpace(b)) == Some(m)
    ensures ParseMinutes(a + ":" + b)
         == if 0 <= h && 0 <= m < 60 && 60 * h + m <= 24 * 60 then Some(60 * h + m) else None
  {
    CutAt(a, ':', b);
    hide Atoi;
    hide TrimSpace;
  }

  /** Two times are a window unless they are the same, and wrap past midnight when the
      second comes first; a window neither starts at 24:00 nor ends at 00:00. */
  lemma IntervalRead(a: string, b: string, start: int, end: int)
    requires '-' !in a && TrimSpace(a + "-" + b) == a + "-" + b
    requires ParseMinutes(a) == Some(start) && ParseMinutes(b) == Some(end)
    ensures ParseInterval(a + "-" + b)
         == if start != end && start < 24 * 60 && 0 < end then Some(Interval(start, end, end < start)) else None
  {
    CutAt(a, '-', b);
    hide ParseMinutes;
    hide TrimSpace;
  }

  /** What is not two times with a dash between is no window. */
  lemma NotRead(a: string, b: string)
    requires '-' !in a && TrimSpace(a + "-" + b) == a + "-" + b
    ensures ParseInterval(a + "-" + b).Some? ==> ParseMinutes(a).Some? && ParseMinutes(b).Some?
    ensures ':' !in TrimSpace(a) ==> ParseMinutes(a).None?
  {
    CutAt(a, '-', b);
    hide Atoi;
  }

  /** A formatted window parses to the interval it was made from. */
  lemma FormattedParses(iv: Interval)
    requires ValidInterval(iv)
    ensures ParseInterval(FormatInterval(iv)) == Some(iv)
  {
    var a, b := FormatMinutes(iv.start), FormatMinutes(iv.end);
    MinutesText(iv.start);
    MinutesText(iv.end);
    hide FormatMinutes;
    hide ParseMinutes;
    var s := a + "-" + b;
    assert s[0] == a[0] && Last(s) == Last(b);
    TrimmedStays(s);
    CutAt(a, '-', b);
  }

  // ----- members -----

  lemma {:induction false} ParseAllMembers(windows: seq<string>, iv: Interval)
    ensures iv in ParseAll(windows) <==> exists w | w in windows :: ParseInterval(w) == Some(iv)
  {
    if windows != [] {
      var init, w := windows[..|windows| - 1], Last(windows);
      ParseAllMembers(init, iv);
      assert windows == init + [w];
      hide ParseInterval;
    }
  }

  lemma {:induction false} WindowsOfMembers(rules: Rules, day: string, w: string)
    ensures w in WindowsOf(rules, day) <==> exists e | e in rules :: ToLower(e.key) == day && w in e.windows
  {
    if rules != [] {
      var init, e := rules[..|rules| - 1], Last(rules);
      WindowsOfMembers(init, day, w);
      assert rules == init + [e];
      hide ToLower;
    }
  }

  lemma SortedMembers(windows: seq<string>, iv: Interval)
    ensures iv in Sorted(windows) <==> iv in ParseAll(windows)
  {
    assert iv in Sorted(windows) <==> iv in multiset(SortByStart(ParseAll(windows)));
    assert iv in ParseAll(windows) <==> iv in multiset(ParseAll(windows));
  }

  lemma ParseAllAdds(windows: seq<string>, w: string)
    requires ParseInterval(w).Some?
    ensures ParseAll(windows + [w]) == ParseAll(windows) + [ParseInterval(w).value]
  {
    hide ParseInterval;
    assert (windows + [w])[..|windows|] == windows;
  }

  lemma {:induction false} FormattedParseAll(list: seq<Interval>)
    requires forall iv | iv in list :: ValidInterval(iv)
    ensures ParseAll(FormatAll(list)) == list
  {
    hide ParseInterval;
    hide FormatInterval;
    hide ParseAll;
    if list == [] {
      NothingParses();
    } else {
      var init := list[..|list| - 1];
      FormattedParseAll(init);
      FormattedParses(Last(list));
      ParseAllAdds(FormatAll(init), FormatInterval(Last(list)));
    }
  }

  lemma NothingParses()
    ensures ParseAll([]) == []
  {
  }

  // ----- the circle -----

  /** A window of the day, by weekday. */
  ghost predicate DayArmed(rules: Rules, day: nat, minute: int)
    requires day < 7
  {
    exists iv | iv in ParseAll(WindowsOf(rules, DayKey(day))) :: Covers(day, iv, minute)
  }

  lemma ArmedByDay(rules: Rules, minute: int)
    ensures Armed(rules, minute) <==> exists day: nat | day < 7 :: DayArmed(rules, day, minute)
  {
    if Armed(rules, minute) { ArmedOnDay(rules, minute); }
    if day: nat :| day < 7 && DayArmed(rules, day, minute) { DayArms(rules, day, minute); }
    hide Armed;
    hide DayArmed;
  }

  lemma ArmedOnDay(rules: Rules, minute: int)
    requires Armed(rules, minute)
    ensures exists day: nat | day < 7 :: DayArmed(rules, day, minute)
  {
    hide ParseInterval;
    hide ToLower;
    hide Covers;
    hide ParseAll;
    hide WindowsOf;
    hide DayKey;
    hide DayIndex;
    var e, w :| e in rules && w in e.windows && DayIndex(ToLower(e.key)) < 7 && ParseInterval(w).Some?
      && Covers(DayIndex(ToLower(e.key)), ParseInterval(w).value, minute);
    var day := DayIndex(ToLower(e.key));
    WindowsOfMembers(rules, DayKey(day), w);
    ParseAllMembers(WindowsOf(rules, DayKey(day)), ParseInterval(w).value);
    assert DayArmed(rules, day, minute);
  }

  lemma DayArms(rules: Rules, day: nat, minute: int)
    requires day < 7 && DayArmed(rules, day, minute)
    ensures Armed(rules, minute)
  {
    hide ParseInterval;
    hide ToLower;
    hide Covers;
    hide ParseAll;
    hide WindowsOf;
    hide DayKey;
    hide DayIndex;
    DayOfKey(day);
    var iv :| iv in ParseAll(WindowsOf(rules, DayKey(day))) && Covers(day, iv, minute);
    ParseAllMembers(WindowsOf(rules, DayKey(day)), iv);
    var w :| w in WindowsOf(rules, DayKey(day)) && ParseInterval(w) == Some(iv);
    WindowsOfMembers(rules, DayKey(day), w);
    var e :| e in rules && ToLower(e.key) == DayKey(day) && w in e.windows;
  }

  // ----- what Normalize keeps -----

  lemma DayKeysAreLower(day: nat)
    requires day < 7
    ensures ToLower(DayKey(day)) == DayKey(day)
  {
    var k := DayKey(day);
    assert |k| == 3 && LowerChar(k[0]) == k[0] && LowerChar(k[1]) == k[1] && LowerChar(k[2]) == k[2];
    assert ToLower(k) == k;
  }

  lemma DayOfKey(day: nat)
    requires day < 7
    ensures DayIndex(DayKey(day)) == day
  {
  }

  lemma {:induction false} NormalizedWindows(rules: Rules, n: nat, day: nat)
    requires n <= 7 && day < 7
    ensures WindowsOf(NormalizeDays(rules, n), DayKey(day))
            == if day < n then NormalizeDay(WindowsOf(rules, DayKey(day))) else []
  {
    if n > 0 {
      NormalizedWindows(rules, n - 1, day);
      DayKeysAreLower(n - 1);
      DayOfKey(n - 1);
      DayOfKey(day);
      hide NormalizeDay;
      hide ToLower;
      hide DayKey;
      hide DayIndex;
      var init := NormalizeDays(rules, n - 1);
      var texts := NormalizeDay(WindowsOf(rules, DayKey(n - 1)));
      if texts != [] {
        assert (init + [Entry(DayKey(n - 1), texts)])[..|init|] == init;
      } else {
        assert NormalizeDays(rules, n) == init;
      }
      assert DayKey(n - 1) == DayKey(day) <==> n - 1 == day;
    }
  }

  /** Normalizing changes no minute of the week. */
  lemma NormalizeKeepsArmed(rules: Rules, minute: int)
    ensures Armed(Normalize(rules), minute) <==> Armed(rules, minute)
  {
    ArmedByDay(rules, minute);
    ArmedByDay(Normalize(rules), minute);
    forall day: nat | day < 7 ensures DayArmed(Normalize(rules), day, minute) <==> DayArmed(rules, day, minute) {
      var windows := WindowsOf(rules, DayKey(day));
      NormalizedWindows(rules, 7, day);
      FormattedParseAll(Sorted(windows));
      forall iv ensures iv in Sorted(windows) <==> iv in ParseAll(windows) { SortedMembers(windows, iv); }
      hide Sorted;
      hide ParseAll;
      hide WindowsOf;
      hide Covers;
    }
    hide Armed;
    hide DayArmed;
  }

  ghost predicate Ordered(list: seq<Interval>) {
    forall i, j | 0 <= i < j < |list| :: list[i].start <= list[j].start
  }

  lemma {:induction false} InsertOrders(sorted: seq<Interval>, iv: Interval)
    requires Ordered(sorted)
    ensures Ordered(Insert(sorted, iv))
    ensures forall k | 0 <= k < |Insert(sorted, iv)| ::
              Insert(sorted, iv)[k].start <= iv.start
                || (sorted != [] && Insert(sorted, iv)[k].start <= Last(sorted).start)
    ensures sorted == [] || Last(sorted).start <= iv.start ==> Insert(sorted, iv) == sorted + [iv]
  {
    if sorted != [] && Last(sorted).start > iv.start {
      InsertOrders(sorted[..|sorted| - 1], iv);
    }
  }

  lemma {:induction false} SortOrders(list: seq<Interval>)
    ensures Ordered(SortByStart(list))
  {
    if list != [] {
      SortOrders(list[..|list| - 1]);
      InsertOrders(SortByStart(list[..|list| - 1]), Last(list));
      hide Insert;
      hide Ordered;
    }
  }

  lemma {:induction false} SortedStays(list: seq<Interval>)
    requires Ordered(list)
    ensures SortByStart(list) == list
  {
    if list != [] {
      var init := list[..|list| - 1];
      assert Ordered(init);
      SortedStays(init);
      InsertOrders(init, Last(list));
      assert list == init + [Last(list)];
      hide Insert;
    }
  }

  function Starting(list: seq<Interval>, start: int): seq<Interval> {
    if list == [] then []
    else Starting(list[..|list| - 1], start) + if Last(list).start == start then [Last(list)] else []
  }

  lemma StartingAdds(list: seq<Interval>, iv: Interval, start: int)
    ensures Starting(list + [iv], start) == Starting(list, start) + if iv.start == start then [iv] else []
  {
    assert (list + [iv])[..|list|] == list;
  }

  lemma {:induction false} InsertIsStable(sorted: seq<Interval>, iv: Interval, start: int)
    requires Ordered(sorted)
    ensures Starting(Insert(sorted, iv), start) == Starting(sorted, start) + if iv.start == start then [iv] else []
  {
    hide Starting;
    if sorted != [] && Last(sorted).start > iv.start {
      var init, last := sorted[..|sorted| - 1], Last(sorted);
      assert Ordered(init) && sorted == init + [last];
      hide Ordered;
      InsertIsStable(init, iv, start);
      StartingAdds(init, last, start);
      StartingAdds(Insert(init, iv), last, start);
    } else {
      StartingAdds(sorted, iv, start);
    }
  }

  /** Windows that start together keep their order. */
  lemma {:induction false} SortIsStable(list: seq<Interval>, start: int)
    ensures Ordered(SortByStart(list)) && Starting(SortByStart(list), start) == Starting(list, start)
  {
    SortOrders(list);
    if list != [] {
      var init := list[..|list| - 1];
      SortIsStable(init, start);
      InsertIsStable(SortByStart(init), Last(list), start);
      hide Insert;
    }
  }

  lemma NormalizeDayTwice(windows: seq<string>)
    ensures NormalizeDay(NormalizeDay(windows)) == NormalizeDay(windows)
  {
    FormattedParseAll(Sorted(windows));
    SortOrders(ParseAll(windows));
    SortedStays(Sorted(windows));
    hide FormatAll;
    hide ParseAll;
    hide SortByStart;
  }

  /** The order in which a map with one entry per day is visited does not matter. */
  lemma {:induction false} OneEntryWindows(rules: Rules, day: string)
    requires forall i, j | 0 <= i < j < |rules| :: ToLower(rules[i].key) != ToLower(rules[j].key)
    ensures forall e | e in rules && ToLower(e.key) == day :: WindowsOf(rules, day) == e.windows
    ensures (forall e | e in rules :: ToLower(e.key) != day) ==> WindowsOf(rules, day) == []
  {
    if rules != [] {
      var init := rules[..|rules| - 1];
      OneEntryWindows(init, day);
      hide ToLower;
      assert rules == init + [Last(rules)];
      if ToLower(Last(rules).key) == day {
        forall e | e in init ensures ToLower(e.key) != day {}
      }
    }
  }

  ghost predicate KeysBelow(list: Rules, n: nat)
    requires n <= 7
  {
    forall e | e in list :: exists d: nat | d < n :: e.key == DayKey(d)
  }

  ghost predicate DistinctKeys(list: Rules) {
    forall i, j | 0 <= i < j < |list| :: list[i].key != list[j].key
  }

  lemma KeyAdded(list: Rules, n: nat, e: Entry)
    requires n < 7 && KeysBelow(list, n) && DistinctKeys(list) && e.key == DayKey(n)
    ensures KeysBelow(list + [e], n + 1) && DistinctKeys(list + [e])
  {
    hide DayKey;
    hide DayIndex;
    DayOfKey(n);
    forall i | 0 <= i < |list| ensures list[i].key != e.key {
      assert list[i] in list;
      var d: nat :| d < n && list[i].key == DayKey(d);
      DayOfKey(d);
    }
  }

  lemma {:induction false} NormalizedKeys(rules: Rules, n: nat)
    requires n <= 7
    ensures KeysBelow(NormalizeDays(rules, n), n) && DistinctKeys(NormalizeDays(rules, n))
  {
    hide NormalizeDay;
    hide WindowsOf;
    hide DayKey;
    if n > 0 {
      NormalizedKeys(rules, n - 1);
      KeyAdded(NormalizeDays(rules, n - 1), n - 1, Entry(DayKey(n - 1), NormalizeDay(WindowsOf(rules, DayKey(n - 1)))));
      hide DistinctKeys;
      var init := NormalizeDays(rules, n - 1);
      assert init + [] == init;
    }
  }

  lemma {:induction false} SameDays(a: Rules, b: Rules, n: nat)
    requires n <= 7
    requires forall day: nat | day < 7 ::
      NormalizeDay(WindowsOf(a, DayKey(day))) == NormalizeDay(WindowsOf(b, DayKey(day)))
    ensures NormalizeDays(a, n) == NormalizeDays(b, n)
  {
    hide NormalizeDay;
    hide WindowsOf;
    if n > 0 { SameDays(a, b, n - 1); }
  }

  /** Normalizing twice is normalizing once, in whatever order the second run visits
      the entries of the first one's map. */
  lemma NormalizeIsIdempotent(rules: Rules, again: Rules)
    requires forall e :: e in again <==> e in Normalize(rules)
    requires forall i, j | 0 <= i < j < |again| :: again[i].key != again[j].key
    ensures Normalize(again) == Normalize(rules)
  {
    var once := Normalize(rules);
    NormalizedKeys(rules, 7);
    forall e | e in once ensures ToLower(e.key) == e.key {
      var d: nat :| d < 7 && e.key == DayKey(d);
      DayKeysAreLower(d);
    }
    hide Normalize;
    forall i | 0 <= i < |again| ensures ToLower(again[i].key) == again[i].key { assert again[i] in once; }
    forall i | 0 <= i < |once| ensures ToLower(once[i].key) == once[i].key { assert once[i] in once; }
    hide ToLower;
    forall day: nat | day < 7
      ensures NormalizeDay(WindowsOf(again, DayKey(day))) == NormalizeDay(WindowsOf(rules, DayKey(day)))
    {
      OneEntryWindows(again, DayKey(day));
      OneEntryWindows(once, DayKey(day));
      SameWindows(once, again, DayKey(day));
      NormalizedOnce(rules, day);
      NormalizeDayTwice(WindowsOf(rules, DayKey(day)));
      hide NormalizeDay;
      hide WindowsOf;
    }
    SameDays(again, rules, 7);
    NormalizeUnfolds(again);
    NormalizeUnfolds(rules);
  }

  lemma NormalizeUnfolds(rules: Rules)
    ensures Normalize(rules) == NormalizeDays(rules, 7)
  {
  }

  lemma NormalizedOnce(rules: Rules, day: nat)
    requires day < 7
    ensures WindowsOf(Normalize(rules), DayKey(day)) == NormalizeDay(WindowsOf(rules, DayKey(day)))
  {
    NormalizedWindows(rules, 7, day);
  }

  lemma SameWindows(a: Rules, b: Rules, day: string)
    requires forall e :: e in b <==> e in a
    requires forall e | e in a && ToLower(e.key) == day :: WindowsOf(a, day) == e.windows
    requires (forall e | e in a :: ToLower(e.key) != day) ==> WindowsOf(a, day) == []
    requires forall e | e in b && ToLower(e.key) == day :: WindowsOf(b, day) == e.windows
    requires (forall e | e in b :: ToLower(e.key) != day) ==> WindowsOf(b, day) == []
    ensures WindowsOf(a, day) == WindowsOf(b, day)
  {
    hide ToLower;
    hide WindowsOf;
  }

  // ----- validation -----

  /** Validate reports no problem. */
  predicate Valid(rules: Rules) {
    forall e | e in rules ::
      DayIndex(ToLower(e.key)) < 7 && forall w | w in e.windows :: ParseInterval(w).Some?
  }

  lemma {:induction false} NoneDropped(windows: seq<string>)
    requires forall w | w in windows :: ParseInterval(w).Some?
    ensures |NormalizeDay(windows)| == |windows|
  {
    assert |SortByStart(ParseAll(windows))| == |multiset(SortByStart(ParseAll(windows)))| == |ParseAll(windows)|;
    AllParse(windows);
  }

  lemma {:induction false} AllParse(windows: seq<string>)
    requires forall w | w in windows :: ParseInterval(w).Some?
    ensures |ParseAll(windows)| == |windows|
  {
    hide ParseInterval;
    if windows != [] { AllParse(windows[..|windows| - 1]); }
  }

  /** Valid rules lose no window to normalizing, day by day; other rules are still
      normalized, without what does not parse. */
  lemma ValidKeepsWindows(rules: Rules, day: nat)
    requires day < 7 && Valid(rules)
    ensures |WindowsOf(Normalize(rules), DayKey(day))| == |WindowsOf(rules, DayKey(day))|
    ensures Valid(Normalize(rules))
  {
    forall w | w in WindowsOf(rules, DayKey(day)) ensures ParseInterval(w).Some? {
      WindowsOfMembers(rules, DayKey(day), w);
    }
    NoneDropped(WindowsOf(rules, DayKey(day)));
    NormalizedOnce(rules, day);
    NormalizedValid(rules, 7);
    hide ParseInterval;
    hide ToLower;
    hide WindowsOf;
    hide NormalizeDay;
  }

  lemma {:induction false} FormattedAllParse(list: seq<Interval>)
    requires forall iv | iv in list :: ValidInterval(iv)
    ensures forall w | w in FormatAll(list) :: ParseInterval(w).Some?
  {
    hide ParseInterval;
    hide FormatInterval;
    forall w | w in FormatAll(list) ensures ParseInterval(w).Some? {
      var k :| 0 <= k < |list| && FormatAll(list)[k] == w;
      FormattedParses(list[k]);
    }
  }

  lemma {:induction false} NormalizedValid(rules: Rules, n: nat)
    requires n <= 7
    ensures Valid(NormalizeDays(rules, n))
  {
    hide ParseInterval;
    hide ToLower;
    hide Sorted;
    hide FormatAll;
    hide WindowsOf;
    hide DayKey;
    hide DayIndex;
    if n > 0 {
      NormalizedValid(rules, n - 1);
      DayKeysAreLower(n - 1);
      DayOfKey(n - 1);
      FormattedAllParse(Sorted(WindowsOf(rules, DayKey(n - 1))));
    }
  }
}

/** The schedule's evaluation and clean-up in their own form. */
module Schedule {
  import opened Wrappers
  import opened ScheduleSpec
  import opened ScheduleProofs

  /** One more entry of the rules. */
  lemma EntryAdds(rules: Rules, k: nat, day: nat)
    requires k < |rules| && day < 7
    ensures var e := rules[k];
      ParseAll(WindowsOf(rules[..k + 1], DayKey(day)))
      == ParseAll(WindowsOf(rules[..k], DayKey(day)))
         + if DayIndex(ToLower(e.key)) == day then ParseAll(e.windows) else []
  {
    var e := rules[k];
    hide ToLower;
    hide ParseAll;
    assert rules[..k + 1][..k] == rules[..k];
    assert ToLower(e.key) == DayKey(day) <==> DayIndex(ToLower(e.key)) == day by { DayOfKey(day); }
    hide DayIndex;
    hide DayKey;
    ParseAllSplit(WindowsOf(rules[..k], DayKey(day)), e.windows);
    if ToLower(e.key) != DayKey(day) {
      assert WindowsOf(rules[..k + 1], DayKey(day)) == WindowsOf(rules[..k], DayKey(day));
    }
  }

  /** compile: the windows of each weekday, malformed ones left out. */
  method Compile(rules: Rules) returns (c: array<seq<Interval>>)
    ensures fresh(c) && c.Length == 7
    ensures forall d | 0 <= d < 7 :: c[d] == ParseAll(WindowsOf(rules, DayKey(d)))
  {
    hide WindowsOf;
    hide ParseAll;
    hide ToLower;
    hide DayKey;
    hide DayIndex;
    NoRules();
    c := new seq<Interval>[7](_ => []);
    for k := 0 to |rules|
      invariant forall d | 0 <= d < 7 :: c[d] == ParseAll(WindowsOf(rules[..k], DayKey(d)))
    {
      var e := rules[k];
      var di := DayIndex(ToLower(e.key));
      forall d | 0 <= d < 7
        ensures ParseAll(WindowsOf(rules[..k + 1], DayKey(d)))
                == ParseAll(WindowsOf(rules[..k], DayKey(d))) + if di == d then ParseAll(e.windows) else []
      {
        EntryAdds(rules, k, d);
      }
      if di < 7 {
        var list := ParseEach(e.windows);
        c[di] := c[di] + list;
      }
    }
    assert rules[..|rules|] == rules;
  }

  lemma NoRules()
    ensures forall d: nat | d < 7 :: ParseAll(WindowsOf([], DayKey(d))) == []
  {
  }

  method ParseEach(windows: seq<string>) returns (list: seq<Interval>)
    ensures list == ParseAll(windows)
  {
    list := [];
    for k := 0 to |windows|
      invariant list == ParseAll(windows[..k])
    {
      assert windows[..k + 1][..k] == windows[..k];
      var iv := ParseInterval(windows[k]);
      if iv.Some? { list := list + [iv.value]; }
    }
    assert windows[..|windows|] == windows;
  }

  lemma {:induction false} ParseAllSplit(a: seq<string>, b: seq<string>)
    ensures ParseAll(a + b) == ParseAll(a) + ParseAll(b)
  {
    hide ParseInterval;
    if b == [] {
      assert a + b == a;
    } else {
      assert (a + b)[..|a + b| - 1] == a + b[..|b| - 1];
      ParseAllSplit(a, b[..|b| - 1]);
    }
  }

  /** Active at a minute of a weekday: membership in the union of the windows. */
  method Active(rules: Rules, day: nat, minute: nat) returns (active: bool)
    requires day < 7 && minute < DAY
    ensures active <==> Armed(rules, day * DAY + minute)
  {
    hide ParseAll;
    hide WindowsOf;
    hide Armed;
    var c := Compile(rules);
    ghost var now := day * DAY + minute;
    var prev := (day + 6) % 7;
    var today, yesterday := c[day], c[prev];
    for k := 0 to |today|
      invariant forall iv | iv in today[..k] :: !Covers(day, iv, now)
    {
      var iv := today[k];
      TestIsCover(day, minute, day, iv);
      if iv.wrap {
        if minute >= iv.start { CoverArms(rules, day, iv, now); return true; }
      } else if minute >= iv.start && minute < iv.end {
        CoverArms(rules, day, iv, now);
        return true;
      }
      assert today[..k + 1] == today[..k] + [iv];
    }
    assert today[..|today|] == today;
    for k := 0 to |yesterday|
      invariant forall iv | iv in yesterday[..k] :: !Covers(prev, iv, now)
    {
      var iv := yesterday[k];
      TestIsCover(day, minute, prev, iv);
      if iv.wrap && minute < iv.end { CoverArms(rules, prev, iv, now); return true; }
      assert yesterday[..k + 1] == yesterday[..k] + [iv];
    }
    assert yesterday[..|yesterday|] == yesterday;
    NoOtherDay(rules, day, minute);
    active := false;
  }

  lemma CoverArms(rules: Rules, day: nat, iv: Interval, now: int)
    requires day < 7 && iv in ParseAll(WindowsOf(rules, DayKey(day))) && Covers(day, iv, now)
    ensures Armed(rules, now)
  {
    ArmedByDay(rules, now);
    assert DayArmed(rules, day, now);
  }

  /** Windows of other days do not reach this minute. */
  lemma NoOtherDay(rules: Rules, day: nat, minute: nat)
    requires day < 7 && minute < DAY
    requires forall iv | iv in ParseAll(WindowsOf(rules, DayKey(day))) :: !Covers(day, iv, day * DAY + minute)
    requires var prev := (day + 6) % 7;
      forall iv | iv in ParseAll(WindowsOf(rules, DayKey(prev))) :: !Covers(prev, iv, day * DAY + minute)
    ensures !Armed(rules, day * DAY + minute)
  {
    var now := day * DAY + minute;
    ArmedByDay(rules, now);
    forall own: nat | own < 7 ensures !DayArmed(rules, own, now) {
      forall iv | iv in ParseAll(WindowsOf(rules, DayKey(own))) ensures !Covers(own, iv, now) {
        TestIsCover(day, minute, own, iv);
      }
    }
    hide Armed;
    hide DayArmed;
  }

  /** The windows of one weekday. */
  method CollectDay(rules: Rules, day: string) returns (windows: seq<string>)
    ensures windows == WindowsOf(rules, day)
  {
    windows := [];
    for k := 0 to |rules|
      invariant windows == WindowsOf(rules[..k], day)
    {
      assert rules[..k + 1][..k] == rules[..k];
      if ToLower(rules[k].key) == day { windows := windows + rules[k].windows; }
    }
    assert rules[..|rules|] == rules;
  }

  method Normalize(rules: Rules) returns (out: Rules)
    ensures out == ScheduleSpec.Normalize(rules)
  {
    out := [];
    for n := 0 to 7
      invariant out == NormalizeDays(rules, n)
    {
      var windows := CollectDay(rules, DayKey(n));
      var parsed := ParseEach(windows);
      var sorted := SortByStart(parsed);
      assert forall iv | iv in sorted :: iv in multiset(sorted);
      var texts := FormatAll(sorted);
      if |texts| != 0 { out := out + [Entry(DayKey(n), texts)]; }
    }
  }
}
