// The daily upload times: what parse_schedule_times accepts and which instant
// compute_next_run picks (cc_usage_reporter/cc_usage_reporter/scheduler.py).
//
// Instants are microseconds of local time counted from some midnight, so a day has
// 86_400_000_000 of them and the time of day is the remainder.
module Schedule {
  import opened Options
  import opened Text

  /* ---------- str.split and str.join ---------- */

  function Split(s: string, sep: char): (parts: seq<string>)
    ensures |parts| > 0
  {
    if s == [] then [[]]
    else
      var rest := Split(s[1..], sep);
      if s[0] == sep then [[]] + rest else [[s[0]] + rest[0]] + rest[1..]
  }

  function Join(parts: seq<string>, sep: char): string
    requires |parts| > 0
  {
    if |parts| == 1 then parts[0] else parts[0] + [sep] + Join(parts[1..], sep)
  }

  lemma {:induction false} JoinSplit(s: string, sep: char)
    ensures Join(Split(s, sep), sep) == s
    ensures forall i :: 0 <= i < |Split(s, sep)| ==> sep !in Split(s, sep)[i]
  {
    if s != [] {
      JoinSplit(s[1..], sep);
      var rest := Split(s[1..], sep);
      if s[0] == sep {
        assert ([[]] + rest)[1..] == rest;
      } else {
        assert ([[s[0]] + rest[0]] + rest[1..])[1..] == rest[1..];
        assert s == [s[0]] + s[1..];
      }
    }
  }

  lemma {:induction false} SplitWhole(a: string, sep: char)
    requires sep !in a
    ensures Split(a, sep) == [a]
  {
    if a != [] {
      SplitWhole(a[1..], sep);
      assert a == [a[0]] + a[1..];
    }
  }

  lemma {:induction false} SplitOnce(a: string, sep: char, b: string)
    requires sep !in a && sep !in b
    ensures Split(a + [sep] + b, sep) == [a, b]
  {
    var s := a + [sep] + b;
    if a == [] {
      assert s[1..] == b;
      SplitWhole(b, sep);
    } else {
      assert s[1..] == a[1..] + [sep] + b;
      SplitOnce(a[1..], sep, b);
      assert a == [a[0]] + a[1..];
    }
  }

  /* ---------- int(text) ---------- */

  // Digits, with single underscores allowed between them.
  predicate Grouped(s: string) {
    && s != [] && IsDigit(s[0]) && IsDigit(s[|s| - 1])
    && (forall i :: 0 <= i < |s| ==> IsDigit(s[i]) || s[i] == '_')
    && forall i, j :: 0 <= i < |s| && 0 <= j < |s| && j == i + 1 ==> s[i] != '_' || s[j] != '_'
  }

  function Ungrouped(s: string): (t: string)
    requires forall i :: 0 <= i < |s| ==> IsDigit(s[i]) || s[i] == '_'
    ensures forall i :: 0 <= i < |t| ==> IsDigit(t[i])
    ensures '_' !in s ==> t == s
  {
    if s == [] then []
    else if s[0] == '_' then Ungrouped(s[1..])
    else [s[0]] + Ungrouped(s[1..])
  }

  function Magnitude(s: string): Option<int> {
    if Grouped(s) then Some(Number(Ungrouped(s))) else None
  }

  function SignedInt(t: string): Option<int> {
    if t == [] then None
    else if t[0] == '+' || t[0] == '-' then
      var n := Magnitude(t[1..]);
      if n == None then None else Some(if t[0] == '-' then -n.value else n.value)
    else
      var n := Magnitude(t);
      if n == None then None else Some(n.value)
  }

  function Int(s: string): Option<int> {
    SignedInt(Trim(s))
  }

  // int() of a plain number, with or without a sign.
  lemma IntOfDigits(s: string)
    requires s != [] && forall i :: 0 <= i < |s| ==> IsDigit(s[i])
    ensures Int(s) == Some(Number(s)) && Int("+" + s) == Some(Number(s)) && Int("-" + s) == Some(0 - Number(s))
  {
    hide Trim, Magnitude, Number, IsSpace, SignedInt;
    MagnitudeOfDigits(s);
    NoSpaceOutside(s, s);
    NoSpaceOutside("+" + s, s);
    NoSpaceOutside("-" + s, s);
    SignsOf(s, Number(s));
  }

  lemma SignsOf(s: string, n: nat)
    requires s != [] && IsDigit(s[0]) && Magnitude(s) == Some(n)
    ensures SignedInt(s) == Some(n) && SignedInt("+" + s) == Some(n) && SignedInt("-" + s) == Some(0 - n)
  {
    hide Magnitude;
    assert ("+" + s)[1..] == s && ("-" + s)[1..] == s;
  }

  // Digits may be grouped by single underscores ...
  lemma GroupedDigits(a: string, b: string)
    requires a != "" && b != "" && forall c :: c in a || c in b ==> IsDigit(c)
    ensures Magnitude(a + "_" + b) == Some(Number(a + b))
  {
    hide Number, IsDigit;
    var s := a + "_" + b;
    forall i | 0 <= i < |s| ensures IsDigit(s[i]) || s[i] == '_' {
      assert s[i] in a || s[i] == '_' || s[i] in b;
    }
    assert s[0] in a && s[|s| - 1] in b;
    forall i, j | 0 <= i < |s| && 0 <= j < |s| && j == i + 1 ensures s[i] != '_' || s[j] != '_' {
      DigitIsNoUnderscore(a, b, if i < |a| then s[i] else s[j]) by { assert i < |a| ==> s[i] in a; assert i >= |a|
          ==> s[j] in b; }
    }
    UngroupedTwo(a, b);
  }

  lemma DigitIsNoUnderscore(a: string, b: string, c: char)
    requires c in a || c in b
    requires forall d :: d in a || d in b ==> IsDigit(d)
    ensures c != '_'
  {
  }

  // ... and only so.
  lemma NotGrouped(a: string, b: string)
    ensures Magnitude("") == None && Magnitude("_" + a) == None && Magnitude(a + "_") == None
    ensures Magnitude(a + "__" + b) == None
  {
    var t := a + "__" + b;
    assert t[|a|] == '_' && t[|a| + 1] == '_';
    assert (a + "_")[|a|] == '_' && ("_" + a)[0] == '_';
    hide Number, Ungrouped;
  }

  lemma {:induction false} UngroupedTwo(a: string, b: string)
    requires forall c :: c in a || c in b ==> IsDigit(c)
    requires forall i :: 0 <= i < |a + "_" + b| ==> IsDigit((a + "_" + b)[i]) || (a + "_" + b)[i] == '_'
    ensures Ungrouped(a + "_" + b) == a + b
  {
    var s := a + "_" + b;
    if a == [] {
      assert s[1..] == b && '_' !in b;
    } else {
      assert a[0] in a && s[1..] == a[1..] + "_" + b;
      UngroupedTwo(a[1..], b);
    }
  }

  lemma NoSpaceOutside(t: string, s: string)
    requires s != [] && forall i :: 0 <= i < |s| ==> IsDigit(s[i])
    requires t == s || t == "+" + s || t == "-" + s
    ensures Trim(t) == t
  {
    hide Trim;
    assert IsDigit(s[0]) && IsDigit(s[|s| - 1]);
    assert t[|t| - 1] == s[|s| - 1];
  }

  /* ---------- a clock time ---------- */

  // strptime's %H and %M: one digit, or two.
  predicate HourText(s: string) {
    || (|s| == 1 && IsDigit(s[0]))
    || (|s| == 2 && '0' <= s[0] <= '1' && IsDigit(s[1]))
    || (|s| == 2 && s[0] == '2' && '0' <= s[1] <= '3')
  }

  predicate MinuteText(s: string) {
    || (|s| == 1 && IsDigit(s[0]))
    || (|s| == 2 && '0' <= s[0] <= '5' && IsDigit(s[1]))
  }

  // datetime.strptime(item, "%H:%M") succeeds.
  predicate Accepts(item: string) {
    exists i :: 0 <= i < |item| && item[i] == ':' && HourText(item[..i]) && MinuteText(item[i + 1..])
  }

  // hour, minute = map(int, item.split(":")), as used by datetime.replace: the time of day,
  // or None where one of the three raises.
  function ClockOf(item: string): (clock: Option<nat>)
    ensures clock.Some? ==> clock.value < 86_400_000_000
  {
    var parts := Split(item, ':');
    if |parts| == 2 then TimeOfDay(Int(parts[0]), Int(parts[1])) else None
  }

  function TimeOfDay(hour: Option<int>, minute: Option<int>): (clock: Option<nat>)
    ensures clock.Some? ==> clock.value < 86_400_000_000
  {
    if hour.Some? && minute.Some? && 0 <= hour.value < 24 && 0 <= minute.value < 60
    then Some(hour.value * 3_600_000_000 + minute.value * 60_000_000)
    else None
  }

  // A time of day is read exactly from two numbers in range, with one colon between them.
  lemma ClockOfExactly(item: string, h: int, m: int)
    ensures ClockOf(item) == Some(h * 3_600_000_000 + m * 60_000_000) && 0 <= h < 24 && 0 <= m < 60 <==>
            && 0 <= h < 24 && 0 <= m < 60
            && exists a, b :: item == a + ":" + b && ':' !in a && ':' !in b && Int(a) == Some(h) && Int(b) == Some(m)
  {
    hide Int, Split;
    var parts := Split(item, ':');
    JoinSplit(item, ':');
    if |parts| == 2 {
      assert Join(parts, ':') == parts[0] + [':'] + Join(parts[1..], ':');
      assert item == parts[0] + ":" + parts[1];
    }
    forall a, b | item == a + ":" + b && ':' !in a && ':' !in b ensures parts == [a, b] {
      SplitOnce(a, ':', b);
    }
    if ClockOf(item) == Some(h * 3_600_000_000 + m * 60_000_000) && 0 <= h < 24 && 0 <= m < 60 {
      ClockParts(Int(parts[0]).value, Int(parts[1]).value, h, m);
    }
  }

  lemma ClockParts(h: int, m: int, k: int, n: int)
    requires 0 <= h < 24 && 0 <= m < 60 && 0 <= k < 24 && 0 <= n < 60
    requires h * 3_600_000_000 + m * 60_000_000 == k * 3_600_000_000 + n * 60_000_000
    ensures h == k && m == n
  {
  }

  // How n may be written in a clock time: with or without the leading zero.
  predicate Writes(s: string, n: nat) {
    s == Digits(n) || (n < 10 && s == "0" + Digits(n))
  }

  lemma TwoDigits(n: nat)
    requires n < 100
    ensures n < 10 ==> Digits(n) == ['0' + n as char]
    ensures n >= 10 ==> Digits(n) == ['0' + (n / 10) as char, '0' + (n % 10) as char]
  {
    assert n >= 10 ==> Digits(n / 10) == ['0' + (n / 10) as char];
  }

  function Written(s: string): nat
    requires |s| == 1 || |s| == 2
    requires forall i :: 0 <= i < |s| ==> IsDigit(s[i])
  {
    assert IsDigit(s[0]) && IsDigit(s[|s| - 1]);
    if |s| == 1 then s[0] as int - '0' as int
    else 10 * (s[0] as int - '0' as int) + (s[1] as int - '0' as int)
  }

  lemma HourTextExactly(s: string, n: nat)
    ensures (n < 24 && Writes(s, n)) <==> (HourText(s) && n == Written(s))
  {
    if n < 24 { TwoDigits(n); }
  }

  lemma MinuteTextExactly(s: string, n: nat)
    ensures (n < 60 && Writes(s, n)) <==> (MinuteText(s) && n == Written(s))
  {
    if n < 60 { TwoDigits(n); }
  }

  lemma IntOfWritten(s: string)
    requires |s| == 1 || |s| == 2
    requires forall i :: 0 <= i < |s| ==> IsDigit(s[i])
    ensures Int(s) == Some(Written(s))
  {
    DigitsTrimmed(s);
    NumberOfWritten(s);
    MagnitudeOfDigits(s);
    hide Trim, Magnitude, Number, Written;
    assert IsDigit(s[0]);
  }

  lemma DigitsTrimmed(s: string)
    requires s != [] && IsDigit(s[0]) && IsDigit(s[|s| - 1])
    ensures Trim(s) == s
  {
    hide Trim;
  }

  lemma MagnitudeOfDigits(s: string)
    requires s != [] && forall i :: 0 <= i < |s| ==> IsDigit(s[i])
    ensures Magnitude(s) == Some(Number(s))
  {
    hide Number, Ungrouped;
  }

  lemma NumberOfWritten(s: string)
    requires |s| == 1 || |s| == 2
    requires forall i :: 0 <= i < |s| ==> IsDigit(s[i])
    ensures Number(s) == Written(s)
  {
    assert s[..|s| - 1][..0] == [];
    assert Number([]) == 0;
    if |s| == 2 {
      assert s[..1][..0] == [] && Number(s[..1]) == s[0] as int - '0' as int;
    } else {
      assert s[..0] == [];
    }
  }

  // strptime accepts exactly the texts hour ':' minute with hour < 24 and minute < 60, each
  // with or without a leading zero, and the arithmetic of compute_next_run reads them back.
  lemma AcceptsExactly(item: string)
    ensures Accepts(item) <==>
            exists a: string, h: nat, b: string, m: nat ::
              item == a + ":" + b && h < 24 && Writes(a, h) && m < 60 && Writes(b, m)
  {
    if Accepts(item) {
      var i :| 0 <= i < |item| && item[i] == ':' && HourText(item[..i]) && MinuteText(item[i + 1..]);
      var a, b := item[..i], item[i + 1..];
      HourTextExactly(a, Written(a));
      MinuteTextExactly(b, Written(b));
      assert item == a + ":" + b;
    }
    forall a: string, h: nat, b: string, m: nat
      | item == a + ":" + b && h < 24 && Writes(a, h) && m < 60 && Writes(b, m)
      ensures Accepts(item)
    {
      HourTextExactly(a, h);
      MinuteTextExactly(b, m);
      assert item[|a|] == ':' && item[..|a|] == a && item[|a| + 1..] == b;
    }
  }

  lemma WrittenClock(a: string, h: nat, b: string, m: nat)
    requires h < 24 && Writes(a, h) && m < 60 && Writes(b, m)
    ensures Accepts(a + ":" + b)
    ensures ClockOf(a + ":" + b) == Some(h * 3_600_000_000 + m * 60_000_000)
  {
    AcceptsExactly(a + ":" + b);
    hide Int, Digits, Split;
    HourTextExactly(a, h);
    MinuteTextExactly(b, m);
    SplitOnce(a, ':', b);
    IntOfWritten(a);
    IntOfWritten(b);
  }

  // A schedule that was accepted never makes compute_next_run fail.
  lemma AcceptedIsReadable(item: string)
    requires Accepts(item)
    ensures ClockOf(item).Some?
  {
    AcceptsExactly(item);
    var a: string, h: nat, b: string, m: nat :|
      item == a + ":" + b && h < 24 && Writes(a, h) && m < 60 && Writes(b, m);
    WrittenClock(a, h, b, m);
  }

  /* ---------- parse_schedule_times ---------- */

  // The setting is missing, a list of texts, or one text.
  datatype Setting = Missing | Several(items: seq<string>) | Line(text: string)

  datatype Parsed = Times(times: seq<string>) | NoTimes | BadTime(item: string)

  const DEFAULT_TIMES: seq<string> := ["10:00", "18:00"]

  function NonBlank(items: seq<string>): (r: seq<string>)
    ensures forall i :: 0 <= i < |r| ==> r[i] != "" && Trimmed(r[i])
  {
    if items == [] then []
    else if Blank(items[|items| - 1]) then NonBlank(items[..|items| - 1])
    else NonBlank(items[..|items| - 1]) + [Trim(items[|items| - 1])]
  }

  function Listed(setting: Setting): seq<string> {
    match setting
    case Missing => DEFAULT_TIMES
    case Several(items) => NonBlank(items)
    case Line(text) => NonBlank(Split(text, ','))
  }

  // What is listed, apart from how it is found: item by item, in order, the blank ones dropped
  // and the others trimmed.
  lemma {:induction false} NonBlankConcat(a: seq<string>, b: seq<string>)
    ensures NonBlank(a + b) == NonBlank(a) + NonBlank(b)
  {
    hide Trim;
    if b == [] {
      assert a + b == a;
    } else {
      assert (a + b)[..|a + b| - 1] == a + b[..|b| - 1];
      NonBlankConcat(a, b[..|b| - 1]);
    }
  }

  lemma NonBlankOne(item: string)
    ensures NonBlank([item]) == if forall k :: 0 <= k < |item| ==> IsSpace(item[k]) then [] else [Trim(item)]
  {
    hide Trim, IsSpace;
    assert [item][..0] == [];
    assert NonBlank([item]) == if Blank(item) then [] else [Trim(item)];
    if forall k :: 0 <= k < |item| ==> IsSpace(item[k]) {
      TrimIs(item, 0, 0);
    } else {
      var i, j := TrimDropsSpaces(item);
    }
  }

  // A missing setting is the default schedule.
  lemma DefaultSchedule()
    ensures Parse(Missing) == Times(["10:00", "18:00"])
  {
    TwoDigitClock('1', '0');
    TwoDigitClock('1', '8');
    hide Accepts;
    assert ['1', '0'] + ":00" == "10:00" == DEFAULT_TIMES[0];
    assert ['1', '8'] + ":00" == "18:00" == DEFAULT_TIMES[1];
    FirstBadExactly(DEFAULT_TIMES, 2);
  }

  lemma TwoDigitClock(h: char, i: char)
    requires '0' <= h <= '1' && IsDigit(i)
    ensures Accepts([h, i] + ":00")
  {
    var item := [h, i] + ":00";
    assert item[2] == ':' && item[..2] == [h, i] && item[3..] == "00";
    assert HourText(item[..2]) && MinuteText(item[3..]);
  }

  // Two accepted times on one line, separated by a comma and a space, are both found.
  lemma TwoTimesOnALine(a: string, b: string)
    requires Accepts(a) && Accepts(b)
    ensures Parse(Line(a + ", " + b)) == Times([a, b])
  {
    hide Accepts, IsSpace, Trim, Split, Trimmed;
    AcceptedIsPlain(a);
    AcceptedIsPlain(b);
    assert a + ", " + b == a + [','] + (" " + b);
    SplitOnce(a, ',', " " + b);
    TrimIs(a, 0, |a|) by { assert a[0..|a|] == a; }
    TrimIs(" " + b, 1, |b| + 1) by { assert (" " + b)[1..] == b && (" " + b)[1..|b| + 1] == b; SpaceIsSpace(); }
    NonBlankTwo(a, " " + b);
    FirstBadExactly([a, b], 2);
  }

  lemma SpaceIsSpace()
    ensures IsSpace(' ')
  {
  }

  lemma NonBlankTwo(a: string, b: string)
    requires !Blank(a) && !Blank(b)
    ensures NonBlank([a, b]) == [Trim(a), Trim(b)]
  {
    hide Trim;
    assert [a, b][..1] == [a] && [a][..0] == [];
    assert NonBlank([]) == [];
    assert NonBlank([a]) == NonBlank([a][..0]) + [Trim(a)];
  }

  lemma AcceptedIsPlain(item: string)
    requires Accepts(item)
    ensures item != "" && Trimmed(item) && ',' !in item
  {
    var i :| 0 <= i < |item| && item[i] == ':' && HourText(item[..i]) && MinuteText(item[i + 1..]);
    var a, b := item[..i], item[i + 1..];
    TextsAreDigits(a, b);
    hide HourText, MinuteText;
    assert item == a + [':'] + b;
    assert IsDigit(a[0]) && IsDigit(b[|b| - 1]) && item[0] == a[0] && item[|item| - 1] == b[|b| - 1];
  }

  lemma TextsAreDigits(a: string, b: string)
    requires HourText(a) && MinuteText(b)
    ensures a != "" && b != "" && (forall c :: c in a || c in b ==> IsDigit(c))
    ensures (forall k :: 0 <= k < |a| ==> IsDigit(a[k])) && (forall k :: 0 <= k < |b| ==> IsDigit(b[k]))
  {
  }

  method ParseScheduleTimes(setting: Setting) returns (parsed: Parsed)
    ensures parsed == NoTimes <==> Listed(setting) == []
    ensures parsed.Times? <==>
            Listed(setting) != [] && forall i :: 0 <= i < |Listed(setting)| ==> Accepts(Listed(setting)[i])
    ensures parsed.Times? ==> parsed.times == Listed(setting)
    ensures parsed.BadTime? ==>
              exists i :: 0 <= i < |Listed(setting)| && Listed(setting)[i] == parsed.item && !Accepts(parsed.item)
                          && forall j :: 0 <= j < i ==> Accepts(Listed(setting)[j])
    ensures parsed == Parse(setting)
  {
    hide Accepts, NonBlank, Split;
    var values: seq<string>;
    match setting {
      case Missing => values := DEFAULT_TIMES;
      case Several(items) => values := Clean(items);
      case Line(text) => values := Clean(Split(text, ','));
    }
    if values == [] {
      return NoTimes;
    }
    var times: seq<string> := [];
    for i := 0 to |values|
      invariant times == values[..i]
      invariant forall j :: 0 <= j < i ==> Accepts(values[j])
    {
      if !Accepts(values[i]) {
        FirstBadExactly(values, i);
        return BadTime(values[i]);
      }
      times := times + [values[i]];
    }
    FirstBadExactly(values, |values|);
    return Times(times);
  }

  method Clean(items: seq<string>) returns (kept: seq<string>)
    ensures kept == NonBlank(items)
  {
    kept := [];
    for i := 0 to |items|
      invariant kept == NonBlank(items[..i])
    {
      assert items[..i + 1][..i] == items[..i];
      var item := Trim(items[i]);
      if item != "" {
        kept := kept + [item];
      }
    }
    assert items[..|items|] == items;
  }

  // The position of the first item strptime rejects; the length if there is none.
  function FirstBad(items: seq<string>): (i: nat)
    ensures i <= |items|
  {
    if items == [] || !Accepts(items[0]) then 0 else 1 + FirstBad(items[1..])
  }

  lemma {:induction false} FirstBadExactly(items: seq<string>, i: nat)
    requires i <= |items|
    ensures (i == FirstBad(items)) <==>
            ((i < |items| ==> !Accepts(items[i])) && forall j :: 0 <= j < i ==> Accepts(items[j]))
  {
    if items != [] && Accepts(items[0]) {
      if i > 0 {
        FirstBadExactly(items[1..], i - 1);
        assert forall j :: 0 <= j < i - 1 ==> items[1..][j] == items[j + 1];
        assert forall j :: 0 < j < i ==> items[j] == items[1..][j - 1];
      }
    }
  }

  // The outcome as a value, for the scheduler's steps.
  function Parse(setting: Setting): Parsed {
    var items := Listed(setting);
    if items == [] then NoTimes
    else if FirstBad(items) < |items| then BadTime(items[FirstBad(items)])
    else Times(items)
  }

  lemma ParsedTimesAreReadable(setting: Setting)
    requires Parse(setting).Times?
    ensures Readable(Parse(setting).times)
  {
    var items := Parse(setting).times;
    FirstBadExactly(items, |items|);
    forall i | 0 <= i < |items| ensures ClockOf(items[i]).Some? {
      AcceptedIsReadable(items[i]);
    }
  }

  /* ---------- compute_next_run ---------- */

  predicate DueAt(times: seq<string>, t: int) {
    exists i :: 0 <= i < |times| && ClockOf(times[i]) == Some(t % 86_400_000_000)
  }

  // The first instant after now at which the schedule is due.
  ghost predicate IsNext(times: seq<string>, now: int, t: int) {
    now < t && DueAt(times, t) && forall u :: now < u && DueAt(times, u) ==> t <= u
  }

  // One time of day: today at that time if that is still to come, otherwise tomorrow.
  function Candidate(clock: nat, now: int): int {
    var today := now - now % 86_400_000_000 + clock;
    if today <= now then today + 86_400_000_000 else today
  }

  lemma CandidateIsNext(clock: nat, now: int, u: int)
    requires clock < 86_400_000_000
    ensures now < Candidate(clock, now) && Candidate(clock, now) % 86_400_000_000 == clock
    ensures now < u && u % 86_400_000_000 == clock ==> Candidate(clock, now) <= u
  {
    var q, r := now / 86_400_000_000, u / 86_400_000_000;
    assert now == q * 86_400_000_000 + now % 86_400_000_000;
    assert u == r * 86_400_000_000 + u % 86_400_000_000;
    assert Candidate(clock, now) == q * 86_400_000_000 + clock
        || Candidate(clock, now) == (q + 1) * 86_400_000_000 + clock;
  }

  predicate Readable(times: seq<string>) {
    times != [] && forall i :: 0 <= i < |times| ==> ClockOf(times[i]).Some?
  }

  // It fails exactly on an empty list or a text it cannot read; otherwise the result is the
  // first due instant after now.
  method ComputeNextRun(times: seq<string>, now: int) returns (next: Option<int>)
    ensures next.Some? <==> Readable(times)
    ensures next.Some? ==> IsNext(times, now, next.value)
  {
    hide ClockOf, Candidate, IsNext;
    var candidates: seq<int> := [];
    for i := 0 to |times|
      invariant |candidates| == i
      invariant forall j :: 0 <= j < i ==> ClockOf(times[j]).Some?
      invariant forall j :: 0 <= j < i ==> candidates[j] == Candidate(ClockOf(times[j]).value, now)
    {
      var clock := ClockOf(times[i]);
      if clock == None {
        return None;
      }
      candidates := candidates + [Candidate(clock.value, now)];
    }
    if candidates == [] {
      return None;
    }
    var k := LeastIndex(candidates);
    LeastCandidateIsNext(times, now, candidates, k);
    return Some(candidates[k]);
  }

  // Python's min.
  method LeastIndex(a: seq<int>) returns (k: nat)
    requires a != []
    ensures k < |a| && forall j :: 0 <= j < |a| ==> a[k] <= a[j]
  {
    k := 0;
    for i := 1 to |a|
      invariant k < i
      invariant forall j :: 0 <= j < i ==> a[k] <= a[j]
    {
      if a[i] < a[k] {
        k := i;
      }
    }
  }

  lemma LeastCandidateIsNext(times: seq<string>, now: int, candidates: seq<int>, k: nat)
    requires |candidates| == |times| && k < |times|
    requires forall i :: 0 <= i < |times| ==> ClockOf(times[i]).Some?
    requires forall i :: 0 <= i < |times| ==> candidates[i] == Candidate(ClockOf(times[i]).value, now)
    requires forall i :: 0 <= i < |candidates| ==> candidates[k] <= candidates[i]
    ensures IsNext(times, now, candidates[k])
  {
    hide ClockOf, Candidate;
    var t := candidates[k];
    CandidateIsNext(ClockOf(times[k]).value, now, t);
    assert ClockOf(times[k]) == Some(t % 86_400_000_000);
    forall u | now < u && DueAt(times, u) ensures t <= u {
      var i :| 0 <= i < |times| && ClockOf(times[i]) == Some(u % 86_400_000_000);
      CandidateIsNext(ClockOf(times[i]).value, now, u);
      assert t <= candidates[i];
    }
  }

  // The next run is at most a day away, and nothing else is the next run.
  lemma NextWithinADay(times: seq<string>, now: int, t: int)
    requires IsNext(times, now, t)
    ensures t <= now + 86_400_000_000
    ensures forall u :: IsNext(times, now, u) ==> u == t
  {
    hide ClockOf;
    var before := t - 86_400_000_000;
    assert before % 86_400_000_000 == t % 86_400_000_000;
    var i :| 0 <= i < |times| && ClockOf(times[i]) == Some(t % 86_400_000_000);
    assert ClockOf(times[i]) == Some(before % 86_400_000_000);
    assert DueAt(times, before);
  }

  // compute_next_run as a value, for the scheduler's steps.
  ghost function NextRun(times: seq<string>, now: int): (t: int)
    requires Readable(times)
    ensures IsNext(times, now, t)
  {
    NextRunExists(times, now);
    var t :| IsNext(times, now, t);
    t
  }

  lemma NextRunExists(times: seq<string>, now: int)
    requires Readable(times)
    ensures exists t :: IsNext(times, now, t)
  {
    hide ClockOf, Candidate;
    var candidates := seq(|times|, i requires 0 <= i < |times| => Candidate(ClockOf(times[i]).value, now));
    var k := LeastOf(candidates);
    LeastCandidateIsNext(times, now, candidates, k);
  }

  lemma {:induction false} LeastOf(a: seq<int>) returns (k: nat)
    requires a != []
    ensures k < |a| && forall j :: 0 <= j < |a| ==> a[k] <= a[j]
  {
    k := 0;
    if |a| > 1 {
      var front := a[..|a| - 1];
      k := LeastOf(front);
      assert forall j :: 0 <= j < |front| ==> a[j] == front[j];
      if a[|a| - 1] < a[k] {
        k := |a| - 1;
      }
    }
  }
}
