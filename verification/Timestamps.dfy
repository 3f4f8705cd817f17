/** Formatting a timestamp, and the order of formatted timestamps
    (`ms_to_iso` and `list_runs`, crates/vidarax-api/src/handlers.rs). */
module Timestamps {
  import opened Wrappers
  import opened Calendar
  import opened Sorting

  /** 10000-01-01T00:00:00.000Z, the first instant whose year has five digits. */
  const YEAR_10000_MS: nat := 253_402_300_800_000
  const DAY_MS: nat := 86_400_000

  // ------------------------------------------------------------ text

  function Digit(n: nat): char
    requires n < 10
  {
    (48 + n) as char
  }

  /** Decimal digits of `n`, at least `width` of them. */
  function Pad(n: nat, width: nat): string
    decreases n, width
  {
    if n < 10 && width <= 1 then [Digit(n)]
    else Pad(n / 10, if width <= 1 then 1 else width - 1) + [Digit(n % 10)]
  }

  /** A number of a formatted timestamp with what follows it. */
  datatype Field = Field(number: nat, width: nat, mark: char)

  function Join(fields: seq<Field>): string {
    if fields == [] then "" else Pad(fields[0].number, fields[0].width) + [fields[0].mark] + Join(fields[1..])
  }

  function Fields(ms: nat): seq<Field> {
    var seconds := ms / 1000;
    var timeOfDay := seconds % 86_400;
    var date := CivilFromDays(seconds / 86_400);
    [Field(date.year, 4, '-'), Field(date.month, 2, '-'), Field(date.day, 2, 'T'),
     Field(timeOfDay / 3600, 2, ':'), Field(timeOfDay % 3600 / 60, 2, ':'), Field(timeOfDay % 60, 2, '.'),
     Field(ms % 1000, 3, 'Z')]
  }

  function MsToIso(ms: nat): string { Join(Fields(ms)) }

  /** The clock time and the day add up to the timestamp, and each is in its range. */
  lemma FieldsRecombine(ms: nat)
    ensures var f := Fields(ms);
            && |f| == 7
            && ms == ms / 86_400_000 * 86_400_000
                     + f[3].number * 3_600_000 + f[4].number * 60_000 + f[5].number * 1_000 + f[6].number
            && f[3].number < 24 && f[4].number < 60 && f[5].number < 60 && f[6].number < 1_000
            && CivilFromDays(ms / 86_400_000) == Date(f[0].number, f[1].number, f[2].number)
  {
    hide CivilFromDays;
    TimeSplits(ms);
  }

  /** The number that decimal digits spell. */
  function Number(digits: string): int {
    if digits == "" then 0
    else 10 * Number(digits[..|digits| - 1]) + (digits[|digits| - 1] as int - '0' as int)
  }

  lemma {:induction false} PadReads(n: nat, width: nat)
    ensures Number(Pad(n, width)) == n
    decreases n, width
  {
    if n < 10 && width <= 1 {
      assert [Digit(n)][..0] == "";
    } else {
      var front := Pad(n / 10, if width <= 1 then 1 else width - 1);
      PadReads(n / 10, if width <= 1 then 1 else width - 1);
      assert (front + [Digit(n % 10)])[..|front|] == front;
    }
  }

  /** Reads decimals of these widths, each followed by its mark, and nothing more. */
  function Parse(text: string, widths: seq<nat>, marks: string): Option<seq<int>>
    requires |widths| == |marks|
    decreases |widths|
  {
    if widths == [] then if text == "" then Some([]) else None
    else if |text| <= widths[0] || text[widths[0]] != marks[0] then None
    else
      match Parse(text[widths[0] + 1..], widths[1..], marks[1..])
      case None => None
      case Some(rest) => Some([Number(text[..widths[0]])] + rest)
  }

  ghost predicate LaidOut(fields: seq<Field>, widths: seq<nat>, marks: string) {
    && |fields| == |widths| == |marks|
    && forall i :: 0 <= i < |fields| ==>
         && 1 <= fields[i].width == widths[i] && fields[i].mark == marks[i]
         && fields[i].number < Pow10(fields[i].width)
  }

  function Numbers(fields: seq<Field>): seq<int> {
    if fields == [] then [] else [fields[0].number] + Numbers(fields[1..])
  }

  lemma {:induction false} JoinParses(fields: seq<Field>, widths: seq<nat>, marks: string)
    requires LaidOut(fields, widths, marks)
    ensures Parse(Join(fields), widths, marks) == Some(Numbers(fields))
  {
    hide Pad, Number, Pow10;
    if fields != [] {
      JoinParses(fields[1..], widths[1..], marks[1..]);
      var p, rest := Pad(fields[0].number, fields[0].width), Join(fields[1..]);
      PadLength(fields[0].number, fields[0].width);
      PadReads(fields[0].number, fields[0].width);
      FirstField(p, fields[0].mark, rest);
    }
  }

  lemma FirstField(p: string, mark: char, rest: string)
    ensures var t := p + [mark] + rest;
            |p| < |t| && t[..|p|] == p && t[|p|] == mark && t[|p| + 1..] == rest
  {
  }

  /** Before the year 10000 a formatted timestamp has the layout of RFC 3339, to the
      millisecond, and reads back as its date and its clock time. */
  lemma TextReadsBack(ms: nat)
    requires ms < YEAR_10000_MS
    ensures var parsed := Parse(MsToIso(ms), [4, 2, 2, 2, 2, 2, 3], "--T::.Z");
            && parsed.Some? && |parsed.value| == 7
            && var v, date := parsed.value, CivilFromDays(ms / 86_400_000);
               && v[0] == date.year && v[1] == date.month && v[2] == date.day
               && 0 <= v[3] < 24 && 0 <= v[4] < 60 && 0 <= v[5] < 60 && 0 <= v[6] < 1_000
               && ms % 86_400_000 == v[3] * 3_600_000 + v[4] * 60_000 + v[5] * 1_000 + v[6]
  {
    hide CivilFromDays, Parse, Join, Numbers, Pow10;
    var f := Fields(ms);
    FieldsRecombine(ms);
    FieldsFit(ms);
    JoinParses(f, [4, 2, 2, 2, 2, 2, 3], "--T::.Z");
    SevenNumbers(f);
  }

  lemma SevenNumbers(f: seq<Field>)
    requires |f| == 7
    ensures Numbers(f) == [f[0].number, f[1].number, f[2].number, f[3].number, f[4].number, f[5].number, f[6].number]
  {
    NumberAt(f, 0);
    NumberAt(f, 1);
    NumberAt(f, 2);
    NumberAt(f, 3);
    NumberAt(f, 4);
    NumberAt(f, 5);
    NumberAt(f, 6);
    hide Numbers;
    NoNumbers();
    assert f[0..] == f && f[7..] == [];
  }

  lemma NoNumbers()
    ensures Numbers([]) == []
  {
  }

  lemma NumberAt(f: seq<Field>, k: nat)
    requires k < |f|
    ensures Numbers(f[k..]) == [f[k].number] + Numbers(f[k + 1..])
  {
    assert f[k..][1..] == f[k + 1..];
  }

  // ------------------------------------------------------------ order of text

  /** Lexicographic order of strings. */
  predicate Less(a: string, b: string) {
    b != "" && (a == "" || a[0] < b[0] || (a[0] == b[0] && Less(a[1..], b[1..])))
  }

  lemma {:induction false} LessAppend(a: string, b: string, x: string, y: string)
    requires |a| == |b|
    ensures Less(a + x, b + y) <==> Less(a, b) || (a == b && Less(x, y))
    ensures a + x == b + y ==> a == b && x == y
  {
    if a == "" {
      assert a + x == x && b + y == y;
    } else {
      assert (a + x)[1..] == a[1..] + x && (b + y)[1..] == b[1..] + y;
      LessAppend(a[1..], b[1..], x, y);
      assert a == [a[0]] + a[1..] && b == [b[0]] + b[1..];
      if a + x == b + y {
        assert (a + x)[0] == (b + y)[0];
      }
    }
  }

  function Pow10(w: nat): nat { if w == 0 then 1 else 10 * Pow10(w - 1) }

  lemma {:induction false} PadLength(n: nat, w: nat)
    requires w >= 1 && n < Pow10(w)
    ensures |Pad(n, w)| == w
  {
    if w > 1 {
      PadLength(n / 10, w - 1);
    }
  }

  /** Fixed-width decimals are ordered as their numbers. */
  lemma {:induction false} PadOrder(m: nat, n: nat, w: nat)
    requires w >= 1 && m < Pow10(w) && n < Pow10(w)
    ensures Less(Pad(m, w), Pad(n, w)) <==> m < n
    ensures Pad(m, w) == Pad(n, w) ==> m == n
  {
    if w == 1 {
      assert Pow10(1) == 10;
      assert Less([Digit(m)], [Digit(n)]) <==> Digit(m) < Digit(n);
    } else {
      PadOrder(m / 10, n / 10, w - 1);
      PadLength(m / 10, w - 1);
      PadLength(n / 10, w - 1);
      var x, y := [Digit(m % 10)], [Digit(n % 10)];
      LessAppend(Pad(m / 10, w - 1), Pad(n / 10, w - 1), x, y);
      assert Less(x, y) <==> Digit(m % 10) < Digit(n % 10);
      assert x == y ==> x[0] == y[0];
    }
  }

  /** The same layout, each number within its width. */
  ghost predicate Alike(a: seq<Field>, b: seq<Field>) {
    |a| == |b| && forall i :: 0 <= i < |a| ==>
      && 1 <= a[i].width == b[i].width && a[i].mark == b[i].mark
      && a[i].number < Pow10(a[i].width) && b[i].number < Pow10(b[i].width)
  }

  /** Lexicographic order of the numbers. */
  ghost predicate NumbersLess(a: seq<Field>, b: seq<Field>)
    requires |a| == |b|
  {
    a != [] && (a[0].number < b[0].number || (a[0].number == b[0].number && NumbersLess(a[1..], b[1..])))
  }

  lemma {:induction false} JoinOrder(a: seq<Field>, b: seq<Field>)
    requires Alike(a, b)
    ensures Less(Join(a), Join(b)) <==> NumbersLess(a, b)
  {
    hide Pow10, Pad, Less;
    if a == [] {
      assert !Less([], []) by { NothingIsLess(); }
    } else {
      JoinOrder(a[1..], b[1..]);
      var p, q := Pad(a[0].number, a[0].width), Pad(b[0].number, b[0].width);
      PadLength(a[0].number, a[0].width);
      PadLength(b[0].number, b[0].width);
      PadOrder(a[0].number, b[0].number, a[0].width);
      MarkedOrder(p, q, [a[0].mark], Join(a[1..]), Join(b[1..]));
    }
  }

  lemma NothingIsLess()
    ensures !Less([], [])
  {
  }

  lemma MarkedOrder(p: string, q: string, mark: string, x: string, y: string)
    requires |p| == |q| && |mark| == 1
    ensures Less(p + mark + x, q + mark + y) <==> Less(p, q) || (p == q && Less(x, y))
  {
    LessAppend(p, q, mark + x, mark + y);
    LessAppend(mark, mark, x, y);
    assert !Less(mark, mark) by { assert !Less(mark[1..], mark[1..]); }
    assert p + mark + x == p + (mark + x) && q + mark + y == q + (mark + y);
  }

  // ------------------------------------------------------------ order of dates

  predicate Before(a: Date, b: Date) {
    a.year < b.year || (a.year == b.year && (a.month < b.month || (a.month == b.month && a.day < b.day)))
  }

  predicate ValidDate(d: Date) { 1 <= d.month <= 12 && 1 <= d.day <= MonthLength(d.year, d.month) }

  lemma TomorrowIsLater(d: Date)
    requires ValidDate(d)
    ensures ValidDate(Tomorrow(d)) && Before(d, Tomorrow(d))
  {
  }

  lemma {:induction false} DatesAreValid(days: nat)
    ensures ValidDate(CivilFromDays(days))
  {
    hide CivilFromDays, Tomorrow;
    if days == 0 {
      Epoch();
    } else {
      DatesAreValid(days - 1);
      NextDay(days - 1);
      TomorrowIsLater(CivilFromDays(days - 1));
    }
  }

  lemma {:induction false} LaterDaysLaterDates(m: nat, n: nat)
    requires m < n
    ensures Before(CivilFromDays(m), CivilFromDays(n))
    decreases n
  {
    hide CivilFromDays, Tomorrow, ValidDate;
    DatesAreValid(n - 1);
    NextDay(n - 1);
    TomorrowIsLater(CivilFromDays(n - 1));
    if m < n - 1 {
      LaterDaysLaterDates(m, n - 1);
    }
  }

  lemma FirstDayOf10000()
    ensures CivilFromDays(2_932_897) == Date(10_000, 1, 1)
  {
    hide DateOfEra, DaysBefore, YearLength;
    EraEdges();
    assert (2_932_897 + DAYS_TO_1970) / DAYS_PER_ERA == 24;
    DateOfEraIs(24, 399, 306);
  }

  // ------------------------------------------------------------ order of timestamps

  lemma TimeSplits(ms: nat)
    ensures ms / 1000 / 86_400 == ms / DAY_MS
    ensures var t := ms / 1000 % 86_400;
            t * 1000 + ms % 1000 == ms % DAY_MS && t == t / 3600 * 3600 + t % 3600 / 60 * 60 + t % 60
  {
  }

  /** The numbers of two timestamps compare as the timestamps do. */
  lemma FieldsOrder(a: nat, b: nat)
    requires a < b
    ensures NumbersLess(Fields(a), Fields(b)) && !NumbersLess(Fields(b), Fields(a))
  {
    hide CivilFromDays;
    TimeSplits(a);
    TimeSplits(b);
    if a / DAY_MS == b / DAY_MS {
      ClockOrder(a / 1000 % 86_400, b / 1000 % 86_400, a % 1000, b % 1000);
    } else {
      LaterDaysLaterDates(a / DAY_MS, b / DAY_MS);
    }
    Unfolded(Fields(a), Fields(b));
    Unfolded(Fields(b), Fields(a));
  }

  lemma ClockOrder(s: nat, t: nat, m: nat, n: nat)
    requires s < t || (s == t && m < n)
    ensures s / 3600 < t / 3600 || (s / 3600 == t / 3600 && (s % 3600 / 60 < t % 3600 / 60
            || (s % 3600 / 60 == t % 3600 / 60 && (s % 60 < t % 60 || (s % 60 == t % 60 && m < n)))))
  {
  }

  lemma Unfolded(a: seq<Field>, b: seq<Field>)
    requires |a| == |b| == 7
    ensures NumbersLess(a, b) <==>
            a[0].number < b[0].number || (a[0].number == b[0].number && (
            a[1].number < b[1].number || (a[1].number == b[1].number && (
            a[2].number < b[2].number || (a[2].number == b[2].number && (
            a[3].number < b[3].number || (a[3].number == b[3].number && (
            a[4].number < b[4].number || (a[4].number == b[4].number && (
            a[5].number < b[5].number || (a[5].number == b[5].number && a[6].number < b[6].number)))))))))))
  {
    NumbersLessAt(a, b, 0);
    NumbersLessAt(a, b, 1);
    NumbersLessAt(a, b, 2);
    NumbersLessAt(a, b, 3);
    NumbersLessAt(a, b, 4);
    NumbersLessAt(a, b, 5);
    NumbersLessAt(a, b, 6);
    assert a[0..] == a && b[0..] == b && !NumbersLess(a[7..], b[7..]);
  }

  lemma NumbersLessAt(a: seq<Field>, b: seq<Field>, k: nat)
    requires |a| == |b| && k < |a|
    ensures NumbersLess(a[k..], b[k..]) <==>
            a[k].number < b[k].number || (a[k].number == b[k].number && NumbersLess(a[k + 1..], b[k + 1..]))
  {
    assert a[k..][1..] == a[k + 1..] && b[k..][1..] == b[k + 1..];
  }

  lemma FieldsFit(ms: nat)
    requires ms < YEAR_10000_MS
    ensures forall i :: 0 <= i < 7 ==> Fields(ms)[i].number < Pow10(Fields(ms)[i].width)
  {
    hide CivilFromDays, MonthLength, Pow10;
    Powers();
    var days := ms / 1000 / 86_400;
    DatesAreValid(days);
    FirstDayOf10000();
    LaterDaysLaterDates(days, 2_932_897);
    MonthLengthBound(CivilFromDays(days).year, CivilFromDays(days).month);
  }

  lemma MonthLengthBound(year: nat, month: nat)
    ensures MonthLength(year, month) <= 31
  {
  }

  lemma Powers()
    ensures Pow10(2) == 100 && Pow10(3) == 1000 && Pow10(4) == 10_000
  {
  }

  /** Before the year 10000, timestamps compare as strings exactly as they do as
      numbers. */
  lemma TextOrder(a: nat, b: nat)
    requires a < YEAR_10000_MS && b < YEAR_10000_MS
    ensures Less(MsToIso(a), MsToIso(b)) <==> a < b
  {
    hide Fields, Less, Join, CivilFromDays;
    FieldsFit(a);
    FieldsFit(b);
    assert Alike(Fields(a), Fields(b)) by { SameLayout(a, b); }
    JoinOrder(Fields(a), Fields(b));
    if a < b {
      FieldsOrder(a, b);
    } else if b < a {
      FieldsOrder(b, a);
    } else {
      NotLessItself(Fields(a));
    }
  }

  lemma SameLayout(a: nat, b: nat)
    ensures var x, y := Fields(a), Fields(b);
            |x| == |y| == 7 && forall i :: 0 <= i < 7 ==> 1 <= x[i].width == y[i].width && x[i].mark == y[i].mark
  {
    hide CivilFromDays;
  }

  lemma {:induction false} NotLessItself(a: seq<Field>)
    ensures !NumbersLess(a, a)
  {
    if a != [] {
      NotLessItself(a[1..]);
    }
  }

  ghost predicate TextOrderBelow(bound: nat) {
    forall a, b :: 0 <= a < bound && 0 <= b < bound ==> (Less(MsToIso(a), MsToIso(b)) <==> a < b)
  }

  /** That is the largest such bound: the first instant of the year 10000 sorts
      before the last one of 9999. */
  lemma TextOrderExactly(bound: nat)
    ensures TextOrderBelow(bound) <==> bound <= YEAR_10000_MS
  {
    hide MsToIso, Less;
    if bound <= YEAR_10000_MS {
      forall a, b | 0 <= a < bound && 0 <= b < bound ensures Less(MsToIso(a), MsToIso(b)) <==> a < b {
        TextOrder(a, b);
      }
    } else {
      FiveDigitsSortFirst();
      assert YEAR_10000_MS - 1 < bound && YEAR_10000_MS < bound;
    }
  }

  lemma StartsWithYear(ms: nat, year: nat)
    requires CivilFromDays(ms / 1000 / 86_400).year == year && year >= 1000
    ensures |Pad(year, 4)| >= 1 && |MsToIso(ms)| > 0 && MsToIso(ms)[0] == Pad(year, 4)[0]
  {
    hide CivilFromDays, Pad;
    PadNonempty(year, 4);
    var f := Fields(ms);
    assert Join(f) == Pad(year, 4) + [f[0].mark] + Join(f[1..]);
  }

  lemma PadNonempty(n: nat, w: nat)
    ensures |Pad(n, w)| >= 1
  {
  }

  lemma FiveDigitsSortFirst()
    ensures !Less(MsToIso(YEAR_10000_MS - 1), MsToIso(YEAR_10000_MS))
  {
    hide CivilFromDays, MsToIso, Pad;
    FirstDayOf10000();
    NextDay(2_932_896);
    DatesAreValid(2_932_896);
    var d := CivilFromDays(2_932_896);
    assert d.year == 9999;
    StartsWithYear(YEAR_10000_MS - 1, 9999);
    StartsWithYear(YEAR_10000_MS, 10_000);
    YearDigits();
  }

  lemma YearDigits()
    ensures Pad(9999, 4) != "" && Pad(10_000, 4) != "" && Pad(9999, 4)[0] == '9' && Pad(10_000, 4)[0] == '1'
  {
    assert Pad(9, 1) == "9";
    assert Pad(99, 2) == "99";
    assert Pad(999, 3) == "999";
    assert Pad(1, 1) == "1";
    assert Pad(10, 1) == "10";
    assert Pad(100, 2) == "100";
    assert Pad(1000, 3) == "1000";
  }

  // ------------------------------------------------------------ listing runs

  datatype Run = Run(runId: string, createdMs: nat)

  /** The order of the listing: the text of the creation times. */
  predicate TextOrdered(a: Run, b: Run) { !Less(MsToIso(b.createdMs), MsToIso(a.createdMs)) }

  predicate TimeOrdered(a: Run, b: Run) { a.createdMs <= b.createdMs }

  /** Listing runs by the text of their creation times is listing them by time,
      ties included, for every run created before the year 10000. */
  lemma ListedByTime(runs: seq<Run>)
    requires forall r :: r in runs ==> r.createdMs < YEAR_10000_MS
    ensures Sort(TextOrdered, runs) == Sort(TimeOrdered, runs)
  {
    hide MsToIso, Less, Sort;
    forall a, b | a in runs && b in runs ensures TextOrdered(a, b) == TimeOrdered(a, b) {
      TextOrder(b.createdMs, a.createdMs);
    }
    SortAgrees(TextOrdered, TimeOrdered, runs);
  }

  ghost predicate ByTime(runs: seq<Run>) {
    forall i, j :: 0 <= i < j < |runs| ==> runs[i].createdMs <= runs[j].createdMs
  }

  /** And that is in order of time, with every run listed once. */
  lemma TimeSortIsRight(runs: seq<Run>)
    ensures ByTime(Sort(TimeOrdered, runs)) && multiset(Sort(TimeOrdered, runs)) == multiset(runs)
  {
    hide Sort;
    SortAscends(TimeOrdered, runs);
    SortPermutes(TimeOrdered, runs);
    var sorted := Sort(TimeOrdered, runs);
    forall i, j | 0 <= i < j < |sorted| ensures sorted[i].createdMs <= sorted[j].createdMs {
      assert TimeOrdered(sorted[i], sorted[j]);
    }
  }
}
