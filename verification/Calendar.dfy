/** The calendar date of a day counted from 1970-01-01 (the date algorithm of
    `ms_to_iso`, crates/vidarax-api/src/handlers.rs), against counting day by day. */
module Calendar {

  datatype Date = Date(year: nat, month: nat, day: nat)

  // ------------------------------------------------------------ the algorithm

  const DAYS_TO_1970: nat := 719_468
  const DAYS_PER_ERA: nat := 146_097

  function YearOfEra(doe: nat): nat { (doe - doe / 1460 + doe / 36_524 - doe / 146_096) / 365 }

  function DaysBefore(y: nat): nat { 365 * y + y / 4 - y / 100 }

  function MonthIndex(doy: nat): nat { (5 * doy + 2) / 153 }

  /** The date of a year that starts in March, from its number and day. */
  function MarchDate(y: nat, doy: nat): Date
    requires doy <= 365
  {
    var mp := MonthIndex(doy);
    var d := doy - (153 * mp + 2) / 5 + 1;
    var month := if mp < 10 then mp + 3 else mp - 9;
    Date(if month <= 2 then y + 1 else y, month, d)
  }

  function DateOfEra(era: nat, doe: nat): Date
    requires doe < DAYS_PER_ERA
  {
    YearFound(doe);
    var yoe := YearOfEra(doe);
    MarchDate(yoe + era * 400, doe - DaysBefore(yoe))
  }

  function CivilFromDays(days: nat): Date {
    var z := days + DAYS_TO_1970;
    var era := z / DAYS_PER_ERA;
    DateOfEra(era, z - era * DAYS_PER_ERA)
  }

  // ------------------------------------------------------------ the Gregorian calendar, day by day

  predicate Leap(year: nat) { year % 4 == 0 && (year % 100 != 0 || year % 400 == 0) }

  function MonthLength(year: nat, month: nat): nat {
    if month == 2 then if Leap(year) then 29 else 28
    else if month == 4 || month == 6 || month == 9 || month == 11 then 30
    else 31
  }

  function Tomorrow(d: Date): Date {
    if d.day < MonthLength(d.year, d.month) then Date(d.year, d.month, d.day + 1)
    else if d.month < 12 then Date(d.year, d.month + 1, 1)
    else Date(d.year + 1, 1, 1)
  }

  /** The date reached from 1 January 1970 one day at a time. */
  function Counted(days: nat): Date { if days == 0 then Date(1970, 1, 1) else Tomorrow(Counted(days - 1)) }

  // ------------------------------------------------------------ years of an era

  /** Days of the year starting in March of year `y` of an era. */
  function YearLength(y: nat): nat { if Leap(y + 1) then 366 else 365 }

  /** A day of an era by century, four-year group, year and day. */
  lemma Splits(doe: nat) returns (c: nat, q: nat, k: nat, r: nat)
    requires doe < DAYS_PER_ERA
    ensures doe == 36_524 * c + 1461 * q + 365 * k + r
    ensures c <= 3 && q <= 24 && k <= 3 && r <= 365
    ensures r == 365 ==> k == 3 && (q < 24 || c == 3)
  {
    c := if doe / 36_524 > 3 then 3 else doe / 36_524;
    var rest := doe - 36_524 * c;
    q := rest / 1461;
    var rest2 := rest - 1461 * q;
    k := if rest2 / 365 > 3 then 3 else rest2 / 365;
    r := rest2 - 365 * k;
  }

  lemma DaysBeforeSplit(c: nat, q: nat, k: nat)
    requires c <= 3 && q <= 24 && k <= 3
    ensures DaysBefore(100 * c + 4 * q + k) == 36_524 * c + 1461 * q + 365 * k
    ensures Leap(100 * c + 4 * q + k + 1) <==> k == 3 && (q < 24 || c == 3)
  {
    var y := 100 * c + 4 * q + k;
    assert y / 4 == 25 * c + q;
    assert y / 100 == c;
  }

  lemma YearOfSplit(c: nat, q: nat, k: nat, r: nat)
    requires c <= 3 && q <= 24 && k <= 3 && r <= 365
    requires r == 365 ==> k == 3 && (q < 24 || c == 3)
    ensures YearOfEra(36_524 * c + 1461 * q + 365 * k + r) == 100 * c + 4 * q + k
  {
    var doe := 36_524 * c + 1461 * q + 365 * k + r;
    var e1 := if 24 * c + q + 365 * k + r >= 1460 then 1 else 0;
    assert doe / 1460 == 25 * c + q + e1;
    var e2 := if 1461 * q + 365 * k + r >= 36_524 then 1 else 0;
    assert doe / 36_524 == c + e2;
    var e3 := if doe == 146_096 then 1 else 0;
    assert doe / 146_096 == e3;
    assert 0 <= r - e1 + e2 - e3 < 365;
    assert doe - doe / 1460 + doe / 36_524 - doe / 146_096 == 365 * (100 * c + 4 * q + k) + (r - e1 + e2 - e3);
  }

  /** The year of a day of an era is the one whose days include it. */
  lemma YearFound(doe: nat)
    requires doe < DAYS_PER_ERA
    ensures var y := YearOfEra(doe);
            y < 400 && DaysBefore(y) <= doe < DaysBefore(y) + YearLength(y)
  {
    var c, q, k, r := Splits(doe);
    DaysBeforeSplit(c, q, k);
    YearOfSplit(c, q, k, r);
  }

  lemma YearIs(y: nat, r: nat)
    requires y < 400 && r < YearLength(y)
    ensures DaysBefore(y) + r < DAYS_PER_ERA && YearOfEra(DaysBefore(y) + r) == y
  {
    hide YearOfEra, DaysBefore, Leap;
    var c, q, k := y / 100, y % 100 / 4, y % 4;
    assert y == 100 * c + 4 * q + k;
    DaysBeforeSplit(c, q, k);
    YearOfSplit(c, q, k, r);
  }

  lemma YearsAdjoin(y: nat)
    requires y < 399
    ensures DaysBefore(y + 1) == DaysBefore(y) + YearLength(y)
  {
    hide DaysBefore, Leap;
    var c, q, k := y / 100, y % 100 / 4, y % 4;
    assert y == 100 * c + 4 * q + k;
    DaysBeforeSplit(c, q, k);
    if k < 3 {
      DaysBeforeSplit(c, q, k + 1);
    } else if q < 24 {
      DaysBeforeSplit(c, q + 1, 0);
    } else {
      DaysBeforeSplit(c + 1, 0, 0);
    }
  }

  // ------------------------------------------------------------ one day later

  /** Month starts of a year that begins in March. */
  function MonthStart(mp: nat): nat { (153 * mp + 2) / 5 }

  lemma MonthFound(doy: nat)
    requires doy <= 365
    ensures MonthIndex(doy) <= 11 && MonthStart(MonthIndex(doy)) <= doy
    ensures MonthIndex(doy) < 11 ==> doy < MonthStart(MonthIndex(doy) + 1)
  {
  }

  lemma MonthIs(mp: nat, d: nat)
    requires mp <= 11 && d + MonthStart(mp) <= 365 && (mp < 11 ==> d + MonthStart(mp) < MonthStart(mp + 1))
    ensures MonthIndex(d + MonthStart(mp)) == mp
  {
  }

  function March(y: nat, mp: nat, day: nat): Date {
    var month := if mp < 10 then mp + 3 else mp - 9;
    Date(if month <= 2 then y + 1 else y, month, day)
  }

  lemma MarchDateIs(y: nat, doy: nat)
    requires doy <= 365
    ensures var mp := MonthIndex(doy);
            MonthStart(mp) <= doy && MarchDate(y, doy) == March(y, mp, doy - MonthStart(mp) + 1)
  {
    MonthFound(doy);
  }

  lemma MonthLengths(y: nat, mp: nat)
    requires mp <= 11
    ensures mp < 11 ==> MonthLength(March(y, mp, 1).year, March(y, mp, 1).month) == MonthStart(mp + 1) - MonthStart(mp)
    ensures mp == 11 ==> MonthLength(March(y, mp, 1).year, March(y, mp, 1).month) == YearLength(y) - MonthStart(11)
  {
    hide Leap;
  }

  lemma NextInYear(y: nat, doy: nat)
    requires doy + 1 < YearLength(y)
    ensures MarchDate(y, doy + 1) == Tomorrow(MarchDate(y, doy))
  {
    hide MarchDate, MonthLength, Leap;
    MarchDateIs(y, doy);
    MarchDateIs(y, doy + 1);
    MonthFound(doy);
    var mp := MonthIndex(doy);
    MonthLengths(y, mp);
    if mp < 11 && doy + 1 == MonthStart(mp + 1) {
      MonthIs(mp + 1, 0);
    } else {
      MonthIs(mp, doy + 1 - MonthStart(mp));
    }
  }

  lemma NextYear(y: nat)
    ensures MarchDate(y + 1, 0) == Tomorrow(MarchDate(y, YearLength(y) - 1))
  {
    hide MonthLength, Leap;
    MonthLengths(y, 11);
    MarchDateIs(y, YearLength(y) - 1);
    MonthIs(11, YearLength(y) - 1 - MonthStart(11));
  }

  lemma EraRepeats(y: nat, era: nat)
    ensures YearLength(y + era * 400) == YearLength(y)
  {
    var n := y + 1;
    Remainders(n / 4 + 100 * era, n % 4, n / 100 + 4 * era, n % 100, n / 400 + era, n % 400);
    assert n + era * 400 == 4 * (n / 4 + 100 * era) + n % 4;
    assert n + era * 400 == 100 * (n / 100 + 4 * era) + n % 100;
    assert n + era * 400 == 400 * (n / 400 + era) + n % 400;
    assert y + era * 400 + 1 == n + era * 400;
  }

  lemma Remainders(a: nat, i: nat, b: nat, j: nat, c: nat, k: nat)
    requires i < 4 && j < 100 && k < 400
    ensures (4 * a + i) % 4 == i && (100 * b + j) % 100 == j && (400 * c + k) % 400 == k
  {
  }

  lemma DateOfEraIs(era: nat, y: nat, r: nat)
    requires y < 400 && r < YearLength(y)
    ensures DaysBefore(y) + r < DAYS_PER_ERA && DateOfEra(era, DaysBefore(y) + r) == MarchDate(y + era * 400, r)
  {
    hide YearOfEra, DaysBefore, Leap, MarchDate;
    YearIs(y, r);
  }

  lemma NextInEra(era: nat, doe: nat)
    requires doe + 1 < DAYS_PER_ERA
    ensures DateOfEra(era, doe + 1) == Tomorrow(DateOfEra(era, doe))
  {
    hide YearOfEra, Leap, MarchDate, YearLength;
    YearFound(doe);
    var y := YearOfEra(doe);
    EraRepeats(y, era);
    DateOfEraIs(era, y, doe - DaysBefore(y));
    if doe + 1 < DaysBefore(y) + YearLength(y) {
      DateOfEraIs(era, y, doe + 1 - DaysBefore(y));
      NextInYear(y + era * 400, doe - DaysBefore(y));
    } else {
      EraEnds(y);
      YearsAdjoin(y);
      YearIsLong(y + 1);
      DateOfEraIs(era, y + 1, 0);
      NextYear(y + era * 400);
    }
  }

  lemma YearIsLong(y: nat)
    ensures 365 <= YearLength(y) <= 366
  {
  }

  lemma EraEnds(y: nat)
    requires y < 400 && DaysBefore(y) + YearLength(y) < DAYS_PER_ERA
    ensures y < 399
  {
  }

  lemma EraEdges()
    ensures YearLength(399) == 366 && DaysBefore(399) == 145_731 == DAYS_PER_ERA - 366
    ensures YearLength(0) == 365 && DaysBefore(0) == 0
  {
  }

  lemma NextEra(era: nat)
    ensures DateOfEra(era + 1, 0) == Tomorrow(DateOfEra(era, DAYS_PER_ERA - 1))
  {
    hide MarchDate, Leap, YearLength, DaysBefore, DateOfEra, Tomorrow;
    EraEdges();
    DateOfEraIs(era, 399, 365);
    EraRepeats(399, era);
    NextYear(399 + era * 400);
    DateOfEraIs(era + 1, 0, 0);
  }

  /** The date of the next day is the Gregorian successor of the date. */
  lemma NextDay(days: nat)
    ensures CivilFromDays(days + 1) == Tomorrow(CivilFromDays(days))
  {
    hide DateOfEra, Tomorrow;
    var z := days + DAYS_TO_1970;
    var era := z / DAYS_PER_ERA;
    var doe := z - era * DAYS_PER_ERA;
    if doe + 1 < DAYS_PER_ERA {
      assert (z + 1) / DAYS_PER_ERA == era;
      NextInEra(era, doe);
    } else {
      assert (z + 1) / DAYS_PER_ERA == era + 1;
      NextEra(era);
    }
  }

  lemma Epoch()
    ensures CivilFromDays(0) == Date(1970, 1, 1)
  {
    hide DateOfEra;
    assert DAYS_TO_1970 / DAYS_PER_ERA == 4 && DaysBefore(369) + 306 == DAYS_TO_1970 - 4 * DAYS_PER_ERA;
    YearIsLong(369);
    DateOfEraIs(4, 369, 306);
  }

  /** The algorithm agrees with the calendar counted day by day from the epoch. */
  lemma {:induction false} AgreesWithCalendar(days: nat)
    ensures CivilFromDays(days) == Counted(days)
  {
    hide CivilFromDays, Tomorrow;
    if days == 0 {
      Epoch();
    } else {
      AgreesWithCalendar(days - 1);
      NextDay(days - 1);
    }
  }
}
