/** Day numbers and calendar dates of the proleptic Gregorian calendar. */
module CivilDate {
  datatype Date = Date(year: int, month: int, day: int)

  /** Integer division that truncates toward zero. */
  function TruncDiv(a: int, b: int): int
    requires b > 0
  {
    if a >= 0 then a / b else -((-a) / b)
  }

  const DAYS_PER_ERA := 146097

  function YearOfEra(doe: int): int {
    (doe - doe / 1460 + doe / 36524 - doe / 146096) / 365
  }

  /** Days of an era before a year of it, years counted from March. */
  function DaysBefore(yoe: int): int {
    365 * yoe + yoe / 4 - yoe / 100
  }

  /** The date of a year of an era and a day of that year, both counted from March. */
  function FromParts(era: int, yoe: int, doy: int): Date {
    var mp := (5 * doy + 2) / 153;
    var d := doy - (153 * mp + 2) / 5 + 1;
    var m := mp + if mp < 10 then 3 else -9;
    Date(yoe + era * 400 + (if m <= 2 then 1 else 0), m, d)
  }

  function EraOf(z: int): int {
    TruncDiv(if z >= 0 then z else z - 146096, DAYS_PER_ERA)
  }

  function FromDayOfEra(era: int, doe: int): Date {
    var yoe := YearOfEra(doe);
    FromParts(era, yoe, doe - DaysBefore(yoe))
  }

  /** The date of a day number, day 0 being 1970-01-01. */
  function DaysToYmd(days: int): Date {
    var z := days + 719468;
    var era := EraOf(z);
    FromDayOfEra(era, z - era * DAYS_PER_ERA)
  }

  // ---------------------------------------------------------------- the calendar

  predicate IsLeap(year: int) {
    year % 4 == 0 && (year % 100 != 0 || year % 400 == 0)
  }

  function DaysInMonth(year: int, month: int): int {
    if month == 2 then (if IsLeap(year) then 29 else 28)
    else if month == 4 || month == 6 || month == 9 || month == 11 then 30
    else 31
  }

  predicate Valid(date: Date) {
    1 <= date.month <= 12 && 1 <= date.day <= DaysInMonth(date.year, date.month)
  }

  /** The day after. */
  function Successor(date: Date): Date {
    if date.day < DaysInMonth(date.year, date.month) then date.(day := date.day + 1)
    else if date.month < 12 then Date(date.year, date.month + 1, 1)
    else Date(date.year + 1, 1, 1)
  }

  // ---------------------------------------------------------------- one era

  /** Days of a year counted from March; its February belongs to the next calendar year. */
  function YearLength(yoe: int): int {
    if IsLeap(yoe + 1) then 366 else 365
  }

  /** The era splits into centuries, four-year cycles and years; the last of each kind may be a day longer. */
  lemma EraParts(doe: int) returns (q: int, a: int, b: int, doy: int)
    requires 0 <= doe < DAYS_PER_ERA
    ensures 0 <= q <= 3 && 0 <= a <= 24 && 0 <= b <= 3
    ensures 0 <= doy < YearLength(100 * q + 4 * a + b)
    ensures doe == DaysBefore(100 * q + 4 * a + b) + doy
  {
    q := if doe / 36524 < 3 then doe / 36524 else 3;
    var r := doe - 36524 * q;
    a := if r / 1461 < 24 then r / 1461 else 24;
    var t := r - 1461 * a;
    b := if t / 365 < 3 then t / 365 else 3;
    doy := t - 365 * b;
    PartsOfYear(q, a, b);
  }

  lemma PartsOfYear(q: int, a: int, b: int)
    requires 0 <= q <= 3 && 0 <= a <= 24 && 0 <= b <= 3
    ensures
      var yoe := 100 * q + 4 * a + b;
      && yoe / 100 == q && yoe / 4 == 25 * q + a && 0 <= yoe <= 399
      && DaysBefore(yoe) == 36524 * q + 1461 * a + 365 * b
      && (YearLength(yoe) == 366 <==> b == 3 && (a < 24 || q == 3))
  {
    var yoe := 100 * q + 4 * a + b;
    assert yoe + 1 == 100 * q + 4 * a + (b + 1);
    if b < 3 {
      assert (yoe + 1) % 4 == b + 1;
    } else {
      assert (yoe + 1) % 4 == 0;
    }
  }

  /** The divisions by 1460, 36524 and 146096 find the year of a day of the era. */
  lemma FormulaFindsYear(q: int, a: int, b: int, doy: int)
    requires 0 <= q <= 3 && 0 <= a <= 24 && 0 <= b <= 3
    requires 0 <= doy < YearLength(100 * q + 4 * a + b)
    ensures
      var yoe := 100 * q + 4 * a + b;
      YearOfEra(DaysBefore(yoe) + doy) == yoe
  {
    PartsOfYear(q, a, b);
    var yoe := 100 * q + 4 * a + b;
    var doe := 36524 * q + 1461 * a + 365 * b + doy;
    var late := if 24 * q + a + 365 * b + doy >= 1460 then 1 else 0;
    assert doe == 1460 * (25 * q + a) + (24 * q + a + 365 * b + doy);
    assert doe / 1460 == 25 * q + a + late;
    var last := if doe == 146096 then 1 else 0;
    assert doe / 36524 == q + last;
    assert doe / 146096 == last;
    assert doe - doe / 1460 + doe / 36524 - doe / 146096 == 365 * yoe + (doy - late);
    assert 0 <= doy - late <= 364;
  }

  /** Rounding toward zero after the shift rounds down for every day number. */
  lemma EraRoundsDown(z: int)
    ensures EraOf(z) == z / DAYS_PER_ERA
    ensures 0 <= z - (z / DAYS_PER_ERA) * DAYS_PER_ERA < DAYS_PER_ERA
  {
  }

  predicate AreParts(yoe: int, doy: int) {
    0 <= yoe <= 399 && 0 <= doy < YearLength(yoe)
  }

  function DayOf(era: int, yoe: int, doy: int): int {
    era * DAYS_PER_ERA + DaysBefore(yoe) + doy - 719468
  }

  lemma EraIsUnique(era: int, doe: int)
    requires 0 <= doe < DAYS_PER_ERA
    ensures (era * DAYS_PER_ERA + doe) / DAYS_PER_ERA == era
  {
  }

  lemma PartsFit(yoe: int, doy: int)
    requires AreParts(yoe, doy)
    ensures 0 <= DaysBefore(yoe) + doy < DAYS_PER_ERA && YearOfEra(DaysBefore(yoe) + doy) == yoe
  {
    var q, a, b := yoe / 100, yoe % 100 / 4, yoe % 4;
    assert yoe == 100 * q + 4 * a + b;
    PartsOfYear(q, a, b);
    FormulaFindsYear(q, a, b, doy);
  }

  lemma DateFromDayOfEra(days: int, era: int, doe: int)
    requires 0 <= doe < DAYS_PER_ERA && days == era * DAYS_PER_ERA + doe - 719468
    ensures DaysToYmd(days) == FromDayOfEra(era, doe)
  {
    EraIsUnique(era, doe);
    EraRoundsDown(days + 719468);
  }

  lemma DayOfEraFromParts(era: int, yoe: int, doy: int)
    requires AreParts(yoe, doy)
    ensures 0 <= DaysBefore(yoe) + doy < DAYS_PER_ERA
    ensures FromDayOfEra(era, DaysBefore(yoe) + doy) == FromParts(era, yoe, doy)
  {
    PartsFit(yoe, doy);
    assert DaysBefore(yoe) + doy - DaysBefore(yoe) == doy;
  }

  /** The date of a day given by its parts is the date built from them. */
  lemma DateFromParts(days: int, era: int, yoe: int, doy: int)
    requires AreParts(yoe, doy) && days == DayOf(era, yoe, doy)
    ensures DaysToYmd(days) == FromParts(era, yoe, doy)
  {
    DayOfEraFromParts(era, yoe, doy);
    DateFromDayOfEra(days, era, DaysBefore(yoe) + doy);
  }

  /** Every day has its parts. */
  lemma PartsOfDay(days: int) returns (era: int, yoe: int, doy: int)
    ensures AreParts(yoe, doy) && DayOf(era, yoe, doy) == days
  {
    var z := days + 719468;
    EraRoundsDown(z);
    era := z / DAYS_PER_ERA;
    var q, a, b, d := EraParts(z - era * DAYS_PER_ERA);
    PartsOfYear(q, a, b);
    yoe, doy := 100 * q + 4 * a + b, d;
  }

  lemma Mod4(x: int, c: int)
    ensures (x + 4 * c) % 4 == x % 4
  {
  }

  lemma Mod100(x: int, c: int)
    ensures (x + 100 * c) % 100 == x % 100
  {
  }

  lemma Mod400(x: int, c: int)
    ensures (x + 400 * c) % 400 == x % 400
  {
  }

  lemma LeapRepeats(year: int, era: int)
    ensures IsLeap(year + 400 * era) == IsLeap(year)
  {
    Mod4(year, 100 * era);
    Mod100(year, 4 * era);
    Mod400(year, era);
  }

  /** Inside a year counted from March, dates are valid and follow one another; the last is the end of February. */
  lemma DayOfYear(era: int, yoe: int, doy: int)
    requires AreParts(yoe, doy)
    ensures Valid(FromParts(era, yoe, doy))
    ensures doy + 1 < YearLength(yoe) ==> FromParts(era, yoe, doy + 1) == Successor(FromParts(era, yoe, doy))
    ensures doy + 1 == YearLength(yoe) ==>
              Successor(FromParts(era, yoe, doy)) == Date(yoe + era * 400 + 1, 3, 1)
  {
    LeapRepeats(yoe + 1, era);
    var y := yoe + era * 400;
    DayOfMonthIsValid(y, doy);
    if doy + 1 < YearLength(yoe) { NextDayOfMonth(y, doy); } else { LastDayOfYear(y, doy); }
    assert forall x :: FromParts(era, yoe, x) == FromParts(0, yoe + era * 400, x);
  }

  lemma DayOfMonthIsValid(y: int, doy: int)
    requires 0 <= doy < YearLength(y)
    ensures Valid(FromParts(0, y, doy))
  {
    MonthOfDay(doy);
    MonthTable();
  }

  /** The month formula moves on exactly with the last day of a month. */
  lemma MonthOfNextDay(doy: int)
    requires 0 <= doy < 365
    ensures
      var mp := (5 * doy + 2) / 153;
      (5 * (doy + 1) + 2) / 153 == if doy + 1 < MonthStart(mp + 1) then mp else mp + 1
  {
    MonthOfDay(doy);
    MonthOfDay(doy + 1);
    MonthTable();
  }

  lemma LengthOfMonth(y: int, mp: int)
    requires 0 <= mp <= 11
    ensures
      var m := mp + if mp < 10 then 3 else -9;
      var year := y + if m <= 2 then 1 else 0;
      if mp < 11 then DaysInMonth(year, m) == MonthStart(mp + 1) - MonthStart(mp)
      else DaysInMonth(year, m) == YearLength(y) - MonthStart(11)
  {
    MonthTable();
  }

  lemma NextDayOfMonth(y: int, doy: int)
    requires 0 <= doy < YearLength(y) - 1
    ensures FromParts(0, y, doy + 1) == Successor(FromParts(0, y, doy))
  {
    var mp := (5 * doy + 2) / 153;
    MonthOfDay(doy);
    MonthOfNextDay(doy);
    LengthOfMonth(y, mp);
  }

  lemma LastDayOfYear(y: int, doy: int)
    requires doy + 1 == YearLength(y)
    ensures Successor(FromParts(0, y, doy)) == Date(y + 1, 3, 1)
  {
    MonthOfDay(doy);
    MonthTable();
  }

  /** Days before a month counted from March. */
  function MonthStart(mp: int): int {
    (153 * mp + 2) / 5
  }

  lemma MonthTable()
    ensures MonthStart(0) == 0 && MonthStart(1) == 31 && MonthStart(2) == 61 && MonthStart(3) == 92
    ensures MonthStart(4) == 122 && MonthStart(5) == 153 && MonthStart(6) == 184 && MonthStart(7) == 214
    ensures MonthStart(8) == 245 && MonthStart(9) == 275 && MonthStart(10) == 306 && MonthStart(11) == 337
    ensures MonthStart(12) == 367
  {
  }

  lemma MonthOfDay(doy: int)
    requires 0 <= doy <= 365
    ensures
      var mp := (5 * doy + 2) / 153;
      && 0 <= mp <= 11 && MonthStart(mp) <= doy < MonthStart(mp + 1)
  {
    MonthTable();
  }

  lemma NextYearOfParts(q: int, a: int, b: int)
    requires 0 <= q <= 3 && 0 <= a <= 24 && 0 <= b <= 3 && 100 * q + 4 * a + b < 399
    ensures
      var yoe := 100 * q + 4 * a + b;
      DaysBefore(yoe + 1) == DaysBefore(yoe) + YearLength(yoe)
  {
    PartsOfYear(q, a, b);
    if b < 3 { PartsOfYear(q, a, b + 1); }
    else if a < 24 { PartsOfYear(q, a + 1, 0); }
    else { PartsOfYear(q + 1, 0, 0); }
  }

  lemma NextYear(yoe: int)
    requires 0 <= yoe < 399
    ensures DaysBefore(yoe + 1) == DaysBefore(yoe) + YearLength(yoe)
  {
    assert yoe == 100 * (yoe / 100) + 4 * (yoe % 100 / 4) + yoe % 4;
    NextYearOfParts(yoe / 100, yoe % 100 / 4, yoe % 4);
  }

  // ---------------------------------------------------------------- every day number

  /** Every day number, negative ones too, has a valid date. */
  lemma DateIsValid(days: int)
    ensures Valid(DaysToYmd(days))
  {
    var era, yoe, doy := PartsOfDay(days);
    DateFromParts(days, era, yoe, doy);
    DayOfYear(era, yoe, doy);
  }

  /** The parts of the next day. */
  lemma NextParts(era: int, yoe: int, doy: int) returns (nextEra: int, nextYoe: int, nextDoy: int)
    requires AreParts(yoe, doy)
    ensures AreParts(nextYoe, nextDoy) && DayOf(nextEra, nextYoe, nextDoy) == DayOf(era, yoe, doy) + 1
    ensures doy + 1 < YearLength(yoe) ==> nextEra == era && nextYoe == yoe && nextDoy == doy + 1
    ensures doy + 1 == YearLength(yoe) ==> nextDoy == 0 && nextEra * 400 + nextYoe == era * 400 + yoe + 1
  {
    if doy + 1 < YearLength(yoe) {
      nextEra, nextYoe, nextDoy := era, yoe, doy + 1;
    } else if yoe < 399 {
      NextYear(yoe);
      nextEra, nextYoe, nextDoy := era, yoe + 1, 0;
    } else {
      assert YearLength(399) == 366 && DaysBefore(399) == 145731;
      nextEra, nextYoe, nextDoy := era + 1, 0, 0;
    }
  }

  lemma FirstOfMarch(era: int, yoe: int)
    ensures FromParts(era, yoe, 0) == Date(yoe + era * 400, 3, 1)
  {
  }

  lemma NextDate(era: int, yoe: int, doy: int, nextEra: int, nextYoe: int, nextDoy: int)
    requires AreParts(yoe, doy)
    requires doy + 1 < YearLength(yoe) ==> nextEra == era && nextYoe == yoe && nextDoy == doy + 1
    requires doy + 1 == YearLength(yoe) ==> nextDoy == 0 && nextEra * 400 + nextYoe == era * 400 + yoe + 1
    ensures FromParts(nextEra, nextYoe, nextDoy) == Successor(FromParts(era, yoe, doy))
  {
    DayOfYear(era, yoe, doy);
    FirstOfMarch(nextEra, nextYoe);
  }

  /** The next day number has the next date. */
  lemma NextDayIsSuccessor(days: int)
    ensures DaysToYmd(days + 1) == Successor(DaysToYmd(days))
  {
    var era, yoe, doy := PartsOfDay(days);
    var nextEra, nextYoe, nextDoy := NextParts(era, yoe, doy);
    DateFromParts(days, era, yoe, doy);
    DateFromParts(days + 1, nextEra, nextYoe, nextDoy);
    NextDate(era, yoe, doy, nextEra, nextYoe, nextDoy);
  }

  lemma EpochIsDayZero()
    ensures DaysToYmd(0) == Date(1970, 1, 1)
  {
  }

  // ---------------------------------------------------------------- counting days

  function DaysInYear(year: int): int {
    if IsLeap(year) then 366 else 365
  }

  /** Days from 1970-01-01 to the first of January of a year, one year at a time. */
  function YearStart(year: int): int
    decreases if year >= 1970 then year - 1970 else 1970 - year
  {
    if year == 1970 then 0
    else if year > 1970 then YearStart(year - 1) + DaysInYear(year - 1)
    else YearStart(year + 1) - DaysInYear(year)
  }

  /** Days of a year before a month, one month at a time. */
  function DaysBeforeMonth(year: int, month: nat): int {
    if month <= 1 then 0 else DaysBeforeMonth(year, month - 1) + DaysInMonth(year, month - 1)
  }

  /** The day number of a date, counted from the calendar's own lengths. */
  function DayNumber(date: Date): int
    requires Valid(date)
  {
    YearStart(date.year) + DaysBeforeMonth(date.year, date.month) + date.day - 1
  }

  lemma YearStartSteps(year: int)
    ensures YearStart(year + 1) == YearStart(year) + DaysInYear(year)
  {
  }

  lemma MonthsMakeYear(year: int)
    ensures DaysBeforeMonth(year, 12) + DaysInMonth(year, 12) == DaysInYear(year)
  {
    var f := if IsLeap(year) then 1 else 0;
    assert DaysBeforeMonth(year, 2) == 31;
    assert DaysBeforeMonth(year, 3) == 59 + f;
    assert DaysBeforeMonth(year, 4) == 90 + f;
    assert DaysBeforeMonth(year, 5) == 120 + f;
    assert DaysBeforeMonth(year, 6) == 151 + f;
    assert DaysBeforeMonth(year, 7) == 181 + f;
    assert DaysBeforeMonth(year, 8) == 212 + f;
    assert DaysBeforeMonth(year, 9) == 243 + f;
    assert DaysBeforeMonth(year, 10) == 273 + f;
    assert DaysBeforeMonth(year, 11) == 304 + f;
    assert DaysBeforeMonth(year, 12) == 334 + f;
  }

  lemma SuccessorCounts(date: Date)
    requires Valid(date)
    ensures Valid(Successor(date)) && DayNumber(Successor(date)) == DayNumber(date) + 1
  {
    YearStartSteps(date.year);
    MonthsMakeYear(date.year);
  }

  predicate Counts(days: int, date: Date) {
    Valid(date) && DayNumber(date) == days
  }

  lemma CountsUp(days: int, date: Date, next: Date)
    requires Counts(days, date) && next == Successor(date)
    ensures Counts(days + 1, next)
  {
    SuccessorCounts(date);
  }

  lemma CountsDown(days: int, date: Date, next: Date)
    requires Counts(days + 1, next) && Valid(date) && next == Successor(date)
    ensures Counts(days, date)
  {
    SuccessorCounts(date);
  }

  lemma CountsFromEpoch()
    ensures Counts(0, Date(1970, 1, 1))
  {
  }

  /** What is shown of a day number, apart from how its date is computed. */
  predicate Dated(days: int) {
    Counts(days, DaysToYmd(days))
  }

  lemma DatedUp(days: int, next: int)
    requires Dated(days) && next == days + 1
    ensures Dated(next)
  {
    NextDayIsSuccessor(days);
    CountsUp(days, DaysToYmd(days), DaysToYmd(next));
  }

  lemma DatedDown(days: int, next: int)
    requires Dated(next) && next == days + 1
    ensures Dated(days)
  {
    NextDayIsSuccessor(days);
    DateIsValid(days);
    CountsDown(days, DaysToYmd(days), DaysToYmd(next));
  }

  lemma DatedFromEpoch()
    ensures Dated(0)
  {
    EpochIsDayZero();
    CountsFromEpoch();
  }

  lemma {:induction false} DatedAfter(days: int)
    requires days >= 0
    ensures Dated(days)
    decreases days
  {
    if days == 0 {
      DatedFromEpoch();
    } else {
      var yesterday := days - 1;
      DatedAfter(yesterday);
      DatedUp(yesterday, days);
    }
  }

  lemma {:induction false} DatedBefore(days: int)
    requires days <= 0
    ensures Dated(days)
    decreases -days
  {
    if days == 0 {
      DatedFromEpoch();
    } else {
      var tomorrow := days + 1;
      DatedBefore(tomorrow);
      DatedDown(days, tomorrow);
    }
  }

  /** Dates invert the day count: the date of day n is n days after 1970-01-01, for every integer n. */
  lemma DateCountsBack(days: int)
    ensures Valid(DaysToYmd(days)) && DayNumber(DaysToYmd(days)) == days
  {
    if days >= 0 { DatedAfter(days); } else { DatedBefore(days); }
    assert Dated(days);
  }

  predicate DateBefore(a: Date, b: Date) {
    a.year < b.year || (a.year == b.year && (a.month < b.month || (a.month == b.month && a.day < b.day)))
  }

  lemma {:induction false} YearStartsGrow(a: int, b: int)
    requires a <= b
    ensures YearStart(a) + 365 * (b - a) <= YearStart(b)
    decreases b - a
  {
    if a < b {
      YearStartsGrow(a, b - 1);
      YearStartSteps(b - 1);
    }
  }

  lemma {:induction false} MonthStartsGrow(year: int, a: nat, b: nat)
    requires 1 <= a < b <= 12
    ensures DaysBeforeMonth(year, a) + DaysInMonth(year, a) <= DaysBeforeMonth(year, b)
    decreases b
  {
    if a < b - 1 { MonthStartsGrow(year, a, b - 1); }
  }

  lemma DayWithinYear(date: Date)
    requires Valid(date)
    ensures 0 <= DaysBeforeMonth(date.year, date.month) + date.day - 1 < DaysInYear(date.year)
  {
    MonthsMakeYear(date.year);
    if date.month > 1 { MonthStartsGrow(date.year, 1, date.month); }
    if date.month < 12 { MonthStartsGrow(date.year, date.month, 12); }
  }

  /** Earlier dates have smaller day numbers. */
  lemma DayNumberGrows(a: Date, b: Date)
    requires Valid(a) && Valid(b) && DateBefore(a, b)
    ensures DayNumber(a) < DayNumber(b)
  {
    DayWithinYear(a);
    DayWithinYear(b);
    if a.year < b.year {
      YearStartSteps(a.year);
      YearStartsGrow(a.year + 1, b.year);
    } else if a.month < b.month {
      MonthStartsGrow(a.year, a.month, b.month);
    }
  }

  /** Every valid date is the date of its day number. */
  lemma EveryDateIsReached(date: Date)
    requires Valid(date)
    ensures DaysToYmd(DayNumber(date)) == date
  {
    var other := DaysToYmd(DayNumber(date));
    DateCountsBack(DayNumber(date));
    if DateBefore(date, other) {
      DayNumberGrows(date, other);
    } else if DateBefore(other, date) {
      DayNumberGrows(other, date);
    }
  }

  /** Later day numbers have later dates. */
  lemma DatesFollowDays(a: int, b: int)
    requires a < b
    ensures DateBefore(DaysToYmd(a), DaysToYmd(b))
  {
    DateCountsBack(a);
    DateCountsBack(b);
    if DateBefore(DaysToYmd(b), DaysToYmd(a)) { DayNumberGrows(DaysToYmd(b), DaysToYmd(a)); }
  }
}
