/** Timestamps as text, and the order SQLite gives them. */
module Timestamps {
  import opened Items
  import opened CivilDate
  import opened DecimalText

  /** Seconds since 1970-01-01T00:00:00Z and the milliseconds of that second. */
  datatype Instant = Instant(secs: nat, millis: nat)

  predicate Earlier(a: Instant, b: Instant) {
    a.secs < b.secs || (a.secs == b.secs && a.millis < b.millis)
  }

  // ---------------------------------------------------------------- text order

  /** Text order by character codes; a proper prefix comes first. */
  predicate LexLess(a: string, b: string) {
    b != [] && (a == [] || a[0] < b[0] || (a[0] == b[0] && LexLess(a[1..], b[1..])))
  }

  lemma {:induction false} LexJoin(a: string, b: string, x: string, y: string)
    requires |a| == |b|
    ensures LexLess(a + x, b + y) <==> LexLess(a, b) || (a == b && LexLess(x, y))
    decreases |a|
  {
    if a == [] {
      assert a + x == x && b + y == y;
    } else {
      LexJoin(a[1..], b[1..], x, y);
      assert (a + x)[1..] == a[1..] + x && (b + y)[1..] == b[1..] + y;
      assert a == [a[0]] + a[1..] && b == [b[0]] + b[1..];
    }
  }

  lemma DigitOrder(m: nat, n: nat)
    requires m < 10 && n < 10
    ensures LexLess([Digit(m)], [Digit(n)]) <==> m < n
    ensures Digit(m) == Digit(n) <==> m == n
  {
  }

  /** Numbers of one width are ordered as text as they are as numbers. */
  lemma {:induction false} FixedOrder(m: nat, n: nat, width: nat)
    requires m < Pow10(width) && n < Pow10(width)
    ensures LexLess(Fixed(m, width), Fixed(n, width)) <==> m < n
    ensures Fixed(m, width) == Fixed(n, width) <==> m == n
    decreases width
  {
    if width > 0 {
      FixedWidth(m / 10, width - 1);
      FixedWidth(n / 10, width - 1);
      FixedOrder(m / 10, n / 10, width - 1);
      DigitOrder(m % 10, n % 10);
      LexJoin(Fixed(m / 10, width - 1), Fixed(n / 10, width - 1), [Digit(m % 10)], [Digit(n % 10)]);
      LastDigit(Fixed(m / 10, width - 1), Fixed(n / 10, width - 1), Digit(m % 10), Digit(n % 10));
    }
  }

  lemma LastDigit(a: string, b: string, c: char, d: char)
    ensures a + [c] == b + [d] <==> a == b && c == d
  {
    if a + [c] == b + [d] {
      assert (a + [c])[..|a|] == a && (b + [d])[..|b|] == b;
      assert (a + [c])[|a|] == c && (b + [d])[|b|] == d;
    }
  }

  /** One field of a timestamp, with the character after it. */
  function Field(n: nat, width: nat, mark: char): string {
    Padded(n, width) + [mark]
  }

  lemma FieldOrder(m: nat, n: nat, width: nat, mark: char, x: string, y: string)
    requires width > 0 && m < Pow10(width) && n < Pow10(width)
    ensures LexLess(Field(m, width, mark) + x, Field(n, width, mark) + y) <==> m < n || (m == n && LexLess(x, y))
  {
    PaddedIsFixed(m, width);
    PaddedIsFixed(n, width);
    FixedOrder(m, n, width);
    LexJoin(Padded(m, width), Padded(n, width), [mark], [mark]);
    LexJoin(Field(m, width, mark), Field(n, width, mark), x, y);
    LastDigit(Padded(m, width), Padded(n, width), mark, mark);
    assert !LexLess([mark], [mark]);
  }

  // ---------------------------------------------------------------- timestamps

  function YearText(year: int): string {
    if year >= 0 then Padded(year, 4) else "-" + Padded(-year, 3)
  }

  function ClockText(hour: nat, minute: nat, second: nat, millis: nat): string {
    Field(hour, 2, ':') + (Field(minute, 2, ':') + (Field(second, 2, '.') + (Field(millis, 3, 'Z') + "")))
  }

  function TimeText(secs: nat, millis: nat): string {
    ClockText(secs / 3600, secs % 3600 / 60, secs % 60, millis)
  }

  /** The text `iso_now` writes for an instant. */
  function Iso(t: Instant): string {
    var date := DaysToYmd(t.secs / 86400);
    YearText(date.year) + "-"
    + (Field(if date.month >= 0 then date.month else 0, 2, '-')
       + (Field(if date.day >= 0 then date.day else 0, 2, 'T') + TimeText(t.secs % 86400, t.millis)))
  }

  predicate InRange(t: Instant) {
    t.millis < 1000 && DaysToYmd(t.secs / 86400).year <= 9999
  }

  lemma TenPowers()
    ensures Pow10(2) == 100 && Pow10(3) == 1000 && Pow10(4) == 10000
  {
    assert Pow10(1) == 10;
  }

  lemma SecondsOrder(s: nat, m: nat, t: nat, n: nat)
    requires s < 100 && t < 100 && m < 1000 && n < 1000
    ensures
      LexLess(Field(s, 2, '.') + (Field(m, 3, 'Z') + ""), Field(t, 2, '.') + (Field(n, 3, 'Z') + "")) <==>
      s < t || (s == t && m < n)
  {
    TenPowers();
    FieldOrder(m, n, 3, 'Z', "", "");
    FieldOrder(s, t, 2, '.', Field(m, 3, 'Z') + "", Field(n, 3, 'Z') + "");
  }

  lemma ClockTextOrder(h: nat, i: nat, s: nat, m: nat, g: nat, j: nat, t: nat, n: nat)
    requires h < 100 && i < 100 && s < 100 && m < 1000 && g < 100 && j < 100 && t < 100 && n < 1000
    ensures
      LexLess(ClockText(h, i, s, m), ClockText(g, j, t, n)) <==>
      h < g || (h == g && (i < j || (i == j && (s < t || (s == t && m < n)))))
  {
    TenPowers();
    SecondsOrder(s, m, t, n);
    var a, b := Field(s, 2, '.') + (Field(m, 3, 'Z') + ""), Field(t, 2, '.') + (Field(n, 3, 'Z') + "");
    FieldOrder(i, j, 2, ':', a, b);
    FieldOrder(h, g, 2, ':', Field(i, 2, ':') + a, Field(j, 2, ':') + b);
  }

  lemma TimeOrder(s: nat, m: nat, t: nat, n: nat)
    requires s < 86400 && t < 86400 && m < 1000 && n < 1000
    ensures LexLess(TimeText(s, m), TimeText(t, n)) <==> s < t || (s == t && m < n)
  {
    ClockParts(s);
    ClockParts(t);
    ClockTextOrder(s / 3600, s % 3600 / 60, s % 60, m, t / 3600, t % 3600 / 60, t % 60, n);
    ClockOrder(s, t);
  }

  /** Hours, minutes and seconds order the seconds of a day. */
  lemma ClockOrder(s: nat, t: nat)
    ensures
      s < t <==>
        || s / 3600 < t / 3600
        || (s / 3600 == t / 3600
            && (s % 3600 / 60 < t % 3600 / 60 || (s % 3600 / 60 == t % 3600 / 60 && s % 60 < t % 60)))
  {
    ClockParts(s);
    ClockParts(t);
  }

  lemma ClockParts(s: nat)
    ensures s == 3600 * (s / 3600) + 60 * (s % 3600 / 60) + s % 60
    ensures s % 3600 / 60 < 60 && (s < 86400 ==> s / 3600 < 24)
  {
    var r := s % 3600;
    assert s == 3600 * (s / 3600) + r;
    assert r == 60 * (r / 60) + r % 60;
    assert s == 60 * (60 * (s / 3600) + r / 60) + r % 60;
  }

  lemma YearFromEpoch(days: nat)
    ensures DaysToYmd(days).year >= 1970
  {
    DateCountsBack(days);
    var date := DaysToYmd(days);
    DayWithinYear(date);
    if date.year < 1970 {
      YearStartSteps(date.year);
      YearStartsGrow(date.year + 1, 1970);
    }
  }

  /** A date and what follows it, in the fixed widths of years up to 9999. */
  function DateText(date: Date, rest: string): string
    requires Valid(date) && 0 <= date.year
  {
    Field(date.year, 4, '-') + (Field(date.month, 2, '-') + (Field(date.day, 2, 'T') + rest))
  }

  /** Year, month and day in text order are in calendar order. */
  lemma DateTextOrder(a: Date, b: Date, x: string, y: string)
    requires Valid(a) && Valid(b) && 0 <= a.year <= 9999 && 0 <= b.year <= 9999
    ensures LexLess(DateText(a, x), DateText(b, y)) <==> DateBefore(a, b) || (a == b && LexLess(x, y))
  {
    TenPowers();
    FieldOrder(a.day, b.day, 2, 'T', x, y);
    var p, q := Field(a.day, 2, 'T') + x, Field(b.day, 2, 'T') + y;
    FieldOrder(a.month, b.month, 2, '-', p, q);
    FieldOrder(a.year, b.year, 4, '-', Field(a.month, 2, '-') + p, Field(b.month, 2, '-') + q);
  }

  lemma IsoParts(t: Instant)
    requires InRange(t)
    ensures
      var date := DaysToYmd(t.secs / 86400);
      && Valid(date) && 0 <= date.year <= 9999
      && Iso(t) == DateText(date, TimeText(t.secs % 86400, t.millis))
  {
    DateIsValid(t.secs / 86400);
    YearFromEpoch(t.secs / 86400);
  }

  /** Day, second of the day and millisecond order the instants. */
  lemma InstantOrder(a: Instant, b: Instant)
    ensures
      var m, n := a.secs / 86400, b.secs / 86400;
      var s, t := a.secs % 86400, b.secs % 86400;
      Earlier(a, b) <==> m < n || (m == n && (s < t || (s == t && a.millis < b.millis)))
  {
    assert a.secs == 86400 * (a.secs / 86400) + a.secs % 86400;
    assert b.secs == 86400 * (b.secs / 86400) + b.secs % 86400;
  }

  /** The text of two days and times of day. */
  lemma DayTextOrder(m: nat, n: nat, s: nat, x: nat, t: nat, y: nat)
    requires Valid(DaysToYmd(m)) && 0 <= DaysToYmd(m).year <= 9999
    requires Valid(DaysToYmd(n)) && 0 <= DaysToYmd(n).year <= 9999
    requires s < 86400 && t < 86400 && x < 1000 && y < 1000
    ensures
      LexLess(DateText(DaysToYmd(m), TimeText(s, x)), DateText(DaysToYmd(n), TimeText(t, y))) <==>
      m < n || (m == n && (s < t || (s == t && x < y)))
  {
    DateTextOrder(DaysToYmd(m), DaysToYmd(n), TimeText(s, x), TimeText(t, y));
    TimeOrder(s, x, t, y);
    DaysOrder(m, n);
  }

  /** Up to the year 9999, timestamps are in text order exactly when the instants are in time order. */
  lemma TextOrderIsTimeOrder(a: Instant, b: Instant)
    requires InRange(a) && InRange(b)
    ensures LexLess(Iso(a), Iso(b)) <==> Earlier(a, b)
  {
    IsoParts(a);
    IsoParts(b);
    DayTextOrder(a.secs / 86400, b.secs / 86400, a.secs % 86400, a.millis, b.secs % 86400, b.millis);
    InstantOrder(a, b);
  }

  lemma DaysOrder(m: nat, n: nat)
    ensures DateBefore(DaysToYmd(m), DaysToYmd(n)) <==> m < n
    ensures DaysToYmd(m) == DaysToYmd(n) <==> m == n
  {
    if m < n { DatesFollowDays(m, n); }
    if n < m { DatesFollowDays(n, m); }
  }

  /** Reading events newest text first never puts an earlier instant before a later one. */
  lemma NewestTextIsNewest(times: seq<Instant>)
    requires forall k :: 0 <= k < |times| ==> InRange(times[k])
    requires forall j, k :: 0 <= j < k < |times| ==> !LexLess(Iso(times[j]), Iso(times[k]))
    ensures forall j, k :: 0 <= j < k < |times| ==> !Earlier(times[j], times[k])
  {
    forall j, k | 0 <= j < k < |times| ensures !Earlier(times[j], times[k]) {
      TextOrderIsTimeOrder(times[j], times[k]);
    }
  }

  // ---------------------------------------------------------------- reading a timestamp

  /** The number written from one place of a text to another. */
  function NumberAt(text: string, from: nat, to: nat): Option<nat> {
    if from <= to <= |text| && AllDigits(text[from..to]) then Some(ValueOf(text[from..to])) else None
  }

  /** What a reader of the fixed places of a timestamp finds: a date of the calendar and a time of the day. */
  datatype Reading = Reading(date: Date, hour: nat, minute: nat, second: nat, millis: nat)

  predicate IsReading(text: string, r: Reading) {
    && |text| == 24
    && text[4] == '-' && text[7] == '-' && text[10] == 'T' && text[13] == ':' && text[16] == ':' && text[19] == '.'
    && text[23] == 'Z'
    && Valid(r.date) && r.date.year >= 0
    && NumberAt(text, 0, 4) == Some(r.date.year) && NumberAt(text, 5, 7) == Some(r.date.month)
    && NumberAt(text, 8, 10) == Some(r.date.day)
    && NumberAt(text, 11, 13) == Some(r.hour) && NumberAt(text, 14, 16) == Some(r.minute)
    && NumberAt(text, 17, 19) == Some(r.second) && NumberAt(text, 20, 23) == Some(r.millis)
    && r.hour < 24 && r.minute < 60 && r.second < 60 && r.millis < 1000
  }

  /** The instant a reading stands for, the days counted by the calendar. */
  predicate StandsFor(r: Reading, t: Instant)
    requires Valid(r.date)
  {
    t.secs == 86400 * DayNumber(r.date) + 3600 * r.hour + 60 * r.minute + r.second && t.millis == r.millis
  }

  lemma Regrouped(a: string, b: string, c: string)
    ensures a + (b + c) == (a + b) + c
  {
  }

  /** A field of a text is found at its place. */
  lemma FieldReads(text: string, prefix: string, n: nat, width: nat, mark: char, rest: string)
    requires text == prefix + (Field(n, width, mark) + rest) && width > 0 && n < Pow10(width)
    ensures
      var end := |prefix| + width;
      && |text| == end + 1 + |rest| && text[end] == mark && NumberAt(text, |prefix|, end) == Some(n)
      && text == (prefix + Field(n, width, mark)) + rest && |prefix + Field(n, width, mark)| == end + 1
  {
    PaddedReads(n, width);
    PartReads(text, prefix, Padded(n, width), mark, rest);
  }

  lemma PaddedReads(n: nat, width: nat)
    requires width > 0 && n < Pow10(width)
    ensures |Padded(n, width)| == width && AllDigits(Padded(n, width)) && ValueOf(Padded(n, width)) == n
  {
    PaddedIsFixed(n, width);
    FixedReads(n, width);
  }

  lemma PartReads(text: string, prefix: string, part: string, mark: char, rest: string)
    requires text == prefix + ((part + [mark]) + rest)
    ensures |text| == |prefix| + |part| + 1 + |rest|
    ensures text[|prefix|..|prefix| + |part|] == part && text[|prefix| + |part|] == mark
    ensures text == (prefix + (part + [mark])) + rest && |prefix + (part + [mark])| == |prefix| + |part| + 1
  {
    Regrouped(prefix, part + [mark], rest);
    forall k | 0 <= k < |part| ensures text[|prefix| + k] == part[k] {
      assert text[|prefix| + k] == ((part + [mark]) + rest)[k];
    }
  }

  lemma ClockReads(text: string, prefix: string, hour: nat, minute: nat, second: nat, millis: nat)
    requires text == prefix + ClockText(hour, minute, second, millis) && |prefix| == 11
    requires hour < 100 && minute < 100 && second < 100 && millis < 1000
    ensures |text| == 24 && text[13] == ':' && text[16] == ':' && text[19] == '.' && text[23] == 'Z'
    ensures NumberAt(text, 11, 13) == Some(hour) && NumberAt(text, 14, 16) == Some(minute)
    ensures NumberAt(text, 17, 19) == Some(second) && NumberAt(text, 20, 23) == Some(millis)
  {
    TenPowers();
    var d := Field(millis, 3, 'Z') + "";
    var c := Field(second, 2, '.') + d;
    FieldReads(text, prefix, hour, 2, ':', Field(minute, 2, ':') + c);
    FieldReads(text, prefix + Field(hour, 2, ':'), minute, 2, ':', c);
    FieldReads(text, prefix + Field(hour, 2, ':') + Field(minute, 2, ':'), second, 2, '.', d);
    FieldReads(
      text, prefix + Field(hour, 2, ':') + Field(minute, 2, ':') + Field(second, 2, '.'), millis, 3, 'Z', "");
  }

  lemma DateReads(text: string, date: Date, rest: string)
    requires Valid(date) && 0 <= date.year <= 9999 && text == DateText(date, rest)
    ensures |text| == 11 + |rest| && text[4] == '-' && text[7] == '-' && text[10] == 'T' && text[11..] == rest
    ensures NumberAt(text, 0, 4) == Some(date.year) && NumberAt(text, 5, 7) == Some(date.month)
    ensures NumberAt(text, 8, 10) == Some(date.day)
  {
    TenPowers();
    var c := Field(date.day, 2, 'T') + rest;
    var b := Field(date.month, 2, '-') + c;
    assert text == "" + (Field(date.year, 4, '-') + b);
    FieldReads(text, "", date.year, 4, '-', b);
    FieldReads(text, "" + Field(date.year, 4, '-'), date.month, 2, '-', c);
    FieldReads(text, "" + Field(date.year, 4, '-') + Field(date.month, 2, '-'), date.day, 2, 'T', rest);
  }

  lemma TimeReads(text: string, secs: nat, millis: nat)
    requires secs < 86400 && millis < 1000 && |text| >= 11 && text[11..] == TimeText(secs, millis)
    ensures |text| == 24 && text[13] == ':' && text[16] == ':' && text[19] == '.' && text[23] == 'Z'
    ensures NumberAt(text, 11, 13) == Some(secs / 3600) && NumberAt(text, 14, 16) == Some(secs % 3600 / 60)
    ensures NumberAt(text, 17, 19) == Some(secs % 60) && NumberAt(text, 20, 23) == Some(millis)
  {
    ClockParts(secs);
    assert text == text[..11] + text[11..];
    ClockReads(text, text[..11], secs / 3600, secs % 3600 / 60, secs % 60, millis);
  }

  function ReadingOf(t: Instant): Reading {
    Reading(DaysToYmd(t.secs / 86400), t.secs % 86400 / 3600, t.secs % 86400 % 3600 / 60, t.secs % 86400 % 60, t.millis)
  }

  /** Up to the year 9999, a timestamp has 24 characters with its marks at their places, and its numbers are the date
      and the time of day of exactly the instant it was written for. */
  lemma TimestampReadsBack(t: Instant)
    requires InRange(t)
    ensures exists r :: IsReading(Iso(t), r) && StandsFor(r, t)
  {
    var days, secs := t.secs / 86400, t.secs % 86400;
    var date := DaysToYmd(days);
    IsoParts(t);
    DateReads(Iso(t), date, TimeText(secs, t.millis));
    TimeReads(Iso(t), secs, t.millis);
    ClockParts(secs);
    DateCountsBack(days);
    assert t.secs == 86400 * days + secs;
    assert IsReading(Iso(t), ReadingOf(t)) && StandsFor(ReadingOf(t), t);
  }

  /** A text has one reading, and a reading stands for one instant. */
  lemma OneReading(text: string, r: Reading, q: Reading, t: Instant, u: Instant)
    requires IsReading(text, r) && IsReading(text, q) && StandsFor(r, t) && StandsFor(q, u)
    ensures r == q && t == u
  {
  }
}
