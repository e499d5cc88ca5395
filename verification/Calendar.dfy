/** The proleptic Gregorian calendar of section 21.4.1 of ECMA-262, as far as the service
    uses it: UTC civil dates, day numbers, calendar months and the age of a person. */
module Calendar {

  const MS_PER_DAY: int := 86_400_000

  /** `month` counts from 0 as getUTCMonth does, `day` from 1 as getUTCDate does. */
  datatype Date = Date(year: int, month: int, day: int)

  predicate Leap(y: int) {
    y % 4 == 0 && (y % 100 != 0 || y % 400 == 0)
  }

  function DaysInYear(y: int): int {
    if Leap(y) then 366 else 365
  }

  /** The day number of January 1 of year y, day 0 being 1970-01-01: the years between add up. */
  function DayFromYear(y: int): int
    decreases if y < 1970 then 1970 - y else y - 1970
  {
    if y == 1970 then 0
    else if y > 1970 then DayFromYear(y - 1) + DaysInYear(y - 1)
    else DayFromYear(y + 1) - DaysInYear(y)
  }

  /** Days of the year before month m. */
  function DaysBefore(m: int, leap: bool): int {
    var l := if leap then 1 else 0;
    if m <= 0 then 0 else if m == 1 then 31 else if m == 2 then 59 + l
    else if m == 3 then 90 + l else if m == 4 then 120 + l else if m == 5 then 151 + l
    else if m == 6 then 181 + l else if m == 7 then 212 + l else if m == 8 then 243 + l
    else if m == 9 then 273 + l else if m == 10 then 304 + l else if m == 11 then 334 + l
    else 365 + l
  }

  /** Thirty days hath September. */
  function DaysInMonth(m: int, leap: bool): int {
    if m == 1 then if leap then 29 else 28
    else if m == 3 || m == 5 || m == 8 || m == 10 then 30 else 31
  }

  predicate ValidDate(d: Date) {
    0 <= d.month < 12 && 1 <= d.day <= DaysInMonth(d.month, Leap(d.year))
  }

  function DayNumber(d: Date): int {
    DayFromYear(d.year) + DaysBefore(d.month, Leap(d.year)) + d.day - 1
  }

  lemma MonthLength(m: int, leap: bool)
    requires 0 <= m < 12
    ensures DaysBefore(m + 1, leap) == DaysBefore(m, leap) + DaysInMonth(m, leap)
  {
  }

  lemma YearStep(y: int)
    ensures DayFromYear(y + 1) == DayFromYear(y) + DaysInYear(y)
  {
  }

  lemma {:induction false} YearsApart(y: int, z: int)
    requires y <= z
    ensures DayFromYear(y) + 365 * (z - y) <= DayFromYear(z)
    decreases z - y
  {
    if y < z {
      YearStep(y);
      YearsApart(y + 1, z);
    }
  }

  /** YearFromTime, found by walking from a first guess to the year that holds day n. */
  function YearFrom(n: int, guess: int): (y: int)
    ensures DayFromYear(y) <= n < DayFromYear(y + 1)
    decreases if n < DayFromYear(guess) then DayFromYear(guess) - n
              else if n >= DayFromYear(guess + 1) then n - DayFromYear(guess) else 0
  {
    YearStep(guess); YearStep(guess - 1); YearStep(guess + 1);
    if n < DayFromYear(guess) then YearFrom(n, guess - 1)
    else if n >= DayFromYear(guess + 1) then YearFrom(n, guess + 1)
    else guess
  }

  /** MonthFromTime: the month that holds day k of a year. */
  function MonthFrom(k: int, leap: bool): (m: int)
    ensures 0 <= k < DaysBefore(12, leap) ==>
              0 <= m < 12 && DaysBefore(m, leap) <= k < DaysBefore(m + 1, leap)
  {
    if k < DaysBefore(1, leap) then 0 else if k < DaysBefore(2, leap) then 1
    else if k < DaysBefore(3, leap) then 2 else if k < DaysBefore(4, leap) then 3
    else if k < DaysBefore(5, leap) then 4 else if k < DaysBefore(6, leap) then 5
    else if k < DaysBefore(7, leap) then 6 else if k < DaysBefore(8, leap) then 7
    else if k < DaysBefore(9, leap) then 8 else if k < DaysBefore(10, leap) then 9
    else if k < DaysBefore(11, leap) then 10 else 11
  }

  /** The closed form that ECMA-262 gives for DayFromYear. */
  function EcmaDayFromYear(y: int): int {
    365 * (y - 1970) + (y - 1969) / 4 - (y - 1901) / 100 + (y - 1601) / 400
  }

  lemma {:induction false} EcmaForm(y: int)
    ensures DayFromYear(y) == EcmaDayFromYear(y)
    decreases if y < 1970 then 1970 - y else y - 1970
  {
    if y > 1970 {
      EcmaForm(y - 1);
      EcmaStep(y - 1);
    } else if y < 1970 {
      EcmaForm(y + 1);
      EcmaStep(y);
    }
  }

  lemma EcmaStep(y: int)
    ensures EcmaDayFromYear(y + 1) == EcmaDayFromYear(y) + DaysInYear(y)
  {
    By4(y); By100(y); By400(y); LeapRules(y);
    LeapSum(y, (y - 1969) / 4, (y - 1901) / 100, (y - 1601) / 400,
            (y - 1968) / 4, (y - 1900) / 100, (y - 1600) / 400);
  }

  /** How the three leap-year terms move from one year to the next. */
  lemma LeapSum(y: int, by4: int, by100: int, by400: int, next4: int, next100: int, next400: int)
    requires next4 == by4 + if y % 4 == 0 then 1 else 0
    requires next100 == by100 + if y % 100 == 0 then 1 else 0
    requires next400 == by400 + if y % 400 == 0 then 1 else 0
    ensures 365 * (y - 1969) + next4 - next100 + next400
         == 365 * (y - 1970) + by4 - by100 + by400 + DaysInYear(y)
  {
  }

  lemma LeapRules(y: int)
    ensures y % 100 == 0 ==> y % 4 == 0
    ensures y % 400 == 0 ==> y % 100 == 0
  {
  }

  lemma By4(y: int)
    ensures (y - 1968) / 4 == (y - 1969) / 4 + if y % 4 == 0 then 1 else 0
  {
  }

  lemma By100(y: int)
    ensures (y - 1900) / 100 == (y - 1901) / 100 + if y % 100 == 0 then 1 else 0
  {
  }

  lemma By400(y: int)
    ensures (y - 1600) / 400 == (y - 1601) / 400 + if y % 400 == 0 then 1 else 0
  {
  }

  function DateOfDay(n: int): Date {
    var y := YearFrom(n, 1970);
    var k := n - DayFromYear(y);
    var m := MonthFrom(k, Leap(y));
    Date(y, m, k - DaysBefore(m, Leap(y)) + 1)
  }

  /** The UTC civil date at t milliseconds after the epoch. */
  function DateAt(t: int): Date {
    DateOfDay(t / MS_PER_DAY)
  }

  lemma DayRoundTrip(n: int)
    ensures ValidDate(DateOfDay(n)) && DayNumber(DateOfDay(n)) == n
  {
  }

  /** Every instant lies inside the day that its date names. */
  lemma DayHolds(t: int)
    ensures ValidDate(DateAt(t))
    ensures DayNumber(DateAt(t)) * 86_400_000 <= t < (DayNumber(DateAt(t)) + 1) * 86_400_000
  {
    DayRoundTrip(t / MS_PER_DAY);
    hide DayNumber, ValidDate, DateOfDay;
  }

  /** Lexicographic order of (year, month, day), whether or not the dates exist. */
  predicate Before(a: Date, b: Date) {
    a.year < b.year || (a.year == b.year && (a.month < b.month || (a.month == b.month && a.day < b.day)))
  }

  lemma MonthsAddUp(m: int, n: int, leap: bool)
    requires 0 <= m < n <= 12
    ensures DaysBefore(m + 1, leap) <= DaysBefore(n, leap)
  {
  }

  lemma EarlierFirst(a: Date, b: Date)
    requires ValidDate(a) && ValidDate(b) && Before(a, b)
    ensures DayNumber(a) < DayNumber(b)
  {
    if a.year < b.year {
      YearStep(a.year);
      YearsApart(a.year + 1, b.year);
      MonthsAddUp(a.month, 12, Leap(a.year));
    } else if a.month < b.month {
      MonthsAddUp(a.month, b.month, Leap(a.year));
    }
  }

  /** Day numbers order dates exactly as their fields do. */
  lemma DayOrder(a: Date, b: Date)
    requires ValidDate(a) && ValidDate(b)
    ensures DayNumber(a) < DayNumber(b) <==> Before(a, b)
    ensures DayNumber(a) == DayNumber(b) <==> a == b
  {
    if Before(a, b) {
      EarlierFirst(a, b);
    } else if Before(b, a) {
      EarlierFirst(b, a);
    }
  }

  lemma DateRoundTrip(d: Date)
    requires ValidDate(d)
    ensures DateOfDay(DayNumber(d)) == d
  {
    DayRoundTrip(DayNumber(d));
    DayOrder(DateOfDay(DayNumber(d)), d);
  }

  // ----- calendar months -----

  /** The part of a usage key that names the month. */
  datatype Month = Month(year: int, month: int)

  function MonthAt(t: int): Month {
    Month(DateAt(t).year, DateAt(t).month)
  }

  function NextMonth(m: Month): Month {
    if m.month == 11 then Month(m.year + 1, 0) else Month(m.year, m.month + 1)
  }

  /** The first millisecond of a month. */
  function MonthStart(m: Month): int {
    DayNumber(Date(m.year, m.month, 1)) * MS_PER_DAY
  }

  /** Instant t lies between the first millisecond of the month and that of the next one. */
  predicate InMonth(m: Month, t: int) {
    && 0 <= m.month < 12 && DayNumber(Date(m.year, m.month, 1)) * 86_400_000 <= t
    && t < DayNumber(if m.month == 11 then Date(m.year + 1, 0, 1) else Date(m.year, m.month + 1, 1)) * 86_400_000
  }

  /** An instant names exactly the month that it lies in. */
  lemma MonthHolds(t: int, m: Month)
    ensures MonthAt(t) == m <==> InMonth(m, t)
  {
    DayHolds(t);
    if 0 <= m.month < 12 {
      var first := Date(m.year, m.month, 1);
      var next := if m.month == 11 then Date(m.year + 1, 0, 1) else Date(m.year, m.month + 1, 1);
      DayOrder(DateAt(t), first);
      DayOrder(DateAt(t), next);
      hide DayNumber, DateAt;
      assert DateAt(t).day >= 1;
    }
  }

  /** Every instant lies inside the month it names, and no month is longer than 31 days. */
  lemma MonthBounds(t: int)
    ensures MonthStart(MonthAt(t)) <= t < MonthStart(NextMonth(MonthAt(t)))
    ensures MonthStart(NextMonth(MonthAt(t))) <= MonthStart(MonthAt(t)) + 31 * MS_PER_DAY
  {
  }

  // ----- age -----

  /** Completed years between two civil dates. */
  function Age(dob: Date, now: Date): int {
    var monthDiff := now.month - dob.month;
    now.year - dob.year - if monthDiff < 0 || (monthDiff == 0 && now.day < dob.day) then 1 else 0
  }

  /** The civil date is not before that of the k-th birthday, whether or not that date exists. */
  predicate HasTurned(dob: Date, k: int, now: Date) {
    !Before(now, Date(dob.year + k, dob.month, dob.day))
  }

  /** At least k years old means: the civil date has reached the k-th birthday, for every k. */
  method AgeFromBirthDate(dob: Date, now: Date) returns (age: int)
    ensures forall k: int :: age >= k <==> HasTurned(dob, k, now)
    ensures age == Age(dob, now)
  {
    age := now.year - dob.year;
    var monthDiff := now.month - dob.month;
    if monthDiff < 0 || (monthDiff == 0 && now.day < dob.day) {
      age := age - 1;
    }
  }

  /** k years old means: the civil date has reached the k-th birthday, where a birthday on
      February 29 is reached on March 1 of a common year. */
  lemma AgeMeansBirthday(dob: Date, now: Date, k: int)
    ensures Age(dob, now) >= k <==> !Before(now, Date(dob.year + k, dob.month, dob.day))
  {
  }

  /** A birthday has come exactly from the first millisecond of that day on; February 29 of a common
      year counts as March 1. */
  lemma BirthdayInstant(dob: Date, k: int, t: int)
    requires ValidDate(dob)
    ensures !Before(DateAt(t), Date(dob.year + k, dob.month, dob.day))
            <==> DayNumber(Date(dob.year + k, dob.month, dob.day)) * 86_400_000 <= t
  {
    var b := Date(dob.year + k, dob.month, dob.day);
    DayHolds(t);
    if ValidDate(b) {
      DayOrder(DateAt(t), b);
    } else {
      DayOrder(DateAt(t), Date(b.year, 2, 1));
    }
    hide DateAt, DayFromYear;
  }

  lemma {:induction false} AgeMonotone(dob: int, n: int, later: int)
    requires n <= later
    ensures Age(DateOfDay(dob), DateOfDay(n)) <= Age(DateOfDay(dob), DateOfDay(later))
  {
    DayRoundTrip(n); DayRoundTrip(later);
    DayOrder(DateOfDay(n), DateOfDay(later));
    DayOrder(DateOfDay(later), DateOfDay(n));
  }

  /** Age grows by 0 or 1 from each day to the next. */
  lemma AgeStep(dob: int, n: int)
    ensures var a := Age(DateOfDay(dob), DateOfDay(n));
            a <= Age(DateOfDay(dob), DateOfDay(n + 1)) <= a + 1
  {
    AgeMonotone(dob, n, n + 1);
    DayRoundTrip(dob); DayRoundTrip(n); DayRoundTrip(n + 1);
    NextDay(n);
  }

  /** The next day of the month, or else the first day of the next month. */
  function Tomorrow(d: Date): Date {
    if ValidDate(Date(d.year, d.month, d.day + 1)) then Date(d.year, d.month, d.day + 1)
    else if d.month < 11 then Date(d.year, d.month + 1, 1)
    else Date(d.year + 1, 0, 1)
  }

  lemma TomorrowNumber(d: Date)
    requires ValidDate(d)
    ensures ValidDate(Tomorrow(d)) && DayNumber(Tomorrow(d)) == DayNumber(d) + 1
  {
    YearStep(d.year);
    MonthLength(d.month, Leap(d.year));
    assert DaysBefore(0, Leap(d.year + 1)) == 0 && DaysBefore(12, Leap(d.year)) == DaysInYear(d.year);
    hide DaysBefore, DayFromYear;
  }

  lemma NextDay(n: int)
    ensures DateOfDay(n + 1) == Tomorrow(DateOfDay(n))
  {
    DayRoundTrip(n);
    TomorrowNumber(DateOfDay(n));
    DateRoundTrip(Tomorrow(DateOfDay(n)));
  }

  /** Being born later never makes anyone older. */
  lemma AgeAntitone(dob: int, laterDob: int, n: int)
    requires dob <= laterDob
    ensures Age(DateOfDay(laterDob), DateOfDay(n)) <= Age(DateOfDay(dob), DateOfDay(n))
  {
    DayRoundTrip(dob); DayRoundTrip(laterDob);
    DayOrder(DateOfDay(laterDob), DateOfDay(dob));
  }
}
