/**
  The calendar arithmetic behind `Expires` (`days_from_civil`,
  `civil_from_days`, src/courierust_client/cookies.rs), against the Gregorian
  calendar read off its own rules: which years are leap, how long each month is,
  and what day comes after which.
 */
module Calendar {

  datatype Date = Date(year: int, month: int, day: int)

  // ------------------------------------------------------------------
  // The calendar
  // ------------------------------------------------------------------

  predicate Leap(year: int) {
    year % 4 == 0 && (year % 100 != 0 || year % 400 == 0)
  }

  function MonthLength(year: int, month: int): (n: int)
    requires 1 <= month <= 12
    ensures 28 <= n <= 31
  {
    if month == 2 then if Leap(year) then 29 else 28
    else if month == 4 || month == 6 || month == 9 || month == 11 then 30
    else 31
  }

  predicate Valid(date: Date) {
    1 <= date.month <= 12 && 1 <= date.day <= MonthLength(date.year, date.month)
  }

  function Tomorrow(date: Date): (next: Date)
    requires Valid(date)
    ensures Valid(next) && next != date
  {
    if date.day < MonthLength(date.year, date.month) then date.(day := date.day + 1)
    else if date.month < 12 then Date(date.year, date.month + 1, 1)
    else Date(date.year + 1, 1, 1)
  }

  // ------------------------------------------------------------------
  // The code
  // ------------------------------------------------------------------

  /** Rust's `/`: the quotient is rounded toward zero. */
  function Quotient(a: int, b: int): int
    requires b > 0
  {
    if a >= 0 then a / b else -(-a / b)
  }

  /** `days_from_civil` */
  function DaysFromCivil(year: int, month: int, day: int): int {
    var y := year - if month <= 2 then 1 else 0;
    var era := Quotient(if y >= 0 then y else y - 399, 400);
    var yoe := y - era * 400;
    var doy := Quotient(153 * (if month > 2 then month - 3 else month + 9) + 2, 5) + day - 1;
    var doe := yoe * 365 + Quotient(yoe, 4) - Quotient(yoe, 100) + doy;
    era * 146097 + doe - 719468
  }

  /** `civil_from_days` */
  function CivilFromDays(days: int): Date {
    var z := days + 719468;
    InEra(EraOf(z), z - EraOf(z) * 146097)
  }

  function EraOf(z: int): int {
    Quotient(if z >= 0 then z else z - 146096, 146097)
  }

  /** The date of day `doe` of an era. */
  function InEra(era: int, doe: int): Date {
    var yoe := YearOf(doe);
    InYear(yoe + era * 400, doe - FirstDay(yoe))
  }

  function YearOf(doe: int): int {
    Quotient(doe - Quotient(doe, 1460) + Quotient(doe, 36524) - Quotient(doe, 146096), 365)
  }

  function FirstDay(yoe: int): int {
    365 * yoe + Quotient(yoe, 4) - Quotient(yoe, 100)
  }

  /** The date of day `doy` of the year that begins in March of `y`. */
  function InYear(y: int, doy: int): Date {
    var mp := Quotient(5 * doy + 2, 153);
    var d := doy - Quotient(153 * mp + 2, 5) + 1;
    var m := if mp < 10 then mp + 3 else mp - 9;
    Date(if m <= 2 then y + 1 else y, m, d)
  }

  function Days(date: Date): int {
    DaysFromCivil(date.year, date.month, date.day)
  }

  // ------------------------------------------------------------------
  // Years that begin in March
  // ------------------------------------------------------------------

  /** The number of whole days before 1 March of year `y`, counted from 1 March of year 0. */
  function YearStart(y: int): int {
    365 * y + y / 4 - y / 100 + y / 400
  }

  /** The first day of month `mp` of a year that begins in March. */
  function MonthStart(mp: int): int {
    (153 * mp + 2) / 5
  }

  function MarchYear(date: Date): int {
    if date.month <= 2 then date.year - 1 else date.year
  }

  function MarchMonth(date: Date): int {
    if date.month > 2 then date.month - 3 else date.month + 9
  }

  /** The rounding correction makes the truncated quotient the floor. */
  lemma EraIsFloor(y: int, n: int)
    requires n > 0
    ensures Quotient(if y >= 0 then y else y - (n - 1), n) == y / n
  {
    if y < 0 {
      var q := y / n;
      var up := -y + (n - 1);
      assert up == n * (-q) + (n - 1 - y % n);
      DivIs(up, n, -q, n - 1 - y % n);
    }
  }

  lemma DivIs(a: int, n: int, q: int, r: int)
    requires n > 0 && a == n * q + r && 0 <= r < n
    ensures a / n == q
  {
    var k := a / n;
    assert a == n * k + a % n;
    assert n * (k - q) == r - a % n;
    assert n * (q - k) == -(n * (k - q));
    if k > q { MulAtLeast(n, k - q); }
    if k < q { MulAtLeast(n, q - k); }
  }

  lemma MulAtLeast(n: int, k: int)
    requires n > 0 && k >= 1
    ensures n * k >= n
  {
  }

  /** Counting by eras or by leap years comes to the same thing. */
  lemma EraSplit(y: int)
    ensures var era, yoe := y / 400, y % 400;
      0 <= yoe < 400 && era * 146097 + (yoe * 365 + yoe / 4 - yoe / 100) == YearStart(y)
  {
    var era, yoe := y / 400, y % 400;
    assert y == 400 * era + yoe;
    assert y / 4 == 100 * era + yoe / 4;
    assert y / 100 == 4 * era + yoe / 100;
  }

  /** The day number as a sum over whole years and whole months. */
  function Sum(date: Date): int {
    YearStart(MarchYear(date)) + MonthStart(MarchMonth(date)) + date.day - 1 - 719468
  }

  lemma DaysAreSum(date: Date)
    requires Valid(date)
    ensures Days(date) == Sum(date)
  {
    var y := MarchYear(date);
    EraIsFloor(y, 400);
    EraSplit(y);
    assert Quotient(y % 400, 4) == y % 400 / 4 && Quotient(y % 400, 100) == y % 400 / 100;
  }

  // ------------------------------------------------------------------
  // One day later is one more
  // ------------------------------------------------------------------

  lemma YearLength(y: int)
    ensures YearStart(y + 1) - YearStart(y) == if Leap(y + 1) then 366 else 365
  {
    var n := y + 1;
    assert n / 4 - y / 4 == if n % 4 == 0 then 1 else 0;
    assert n / 100 - y / 100 == if n % 100 == 0 then 1 else 0;
    assert n / 400 - y / 400 == if n % 400 == 0 then 1 else 0;
    assert n % 400 == 0 ==> n % 100 == 0;
    assert n % 100 == 0 ==> n % 4 == 0;
  }

  lemma MonthsFollow(date: Date)
    requires Valid(date) && date.month != 2
    ensures MonthStart(MarchMonth(date) + 1) - MonthStart(MarchMonth(date)) == MonthLength(date.year, date.month)
  {
  }

  lemma SumGrows(date: Date)
    requires Valid(date)
    ensures Sum(Tomorrow(date)) == Sum(date) + 1
  {
    if date.day == MonthLength(date.year, date.month) {
      if date.month == 2 {
        YearLength(MarchYear(date));
      } else {
        MonthsFollow(date);
      }
    }
  }

  /** The code counts days: tomorrow's number is today's plus one, and 1 January 1970 is day zero. */
  lemma CountsDays(date: Date)
    requires Valid(date)
    ensures Days(Tomorrow(date)) == Days(date) + 1
    ensures Days(Date(1970, 1, 1)) == 0
  {
    DaysAreSum(date);
    DaysAreSum(Tomorrow(date));
    SumGrows(date);
    EpochIsDayZero();
  }

  lemma EpochIsDayZero()
    ensures Days(Date(1970, 1, 1)) == 0
  {
  }

  // ------------------------------------------------------------------
  // There and back
  // ------------------------------------------------------------------

  /** The pieces of a year of an era: century, leap cycle in it, year in that. */
  lemma YearPieces(c: int, q: int, r: int)
    requires 0 <= c < 4 && 0 <= q < 25 && 0 <= r < 4
    ensures var yoe := 100 * c + 4 * q + r;
      yoe / 4 == 25 * c + q && yoe / 100 == c && 365 * yoe + yoe / 4 - yoe / 100 == 36524 * c + 1461 * q + 365 * r
  {
  }

  lemma CenturyOf(c: int, s: int)
    requires 0 <= c < 4 && 0 <= s && (s < 36524 || (c == 3 && s == 36524))
    ensures var doe := 36524 * c + s; doe / 36524 - doe / 146096 == c
  {
    var doe := 36524 * c + s;
    if s < 36524 {
      DivIs(doe, 36524, c, s);
      assert doe < 146096;
    } else {
      assert doe == 146096;
    }
  }

  lemma YearOfCycle(c: int, q: int, t: int, r: int)
    requires 0 <= c < 4 && 0 <= q < 25 && 0 <= r < 4
    requires 365 * r <= t < 365 * r + 365 || (r == 3 && t == 1460)
    ensures (t - (24 * c + q + t) / 1460) / 365 == r
  {
    var e := (24 * c + q + t) / 1460;
    assert r < 3 ==> e == 0;
    assert 0 <= e <= 1;
    assert 365 * r <= t - e < 365 * r + 365;
  }

  /** The division trick finds the year of the era. */
  lemma YearFound(c: int, q: int, r: int, doy: int)
    requires 0 <= c < 4 && 0 <= q < 25 && 0 <= r < 4
    requires 0 <= doy <= if r == 3 && (q < 24 || c == 3) then 365 else 364
    ensures var doe := 36524 * c + 1461 * q + 365 * r + doy;
      0 <= doe < 146097 &&
      (doe - doe / 1460 + doe / 36524 - doe / 146096) / 365 == 100 * c + 4 * q + r
  {
    var t := 365 * r + doy;
    var s := 1461 * q + t;
    var doe := 36524 * c + s;
    CenturyOf(c, s);
    var e := (24 * c + q + t) / 1460;
    DivIs(doe, 1460, 25 * c + q + e, (24 * c + q + t) % 1460);
    assert doe - doe / 1460 + c == 365 * (100 * c + 4 * q) + (t - e);
    YearOfCycle(c, q, t, r);
    DivIs(365 * (100 * c + 4 * q) + (t - e), 365, 100 * c + 4 * q + r, t - e - 365 * r);
  }

  lemma MonthFound(mp: int, day: int)
    requires 0 <= mp <= 11 && 1 <= day <= 31
    requires mp != 11 ==> day <= MonthStart(mp + 1) - MonthStart(mp)
    requires mp == 11 ==> day <= 29
    ensures (5 * (MonthStart(mp) + day - 1) + 2) / 153 == mp
    ensures 0 <= MonthStart(mp) + day - 1 <= 365
  {
  }

  /** Where a day lies in its era, from the outside in. */
  datatype Place = Place(era: int, century: int, cycle: int, year: int, mp: int, day: int)

  predicate InPlace(p: Place) {
    0 <= p.century < 4 && 0 <= p.cycle < 25 && 0 <= p.year < 4 && 0 <= p.mp <= 11 && 1 <= p.day &&
    p.day <= if p.mp == 11 then if LongYear(p) then 29 else 28 else MonthStart(p.mp + 1) - MonthStart(p.mp)
  }

  predicate LongYear(p: Place) {
    p.year == 3 && (p.cycle < 24 || p.century == 3)
  }

  function YearOfEra(p: Place): int {
    100 * p.century + 4 * p.cycle + p.year
  }

  function DayOfYear(p: Place): int {
    MonthStart(p.mp) + p.day - 1
  }

  function DayOfEra(p: Place): int {
    36524 * p.century + 1461 * p.cycle + 365 * p.year + DayOfYear(p)
  }

  function DateAt(p: Place): Date {
    var y := YearOfEra(p) + 400 * p.era;
    var m := if p.mp < 10 then p.mp + 3 else p.mp - 9;
    Date(if m <= 2 then y + 1 else y, m, p.day)
  }

  lemma ModIs(a: int, n: int, q: int, r: int)
    requires n > 0 && a == n * q + r && 0 <= r < n
    ensures a % n == r
  {
    DivIs(a, n, q, r);
  }

  lemma ModShift(era: int, y: int)
    ensures (400 * era + y) % 4 == y % 4 && (400 * era + y) % 100 == y % 100 && (400 * era + y) % 400 == y % 400
  {
    ModIs(400 * era + y, 4, 100 * era + y / 4, y % 4);
    ModIs(400 * era + y, 100, 4 * era + y / 100, y % 100);
    ModIs(400 * era + y, 400, era + y / 400, y % 400);
  }

  lemma LeapPieces(c: int, q: int, r: int)
    requires 0 <= c < 4 && 0 <= q < 25 && 0 <= r < 4
    ensures Leap(100 * c + 4 * q + r + 1) <==> r == 3 && (q < 24 || c == 3)
  {
    var y := 100 * c + 4 * q + r + 1;
    assert y % 4 == (r + 1) % 4;
    assert y % 100 == (4 * q + r + 1) % 100;
    assert q < 24 ==> y % 100 == 4 * q + r + 1;
    assert q == 24 && r == 3 ==> y == 100 * (c + 1);
  }

  lemma LongMeansLeap(p: Place)
    requires InPlace(p)
    ensures Leap(400 * p.era + YearOfEra(p) + 1) <==> LongYear(p)
  {
    ModShift(p.era, YearOfEra(p) + 1);
    LeapPieces(p.century, p.cycle, p.year);
  }

  lemma PlaceIsValid(p: Place)
    requires InPlace(p)
    ensures Valid(DateAt(p))
    ensures MarchYear(DateAt(p)) == 400 * p.era + YearOfEra(p) && MarchMonth(DateAt(p)) == p.mp
  {
    LongMeansLeap(p);
  }

  lemma PlaceNumber(p: Place)
    requires InPlace(p)
    ensures Days(DateAt(p)) == 146097 * p.era + DayOfEra(p) - 719468
  {
    PlaceIsValid(p);
    DaysAreSum(DateAt(p));
    YearPieces(p.century, p.cycle, p.year);
    var y := 400 * p.era + YearOfEra(p);
    DivIs(y, 400, p.era, YearOfEra(p));
    EraSplit(y);
  }

  lemma DayFitsYear(p: Place)
    requires InPlace(p)
    ensures 0 <= DayOfYear(p) <= if LongYear(p) then 365 else 364
    ensures 0 <= DayOfEra(p) < 146097
  {
    MonthFound(p.mp, p.day);
  }

  lemma EraFound(era: int, doe: int)
    requires 0 <= doe < 146097
    ensures EraOf(146097 * era + doe) == era
  {
    var z := 146097 * era + doe;
    EraIsFloor(z, 146097);
    DivIs(z, 146097, era, doe);
  }

  lemma YearIsFound(c: int, q: int, r: int, doy: int)
    requires 0 <= c < 4 && 0 <= q < 25 && 0 <= r < 4
    requires 0 <= doy <= if r == 3 && (q < 24 || c == 3) then 365 else 364
    ensures YearOf(36524 * c + 1461 * q + 365 * r + doy) == 100 * c + 4 * q + r
  {
    var doe := 36524 * c + 1461 * q + 365 * r + doy;
    YearFound(c, q, r, doy);
    assert doe - doe / 1460 + doe / 36524 - doe / 146096 >= 0;
  }

  lemma FirstDayIs(c: int, q: int, r: int)
    requires 0 <= c < 4 && 0 <= q < 25 && 0 <= r < 4
    ensures FirstDay(100 * c + 4 * q + r) == 36524 * c + 1461 * q + 365 * r
  {
    YearPieces(c, q, r);
  }

  lemma MonthIsFound(y: int, mp: int, day: int)
    requires 0 <= mp <= 11 && 1 <= day <= 31
    requires mp != 11 ==> day <= MonthStart(mp + 1) - MonthStart(mp)
    requires mp == 11 ==> day <= 29
    ensures var m := if mp < 10 then mp + 3 else mp - 9;
      InYear(y, MonthStart(mp) + day - 1) == Date(if m <= 2 then y + 1 else y, m, day)
  {
    MonthFound(mp, day);
  }

  lemma FoundInYear(p: Place)
    requires InPlace(p)
    ensures InYear(YearOfEra(p) + p.era * 400, DayOfYear(p)) == DateAt(p)
  {
    MonthIsFound(YearOfEra(p) + p.era * 400, p.mp, p.day);
  }

  lemma FoundInEra(p: Place)
    requires InPlace(p)
    ensures InEra(p.era, DayOfEra(p)) == InYear(YearOfEra(p) + p.era * 400, DayOfYear(p))
  {
    YearOfPlace(p);
    EraIsYear(p.era, DayOfEra(p), YearOfEra(p), DayOfYear(p));
  }

  lemma EraIsYear(era: int, doe: int, yoe: int, doy: int)
    requires YearOf(doe) == yoe && doe - FirstDay(yoe) == doy
    ensures InEra(era, doe) == InYear(yoe + era * 400, doy)
  {
  }

  lemma YearOfPlace(p: Place)
    requires InPlace(p)
    ensures YearOf(DayOfEra(p)) == YearOfEra(p) && DayOfEra(p) - FirstDay(YearOfEra(p)) == DayOfYear(p)
  {
    DayFitsYear(p);
    YearIsFound(p.century, p.cycle, p.year, DayOfYear(p));
    FirstDayIs(p.century, p.cycle, p.year);
  }

  /** The code reads a day number back to the place it came from. */
  lemma PlaceFound(p: Place, days: int)
    requires InPlace(p) && days == 146097 * p.era + DayOfEra(p) - 719468
    ensures CivilFromDays(days) == DateAt(p)
  {
    DayFitsYear(p);
    SplitEra(p.era, DayOfEra(p), days);
    FoundDate(p);
  }

  lemma SplitEra(era: int, doe: int, days: int)
    requires 0 <= doe < 146097 && days == 146097 * era + doe - 719468
    ensures CivilFromDays(days) == InEra(era, doe)
  {
    EraFound(era, doe);
    assert days + 719468 - EraOf(days + 719468) * 146097 == doe;
  }

  lemma FoundDate(p: Place)
    requires InPlace(p)
    ensures InEra(p.era, DayOfEra(p)) == DateAt(p)
  {
    FoundInEra(p);
    FoundInYear(p);
  }

  /** Every valid date has a place. */
  lemma PlaceOf(date: Date) returns (p: Place)
    requires Valid(date)
    ensures InPlace(p) && DateAt(p) == date
  {
    var y := MarchYear(date);
    var yoe := y % 400;
    p := Place(y / 400, yoe / 100, yoe % 100 / 4, yoe % 4, MarchMonth(date), date.day);
    assert yoe == 100 * (yoe / 100) + yoe % 100;
    assert yoe % 100 == 4 * (yoe % 100 / 4) + yoe % 4;
    assert YearOfEra(p) == yoe;
    if date.month == 2 {
      PlaceLeap(p, date.year);
    } else {
      MonthsFollow(date);
    }
  }

  lemma PlaceLeap(p: Place, year: int)
    requires 0 <= p.century < 4 && 0 <= p.cycle < 25 && 0 <= p.year < 4
    requires year == 400 * p.era + YearOfEra(p) + 1
    ensures Leap(year) <==> LongYear(p)
  {
    LongMeansLeap(p.(mp := 0, day := 1));
  }

  /** Every day number has a place. */
  lemma PlaceAt(days: int) returns (p: Place)
    ensures InPlace(p) && days == 146097 * p.era + DayOfEra(p) - 719468
  {
    var z := days + 719468;
    var era, doe := z / 146097, z % 146097;
    var c := if doe == 146096 then 3 else doe / 36524;
    var s := doe - 36524 * c;
    var q := if s == 36524 then 24 else s / 1461;
    var t := s - 1461 * q;
    var r := if t == 1460 then 3 else t / 365;
    var doy := t - 365 * r;
    assert 0 <= doy <= 365;
    var mp, day := MonthIn(doy);
    p := Place(era, c, q, r, mp, day);
    assert doy == 365 ==> LongYear(p);
  }

  lemma MonthIn(doy: int) returns (mp: int, day: int)
    requires 0 <= doy <= 365
    ensures 0 <= mp <= 11 && 1 <= day && MonthStart(mp) + day - 1 == doy
    ensures day <= if mp == 11 then if doy == 365 then 29 else 28 else MonthStart(mp + 1) - MonthStart(mp)
  {
    mp := 0;
    while mp < 11 && MonthStart(mp + 1) <= doy
      invariant 0 <= mp <= 11 && MonthStart(mp) <= doy
    {
      mp := mp + 1;
    }
    day := doy - MonthStart(mp) + 1;
  }

  /** A valid date survives the trip to its day number and back. */
  lemma DateRoundTrip(date: Date)
    requires Valid(date)
    ensures CivilFromDays(Days(date)) == date
  {
    var p := PlaceOf(date);
    PlaceNumber(p);
    PlaceFound(p, Days(date));
  }

  /** Every day number, before the epoch or after, names a valid date that has that number. */
  lemma NumberRoundTrip(days: int)
    ensures Valid(CivilFromDays(days)) && Days(CivilFromDays(days)) == days
  {
    var p := PlaceAt(days);
    PlaceFound(p, days);
    NumberOf(p, CivilFromDays(days));
  }

  lemma NumberOf(p: Place, date: Date)
    requires InPlace(p) && date == DateAt(p)
    ensures Valid(date) && Days(date) == 146097 * p.era + DayOfEra(p) - 719468
  {
    PlaceNumber(p);
    PlaceIsValid(p);
  }
}
