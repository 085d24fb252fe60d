/** Day numbers and civil dates as section 21.4.1 of ECMA-262 defines them for `Date`. */
module Calendar {

  predicate Leap(y: int) { y % 4 == 0 && (y % 100 != 0 || y % 400 == 0) }

  function YearDays(y: int): int { if Leap(y) then 366 else 365 }

  /** DayFromYear. */
  function DayFromYear(y: int): int {
    365 * (y - 1970) + (y - 1969) / 4 - (y - 1901) / 100 + (y - 1601) / 400
  }

  lemma NextYear(y: int)
    ensures DayFromYear(y + 1) == DayFromYear(y) + YearDays(y)
  {
    Floor(y - 1969, 4);
    Floor(y - 1901, 100);
    Floor(y - 1601, 400);
  }

  lemma Floor(n: int, k: int)
    requires k > 0
    ensures (n + 1) / k == n / k + if (n + 1) % k == 0 then 1 else 0
  {
    var q := n / k;
    assert n == k * q + n % k;
    if n % k == k - 1 {
      assert n + 1 == k * (q + 1);
      Quotient(n + 1, k, q + 1, 0);
    } else {
      Quotient(n + 1, k, q, n % k + 1);
    }
  }

  lemma Quotient(n: int, k: int, q: int, r: int)
    requires n == k * q + r && 0 <= r < k
    ensures n / k == q && n % k == r
  {
    var d := n / k - q;
    assert d >= 1 ==> k * d >= k;
    assert d <= -1 ==> k * d <= -k;
    assert k * d + n % k - r == 0;
  }

  lemma {:induction false} YearsAscend(a: int, b: int)
    requires a <= b
    ensures DayFromYear(b) >= DayFromYear(a) + 365 * (b - a)
    decreases b - a
  {
    if a < b {
      YearsAscend(a, b - 1);
      NextYear(b - 1);
    }
  }

  /** YearFromTime: the year that contains a day, searched for from `y`. */
  function YearFrom(day: int, y: int): (r: int)
    ensures DayFromYear(r) <= day < DayFromYear(r + 1)
    decreases if DayFromYear(y) > day then DayFromYear(y) - day
              else if DayFromYear(y + 1) <= day then day - DayFromYear(y + 1) + 1 else 0
  {
    hide DayFromYear;
    NextYear(y - 1); NextYear(y); NextYear(y + 1);
    if DayFromYear(y) > day then YearFrom(day, y - 1)
    else if DayFromYear(y + 1) <= day then YearFrom(day, y + 1)
    else y
  }

  lemma OneYear(day: int, a: int, b: int)
    requires DayFromYear(a) <= day < DayFromYear(a + 1) && DayFromYear(b) <= day < DayFromYear(b + 1)
    ensures a == b
  {
  }

  /** Days of the year before the month numbered `m0` from zero. */
  function MonthStart(leap: bool, m0: int): int
    requires 0 <= m0 <= 12
  {
    var common := [0, 31, 59, 90, 120, 151, 181, 212, 243, 273, 304, 334, 365][m0];
    if leap && m0 >= 2 then common + 1 else common
  }

  function MonthFrom(leap: bool, inYear: int, m0: int): (r: int)
    requires 0 <= m0 < 12 && MonthStart(leap, m0) <= inYear < MonthStart(leap, 12)
    ensures m0 <= r < 12 && MonthStart(leap, r) <= inYear < MonthStart(leap, r + 1)
    decreases 12 - m0
  {
    if inYear < MonthStart(leap, m0 + 1) then m0 else MonthFrom(leap, inYear, m0 + 1)
  }

  datatype Civil = Civil(year: int, month: int, day: int)

  /** MakeDay: month and day may be out of range; the month carries into the year. */
  function MakeDay(year: int, m0: int, day: int): int {
    var y := year + m0 / 12;
    DayFromYear(y) + MonthStart(Leap(y), m0 % 12) + day - 1
  }

  /** YearFromTime, MonthFromTime and DateFromTime of one day. */
  function CivilOf(day: int): Civil {
    var y := YearFrom(day, 1970);
    NextYear(y);
    var inYear := day - DayFromYear(y);
    var m0 := MonthFrom(Leap(y), inYear, 0);
    Civil(y, m0 + 1, inYear - MonthStart(Leap(y), m0) + 1)
  }

  predicate ValidDate(c: Civil) {
    1 <= c.month <= 12 && 1 <= c.day <= MonthStart(Leap(c.year), c.month) - MonthStart(Leap(c.year), c.month - 1)
  }

  function DayOf(c: Civil): int { MakeDay(c.year, c.month - 1, c.day) }

  /** A day number is the day number of its civil date, which is a real date. */
  lemma CivilIsValid(day: int)
    ensures ValidDate(CivilOf(day)) && DayOf(CivilOf(day)) == day
  {
    var c := CivilOf(day);
    assert (c.month - 1) / 12 == 0 && (c.month - 1) % 12 == c.month - 1;
  }

  lemma {:induction false} MonthsAscend(leap: bool, a: int, b: int)
    requires 0 <= a <= b <= 12
    ensures MonthStart(leap, a) <= MonthStart(leap, b)
    decreases b - a
  {
  }

  lemma DayOfValue(c: Civil)
    requires 1 <= c.month <= 12
    ensures DayOf(c) == DayFromYear(c.year) + MonthStart(Leap(c.year), c.month - 1) + c.day - 1
  {
  }

  /** A real date lies in its year and month. */
  lemma InItsYear(c: Civil)
    requires ValidDate(c)
    ensures DayFromYear(c.year) <= DayOf(c) < DayFromYear(c.year + 1)
    ensures MonthStart(Leap(c.year), c.month - 1) <= DayOf(c) - DayFromYear(c.year) < MonthStart(Leap(c.year), c.month)
  {
    DayOfValue(c);
    MonthsAscend(Leap(c.year), c.month, 12);
    MonthsAscend(Leap(c.year), 0, c.month - 1);
    NextYear(c.year);
    hide DayFromYear;
  }

  lemma OneMonth(leap: bool, n: int, a: int, b: int)
    requires 1 <= a <= 12 && 1 <= b <= 12
    requires MonthStart(leap, a - 1) <= n < MonthStart(leap, a) && MonthStart(leap, b - 1) <= n < MonthStart(leap, b)
    ensures a == b
  {
  }

  /** The civil date of a real date's day number is that date. */
  lemma CivilRoundTrip(c: Civil)
    requires ValidDate(c)
    ensures CivilOf(DayOf(c)) == c
  {
    var r := CivilOf(DayOf(c));
    CivilIsValid(DayOf(c));
    hide CivilOf, DayFromYear, MonthStart, Leap;
    InItsYear(c);
    InItsYear(r);
    OneYear(DayOf(c), c.year, r.year);
    OneMonth(Leap(c.year), DayOf(c) - DayFromYear(c.year), c.month, r.month);
    DayOfValue(c);
    DayOfValue(r);
  }

  /** Building a Date and reading it back gives the same numbers exactly for real dates:
      the calendar test of the parser. */
  lemma CalendarTest(year: int, month: int, day: int)
    ensures CivilOf(MakeDay(year, month - 1, day)) == Civil(year, month, day) <==> ValidDate(Civil(year, month, day))
  {
    var n := MakeDay(year, month - 1, day);
    hide CivilOf, MakeDay, ValidDate;
    CivilIsValid(n);
    if ValidDate(Civil(year, month, day)) { CivilRoundTrip(Civil(year, month, day)); }
  }

  /** Real dates: the lengths of the months, with the leap years of the Gregorian calendar. */
  lemma MonthLengths(c: Civil)
    ensures ValidDate(c) <==>
              && 1 <= c.month <= 12 && 1 <= c.day
              && c.day <= (if c.month in {4, 6, 9, 11} then 30
                           else if c.month != 2 then 31
                           else if c.year % 4 == 0 && (c.year % 100 != 0 || c.year % 400 == 0) then 29 else 28)
  {
  }

  /** Twelve months more are the same month of the next year. */
  lemma MonthsCarry(year: int, month0: int, date: int)
    ensures MakeDay(year, month0 + 12, date) == MakeDay(year + 1, month0, date)
  {
    hide DayFromYear;
  }

  /** Days are counted from the first of January 1970. */
  lemma Epoch(c: Civil)
    requires c.year == 1970 && c.month == 1 && c.day == 1
    ensures DayOf(c) == 0
  {
    DayOfValue(c);
    FirstYear(c.year);
    hide DayOf, DayFromYear;
  }

  lemma FirstYear(y: int)
    requires y == 1970
    ensures DayFromYear(y) == 0
  {
  }

  predicate Earlier(a: Civil, b: Civil) {
    a.year < b.year || (a.year == b.year && (a.month < b.month || (a.month == b.month && a.day < b.day)))
  }

  /** Civil order is day order. */
  lemma CivilOrder(a: Civil, b: Civil)
    requires ValidDate(a) && ValidDate(b)
    ensures Earlier(a, b) <==> DayOf(a) < DayOf(b)
  {
    if Earlier(a, b) { EarlierIsLess(a, b); }
    else if a != b { assert Earlier(b, a); EarlierIsLess(b, a); }
  }

  lemma EarlierIsLess(a: Civil, b: Civil)
    requires ValidDate(a) && ValidDate(b) && Earlier(a, b)
    ensures DayOf(a) < DayOf(b)
  {
    hide DayFromYear, MonthStart, Leap;
    InItsYear(a);
    InItsYear(b);
    DayOfValue(a);
    DayOfValue(b);
    if a.year < b.year { YearsAscend(a.year + 1, b.year); }
    else if a.month < b.month { MonthsAscend(Leap(a.year), a.month, b.month - 1); }
  }
}
