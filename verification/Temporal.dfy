/** scheduleTemporalState and prod6QuotationWindow of apps/web/lib/procurementSchedule.ts.
    Lima keeps a fixed offset of -05:00; day bounds are compared as text. */
module Temporal {
  import opened Common
  import opened Calendar
  import opened DateText
  import opened Schedule

  /** A stage's bound as the parser left it. */
  datatype Bound = NoBound | OnDay(date: Civil) | AtInstant(t: int)

  datatype TemporalState = Past | Active | Upcoming | Unknown

  predicate BoundOk(b: Bound) { b.OnDay? ==> ValidDate(b.date) && FourDigits(b.date.year) }

  /** The day that holds the instant, five hours behind. */
  function LimaDay(now: int): (day: int)
    ensures day * 86_400_000 <= now - 5 * 3_600_000 < (day + 1) * 86_400_000
  {
    (now - 18_000_000) / 86_400_000
  }

  function LimaDate(now: int): (c: Civil)
    ensures ValidDate(c) && DayOf(c) == LimaDay(now)
  {
    CivilIsValid(LimaDay(now));
    CivilOf(LimaDay(now))
  }

  /** The calendar shows years before year 1 by era. */
  function EraYear(y: int): nat { if y >= 1 then y else 1 - y }

  /** The formatted parts of Lima's date: the year is not padded. */
  function Today(now: int): string {
    var c := LimaDate(now);
    Dec(EraYear(c.year)) + ("-" + (Pad(c.month, 2) + ("-" + Pad(c.day, 2))))
  }

  function Sign(n: int): int { if n < 0 then -1 else if n > 0 then 1 else 0 }

  function Compare(b: Bound, now: int): Option<int>
    requires BoundOk(b)
  {
    match b
    case NoBound => None
    case OnDay(c) => if Less(DateString(c), Today(now)) then Some(-1) else if Less(Today(now), DateString(c)) then Some(1) else None
    case AtInstant(t) => Some(Sign(t - now))
  }

  /** A day bound starts at its Lima midnight. */
  function BoundMs(b: Bound): int
    requires !b.NoBound?
  {
    if b.OnDay? then DayOf(b.date) * 86_400_000 + 18_000_000 else b.t
  }

  function TemporalStateOf(start: Bound, end: Bound, now: int): TemporalState
    requires BoundOk(start) && BoundOk(end)
  {
    if !start.NoBound? && !end.NoBound? && BoundMs(start) > BoundMs(end) then Unknown
    else
      var s, e := Compare(start, now), Compare(end, now);
      if e.Some? && e.value <= 0 then Past
      else if s.Some? && s.value > 0 then Upcoming
      else if s.Some? && s.value <= 0 && e.Some? && e.value > 0 then Active
      else Unknown
  }

  // ----- Text order and date order --------------------------------------------------------------

  function Tail(c: Civil): string
    requires ValidDate(c)
  {
    "-" + (Pad(c.month, 2) + ("-" + Pad(c.day, 2)))
  }

  lemma DecIsPad(n: nat)
    requires FourDigits(n)
    ensures Dec(n) == Pad(n, 4)
  {
    assert Dec(n / 1000) == ['0' + (n / 1000) as char];
    assert Pad(n / 1000, 1) == Pad(n / 1000 / 10, 0) + ['0' + (n / 1000 % 10) as char];
    assert n / 10 / 10 / 10 == n / 1000 && n / 10 / 10 == n / 100;
    assert Dec(n / 100) == Dec(n / 1000) + ['0' + (n / 100 % 10) as char] == Pad(n / 100, 2);
    assert Dec(n / 10) == Dec(n / 100) + ['0' + (n / 10 % 10) as char] == Pad(n / 10, 3);
  }

  lemma LessTail(a: Civil, b: Civil)
    requires ValidDate(a) && ValidDate(b)
    ensures Less(Tail(a), Tail(b)) <==> a.month < b.month || (a.month == b.month && a.day < b.day)
  {
    var p, q := Pad(a.month, 2), Pad(b.month, 2);
    var x, y := "-" + Pad(a.day, 2), "-" + Pad(b.day, 2);
    ShortFields(a);
    ShortFields(b);
    Powers();
    hide Pow10, Pad, ValidDate, Less;
    LessAfter("-", p + x, q + y);
    LessPad(a.month, b.month, 2);
    LessPad(a.day, b.day, 2);
    LessAfter("-", Pad(a.day, 2), Pad(b.day, 2));
    if a.month == b.month {
      LessAfter(p, x, y);
    } else {
      NumPad(a.month, 2);
      NumPad(b.month, 2);
      LessPrefix(p, q, x, y);
    }
  }

  /** Dates of four-digit years compare as text the way they compare as days. */
  lemma LessDate(a: Civil, b: Civil)
    requires ValidDate(a) && ValidDate(b) && FourDigits(a.year) && FourDigits(b.year)
    ensures Less(Pad(a.year, 4) + Tail(a), Pad(b.year, 4) + Tail(b)) <==> DayOf(a) < DayOf(b)
  {
    LessTail(a, b);
    CivilOrder(a, b);
    Powers();
    hide Pow10, Pad, ValidDate, Less, Tail, DayOf;
    LessPad(a.year, b.year, 4);
    if a.year == b.year {
      LessAfter(Pad(a.year, 4), Tail(a), Tail(b));
    } else {
      NumPad(a.year, 4);
      NumPad(b.year, 4);
      LessPrefix(Pad(a.year, 4), Pad(b.year, 4), Tail(a), Tail(b));
    }
  }

  /** The first four digits of a number of four or more. */
  function TopFour(n: nat): nat { if n <= 9999 then n else TopFour(n / 10) }

  lemma {:induction false} DecTop(n: nat) returns (rest: string)
    requires n >= 10_000
    ensures FourDigits(TopFour(n)) && rest != "" && IsDigit(rest[0]) && Dec(n) == Pad(TopFour(n), 4) + rest
  {
    var digit := ['0' + (n % 10) as char];
    if n / 10 <= 9999 {
      DecIsPad(n / 10);
      rest := digit;
    } else {
      var r := DecTop(n / 10);
      rest := r + digit;
      assert Dec(n) == (Pad(TopFour(n), 4) + r) + digit;
    }
  }

  predicate TextYear(y: int) { 1000 <= y && TopFour(y) <= 9999 && (y <= 9999 || TopFour(y) == 9999) }

  ghost predicate ComparesAsDates(now: int) {
    forall c: Civil :: ValidDate(c) && FourDigits(c.year) ==> AgreesOn(c, now)
  }

  predicate AgreesOn(c: Civil, now: int)
    requires ValidDate(c) && FourDigits(c.year)
  {
    && (Less(DateString(c), Today(now)) <==> DayOf(c) < LimaDay(now))
    && (Less(Today(now), DateString(c)) <==> LimaDay(now) < DayOf(c))
  }

  lemma AgreesInFourDigits(c: Civil, now: int)
    requires ValidDate(c) && FourDigits(c.year) && FourDigits(LimaDate(now).year)
    ensures AgreesOn(c, now)
  {
    var d := LimaDate(now);
    DecIsPad(d.year);
    LessDate(c, d);
    LessDate(d, c);
  }

  lemma LaterYear(c: Civil, now: int)
    requires ValidDate(c) && FourDigits(c.year) && LimaDate(now).year >= 10_000
    ensures DayOf(c) < LimaDay(now)
  {
    CivilOrder(c, LimaDate(now));
  }

  /** Past year 9999 the text of a date is compared with the first four digits of the year. */
  lemma LessLate(c: Civil, now: int)
    requires ValidDate(c) && FourDigits(c.year) && LimaDate(now).year >= 10_000
    ensures Less(DateString(c), Today(now)) <==> c.year <= TopFour(LimaDate(now).year)
    ensures Less(Today(now), DateString(c)) <==> c.year > TopFour(LimaDate(now).year)
  {
    var d := LimaDate(now);
    var rest := DecTop(d.year);
    var top := TopFour(d.year);
    var a, b := Pad(c.year, 4), Pad(top, 4);
    Powers();
    assert Today(now) == b + (rest + Tail(d)) && DateString(c) == a + Tail(c);
    LessPad(c.year, top, 4);
    LessPad(top, c.year, 4);
    assert Tail(c)[0] == '-' && (rest + Tail(d))[0] == rest[0];
    if c.year == top {
      LessAfter(a, Tail(c), rest + Tail(d));
      LessAfter(a, rest + Tail(d), Tail(c));
    } else {
      NumPad(c.year, 4);
      NumPad(top, 4);
      LessPrefix(a, b, Tail(c), rest + Tail(d));
      LessPrefix(b, a, rest + Tail(d), Tail(c));
    }
  }

  /** From year 1000 on, day bounds are compared as dates exactly while the Lima year has
      four digits, or starts with 9999. */
  lemma ComparesExactly(now: int)
    requires LimaDate(now).year >= 1000
    ensures ComparesAsDates(now) <==> TextYear(LimaDate(now).year)
  {
    var y := LimaDate(now).year;
    if y <= 9999 {
      forall c: Civil | ValidDate(c) && FourDigits(c.year) ensures AgreesOn(c, now) { AgreesInFourDigits(c, now); }
    } else if TopFour(y) == 9999 {
      forall c: Civil | ValidDate(c) && FourDigits(c.year) ensures AgreesOn(c, now) { LessLate(c, now); LaterYear(c, now); }
    } else {
      var rest := DecTop(y);
      var last := Civil(9999, 12, 31);
      assert ValidDate(last);
      LessLate(last, now);
      LaterYear(last, now);
      assert !AgreesOn(last, now);
    }
  }

  // ----- Time moves one way ---------------------------------------------------------------------

  lemma LimaDayGrows(a: int, b: int)
    requires a <= b
    ensures LimaDay(a) <= LimaDay(b)
  {
  }

  /** A bound that has been reached stays reached; one still ahead was ahead before. */
  lemma CompareFalls(b: Bound, earlier: int, later: int)
    requires BoundOk(b) && earlier <= later && ComparesAsDates(earlier) && ComparesAsDates(later)
    ensures Compare(b, earlier).Some? && Compare(b, earlier).value <= 0 ==> Compare(b, later).Some? && Compare(b, later).value <= 0
    ensures Compare(b, later).Some? && Compare(b, later).value > 0 ==> Compare(b, earlier).Some? && Compare(b, earlier).value > 0
  {
    if b.OnDay? {
      LimaDayGrows(earlier, later);
      assert AgreesOn(b.date, earlier) && AgreesOn(b.date, later);
    }
  }

  /** What the two comparisons at one time say. */
  function StateFrom(reversed: bool, s: Option<int>, e: Option<int>): TemporalState {
    if reversed then Unknown
    else if e.Some? && e.value <= 0 then Past
    else if s.Some? && s.value > 0 then Upcoming
    else if s.Some? && s.value <= 0 && e.Some? && e.value > 0 then Active
    else Unknown
  }

  predicate Reversed(start: Bound, end: Bound) {
    !start.NoBound? && !end.NoBound? && BoundMs(start) > BoundMs(end)
  }

  lemma StateIsFrom(start: Bound, end: Bound, now: int)
    requires BoundOk(start) && BoundOk(end)
    ensures TemporalStateOf(start, end, now) == StateFrom(Reversed(start, end), Compare(start, now), Compare(end, now))
  {
    hide Compare, BoundMs;
  }

  /** For every mix of precisions: past stays past, what is upcoming was upcoming at every
      earlier time, and a stage never becomes active again. */
  lemma TimeMovesOneWay(start: Bound, end: Bound, a: int, b: int, c: int)
    requires BoundOk(start) && BoundOk(end) && a <= b <= c
    requires TextYear(LimaDate(a).year) && TextYear(LimaDate(b).year) && TextYear(LimaDate(c).year)
    ensures TemporalStateOf(start, end, a) == Past ==> TemporalStateOf(start, end, b) == Past
    ensures TemporalStateOf(start, end, b) == Upcoming ==> TemporalStateOf(start, end, a) == Upcoming
    ensures TemporalStateOf(start, end, a) == Active && TemporalStateOf(start, end, c) == Active ==>
              TemporalStateOf(start, end, b) == Active
    ensures TemporalStateOf(start, end, a) == Active ==> TemporalStateOf(start, end, b) != Upcoming
  {
    hide Compare, ComparesAsDates, TemporalStateOf, BoundOk, Reversed;
    ComparesExactly(a);
    ComparesExactly(b);
    ComparesExactly(c);
    StateIsFrom(start, end, a);
    StateIsFrom(start, end, b);
    StateIsFrom(start, end, c);
    CompareFalls(start, a, b);
    CompareFalls(start, b, c);
    CompareFalls(end, a, b);
    CompareFalls(end, b, c);
  }

  /** The bound lies behind: a day that is over, an instant that has come. */
  predicate Behind(b: Bound, now: int) {
    match b
    case NoBound => false
    case OnDay(c) => DayOf(c) < LimaDay(now)
    case AtInstant(t) => t <= now
  }

  /** The bound lies ahead: a day that has not begun, a later instant. */
  predicate Ahead(b: Bound, now: int) {
    match b
    case NoBound => false
    case OnDay(c) => LimaDay(now) < DayOf(c)
    case AtInstant(t) => now < t
  }

  /** The end comes before the start, a day taken from its midnight five hours behind. */
  predicate Backwards(start: Bound, end: Bound) {
    match (start, end)
    case (OnDay(c), OnDay(d)) => DayOf(d) < DayOf(c)
    case (OnDay(c), AtInstant(t)) => t < DayOf(c) * 86_400_000 + 5 * 3_600_000
    case (AtInstant(t), OnDay(d)) => DayOf(d) * 86_400_000 + 5 * 3_600_000 < t
    case (AtInstant(t), AtInstant(u)) => u < t
    case _ => false
  }

  lemma CompareIs(b: Bound, now: int)
    requires BoundOk(b) && TextYear(LimaDate(now).year)
    ensures Compare(b, now).Some? && Compare(b, now).value <= 0 <==> Behind(b, now)
    ensures Compare(b, now).Some? && Compare(b, now).value > 0 <==> Ahead(b, now)
  {
    ComparesExactly(now);
    hide Less, DateString, Today, DayOf, ValidDate, LimaDay, LimaDate;
    if b.OnDay? { assert AgreesOn(b.date, now); }
  }

  lemma BackwardsIs(start: Bound, end: Bound)
    ensures Backwards(start, end) <==> Reversed(start, end)
  {
    hide DayOf, ValidDate;
  }

  /** The state by days and instants.  A day bound says nothing on its own day. */
  lemma StateExactly(start: Bound, end: Bound, now: int)
    requires BoundOk(start) && BoundOk(end) && TextYear(LimaDate(now).year)
    ensures TemporalStateOf(start, end, now) == Past <==> !Backwards(start, end) && Behind(end, now)
    ensures TemporalStateOf(start, end, now) == Upcoming <==> !Backwards(start, end) && !Behind(end, now) && Ahead(start, now)
    ensures TemporalStateOf(start, end, now) == Active <==> !Backwards(start, end) && Behind(start, now) && Ahead(end, now)
  {
    hide Compare, Reversed, Behind, Ahead, Backwards, TemporalStateOf, BoundOk;
    StateIsFrom(start, end, now);
    BackwardsIs(start, end);
    CompareIs(start, now);
    CompareIs(end, now);
  }

  /** Lima midnight of a date. */
  function Midnight(c: Civil): int { DayOf(c) * 86_400_000 + 18_000_000 }

  lemma MidnightDate(c: Civil)
    requires ValidDate(c)
    ensures LimaDay(Midnight(c)) == DayOf(c) && LimaDate(Midnight(c)) == c
  {
    CivilRoundTrip(c);
  }

  lemma RealDates()
    ensures ValidDate(Civil(2026, 10, 1)) && ValidDate(Civil(2026, 10, 2)) && ValidDate(Civil(10_000, 1, 1))
    ensures TopFour(10_000) == 1000
  {
  }

  /** A later time whose Lima year is 10000 can undo "past". */
  lemma YearTenThousand() returns (end: Bound, earlier: int, later: int)
    ensures BoundOk(end) && earlier < later
    ensures TemporalStateOf(NoBound, end, earlier) == Past && TemporalStateOf(NoBound, end, later) != Past
    ensures LimaDate(later) == Civil(10_000, 1, 1)
  {
    var c, next, far := Civil(2026, 10, 1), Civil(2026, 10, 2), Civil(10_000, 1, 1);
    hide ValidDate, DayOf, LimaDate, DateString, Today, Less, TopFour, LimaDay;
    RealDates();
    CivilOrder(c, next);
    CivilOrder(next, far);
    MidnightDate(next);
    MidnightDate(far);
    end, earlier, later := OnDay(c), Midnight(next), Midnight(far);
    AgreesInFourDigits(c, earlier);
    LessLate(c, later);
  }

  // ----- The quotation window ---------------------------------------------------------------------

  /** A source stage: whether it is the quotation one, and its two texts. */
  datatype SourceStage = SourceStage(isQuotation: bool, from: string, to: string)

  function FirstQuotation(stages: seq<SourceStage>): Option<SourceStage> {
    if stages == [] then None else if stages[0].isQuotation then Some(stages[0]) else FirstQuotation(stages[1..])
  }

  function InstantOnly(text: string): Option<string> {
    match Parse(text, "")
    case Some(p) => if p.precision == Day then None else Some(p.value)
    case None => None
  }

  /** prod6QuotationWindow. */
  function QuotationWindow(stages: seq<SourceStage>): (Option<string>, Option<string>) {
    match FirstQuotation(stages)
    case None => (None, None)
    case Some(stage) => (InstantOnly(stage.from), InstantOnly(stage.to))
  }

  /** The window is that of the first quotation stage: each side is the side of that stage,
      when it carries a time. */
  lemma {:induction false} WindowExactly(stages: seq<SourceStage>, i: nat)
    requires i <= |stages| && forall j :: 0 <= j < i ==> !stages[j].isQuotation
    requires i < |stages| ==> stages[i].isQuotation
    ensures i == |stages| ==> QuotationWindow(stages) == (None, None)
    ensures i < |stages| ==>
              && (QuotationWindow(stages).0.Some? <==> Parse(stages[i].from, "").Some? && !Parse(stages[i].from, "").value.precision.Day?)
              && (QuotationWindow(stages).1.Some? <==> Parse(stages[i].to, "").Some? && !Parse(stages[i].to, "").value.precision.Day?)
              && (QuotationWindow(stages).0.Some? ==> QuotationWindow(stages).0.value == Parse(stages[i].from, "").value.value)
              && (QuotationWindow(stages).1.Some? ==> QuotationWindow(stages).1.value == Parse(stages[i].to, "").value.value)
  {
    hide Parse;
    if i > 0 { WindowExactly(stages[1..], i - 1); }
  }

  /** A window bound is always the text of an instant; a date without a time never is one. */
  lemma WindowHoldsInstants(stages: seq<SourceStage>)
    ensures QuotationWindow(stages).0.Some? ==> exists t :: QuotationWindow(stages).0.value == Iso(t)
    ensures QuotationWindow(stages).1.Some? ==> exists t :: QuotationWindow(stages).1.value == Iso(t)
  {
  }
}
