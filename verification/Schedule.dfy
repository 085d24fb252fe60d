/** Official schedule dates of apps/web/lib/procurementSchedule.ts: strict parsing to a day
    or a UTC instant, in text. */
module Schedule {
  import opened Common
  import opened Calendar
  import opened DateText

  datatype Precision = Day | Minute | Second

  datatype Parsed = Parsed(value: string, precision: Precision)

  const LIMA := -300

  /** String(year).padStart(4, "0") with its month and day; years have four digits here. */
  function DateString(c: Civil): string
    requires 0 <= c.year && 0 <= c.month && 0 <= c.day
  {
    Pad(c.year, 4) + ("-" + (Pad(c.month, 2) + ("-" + Pad(c.day, 2))))
  }

  /** Date.UTC takes years 0 to 99 as 1900 to 1999. */
  function UtcYear(year: int): int { if 0 <= year <= 99 then 1900 + year else year }

  /** The clock parts of a day's milliseconds. */
  datatype Clock = Clock(hour: nat, minute: nat, second: nat, ms: nat)

  predicate ClockOk(k: Clock) { k.hour <= 23 && k.minute <= 59 && k.second <= 59 && k.ms <= 999 }

  function ClockMs(k: Clock): int { ((k.hour * 60 + k.minute) * 60 + k.second) * 1000 + k.ms }

  function ClockOf(ms: int): (k: Clock)
    requires 0 <= ms < 86_400_000
    ensures ClockOk(k) && ClockMs(k) == ms
  {
    var seconds := ms / 1000;
    var minutes := seconds / 60;
    Clock(minutes / 60, minutes % 60, seconds % 60, ms % 1000)
  }

  function YearText(y: int): string {
    if 0 <= y <= 9999 then Pad(y, 4) else if y > 9999 then "+" + Pad(y, 6) else "-" + Pad(-y, 6)
  }

  function ClockText(k: Clock): string {
    "T" + (Pad(k.hour, 2) + (":" + (Pad(k.minute, 2) + ((":" + (Pad(k.second, 2) + ("." + Pad(k.ms, 3)))) + "Z"))))
  }

  /** toISOString. */
  function Iso(t: int): string {
    var c := CivilOf(t / 86_400_000);
    CivilIsValid(t / 86_400_000);
    var rest := YearText(c.year) + ("-" + (Pad(c.month, 2) + ("-" + Pad(c.day, 2))));
    rest + ClockText(ClockOf(t % 86_400_000))
  }

  /** Minutes of an accepted offset: at most fourteen hours either way. */
  function OffsetMinutes(z: Zone): (r: Option<int>)
    requires ZoneOk(z)
    ensures r.Some? ==> -840 <= r.value <= 840
  {
    match z
    case NoZone => Some(LIMA)
    case Zulu => Some(0)
    case Offset(plus, h, mi, _) =>
      var hours, minutes := Num(h), Num(mi);
      if hours > 14 || minutes > 59 || (hours == 14 && minutes != 0) then None
      else Some((if plus then 1 else -1) * (hours * 60 + minutes))
  }

  /** The fraction padded to milliseconds. */
  function Milliseconds(frac: string): (r: nat)
    requires Digits(frac, |frac|) && |frac| <= 3
    ensures r <= 999
  {
    PadNum(frac);
    assert Pow10(0) == 1 && Pow10(1) == 10 && Pow10(2) == 100 && Pow10(3) == 1000;
    match |frac|
    case 0 => 0
    case 1 => Num(frac) * 100
    case 2 => Num(frac) * 10
    case _ => Num(frac)
  }

  datatype Moment = Moment(hour: nat, minute: nat, second: Option<nat>, ms: nat, offset: Option<int>)

  function MomentOf(t: Time): Moment
    requires t.Time? && TimeOk(t)
  {
    Moment(Num(t.h), Num(t.mi), if t.sec.Sec? then Some(Num(t.sec.s)) else None,
           if t.sec.Sec? then Milliseconds(t.sec.frac) else 0, OffsetMinutes(t.zone))
  }

  /** A separate official hour: hh:mm or hh:mm:ss, in Lima. */
  function SeparateMoment(s: string): Option<Moment> {
    if |s| == 5 && Digits(s[..2], 2) && s[2] == ':' && Digits(s[3..], 2) then
      Some(Moment(Num(s[..2]), Num(s[3..]), None, 0, Some(LIMA)))
    else if |s| == 8 && Digits(s[..2], 2) && s[2] == ':' && Digits(s[3..5], 2) && s[5] == ':' && Digits(s[6..], 2) then
      Some(Moment(Num(s[..2]), Num(s[3..5]), Some(Num(s[6..])), 0, Some(LIMA)))
    else None
  }

  function Seconds(m: Moment): nat { if m.second.Some? then m.second.value else 0 }

  function At(c: Civil, m: Moment): Option<Parsed> {
    if m.hour > 23 || m.minute > 59 || Seconds(m) > 59 || m.offset.None? then None
    else
      var t := DayOf(c) * 86_400_000 + ClockMs(Clock(m.hour, m.minute, Seconds(m), m.ms)) - m.offset.value * 60_000;
      Some(Parsed(Iso(t), if m.second.None? then Minute else Second))
  }

  function DateOf(p: Parts): Civil
    requires PartsOk(p)
  {
    Civil(Num(p.y), Num(p.m), Num(p.d))
  }

  /** The calendar test and the time, once the text is taken apart. */
  function ParseScanned(p: Parts, hour: string): Option<Parsed>
    requires PartsOk(p)
  {
    var c := DateOf(p);
    if c.year < 1000 || CivilOf(MakeDay(UtcYear(c.year), c.month - 1, c.day)) != c then None
    else
      var moment := SeparateMoment(hour);
      if hour != "" && moment.None? then None
      else if p.time.NoTime? && moment.None? then Some(Parsed(DateString(c), Day))
      else At(c, if moment.Some? then moment.value else MomentOf(p.time))
  }

  /** parseOfficialScheduleDate; a missing or non-text argument is the empty text. */
  function Parse(value: string, separate: string): Option<Parsed> {
    var input := Trim(value);
    if input == "" then None
    else match Scan(input)
      case None => None
      case Some(p) => ScanIsExact(input, p); ParseScanned(p, Trim(separate))
  }

  // ----- Writing an instant at an offset ------------------------------------------------------

  /** How a source may write an offset. */
  datatype Style = Utc | Local | Signed(colon: bool)

  predicate StyleFits(style: Style, minutes: int) {
    && -840 <= minutes <= 840
    && (style == Utc ==> minutes == 0) && (style == Local ==> minutes == LIMA)
  }

  function Abs(n: int): nat { if n < 0 then -n else n }

  function ZoneFor(style: Style, minutes: int): Zone
    requires StyleFits(style, minutes)
  {
    match style
    case Utc => Zulu
    case Local => NoZone
    case Signed(colon) => Offset(minutes >= 0, Pad(Abs(minutes) / 60, 2), Pad(Abs(minutes) % 60, 2), colon)
  }

  function LocalDate(t: int, minutes: int): Civil { CivilOf((t + minutes * 60_000) / 86_400_000) }

  predicate FourDigits(year: int) { 1000 <= year <= 9999 }

  /** The instant t as local text with milliseconds. */
  function PartsAt(t: int, minutes: int, style: Style, sep: char, slashed: bool): (p: Parts)
    requires StyleFits(style, minutes) && (sep == 'T' || sep == ' ') && FourDigits(LocalDate(t, minutes).year)
    ensures PartsOk(p)
  {
    var local := t + minutes * 60_000;
    var c, k := LocalDate(t, minutes), ClockOf(local % 86_400_000);
    CivilIsValid(local / 86_400_000);
    Parts(slashed, Pad(c.year, 4), Pad(c.month, 2), Pad(c.day, 2),
          Time(sep, Pad(k.hour, 2), Pad(k.minute, 2), Sec(Pad(k.second, 2), Pad(k.ms, 3)), ZoneFor(style, minutes)))
  }

  // ----- What parsing does to it ----------------------------------------------------------------

  lemma Powers()
    ensures Pow10(2) == 100 && Pow10(3) == 1000 && Pow10(4) == 10_000 && Pow10(6) == 1_000_000
  {
  }

  lemma ZoneMinutes(style: Style, minutes: int)
    requires StyleFits(style, minutes)
    ensures OffsetMinutes(ZoneFor(style, minutes)) == Some(minutes)
  {
    hide Pow10, Pad, Num;
    Powers();
    var a := Abs(minutes);
    assert a / 60 <= 14 && a % 60 <= 59 && a == a / 60 * 60 + a % 60;
    NumPad(a / 60, 2);
    NumPad(a % 60, 2);
  }

  lemma MillisecondsBack(ms: nat)
    requires ms <= 999
    ensures Milliseconds(Pad(ms, 3)) == ms
  {
    hide Pow10, Pad, Num;
    Powers();
    NumPad(ms, 3);
  }

  lemma MomentAt(t: int, minutes: int, style: Style, sep: char, slashed: bool)
    requires StyleFits(style, minutes) && (sep == 'T' || sep == ' ') && FourDigits(LocalDate(t, minutes).year)
    ensures
      var k := ClockOf((t + minutes * 60_000) % 86_400_000);
      MomentOf(PartsAt(t, minutes, style, sep, slashed).time) == Moment(k.hour, k.minute, Some(k.second), k.ms, Some(minutes))
  {
    var k := ClockOf((t + minutes * 60_000) % 86_400_000);
    hide Pow10, Pad, Num, ClockOf, CivilOf, ZoneFor, OffsetMinutes, Milliseconds;
    Powers();
    NumPad(k.hour, 2);
    NumPad(k.minute, 2);
    NumPad(k.second, 2);
    MillisecondsBack(k.ms);
    ZoneMinutes(style, minutes);
  }

  lemma ShortFields(c: Civil)
    requires ValidDate(c)
    ensures 1 <= c.month <= 12 && 1 <= c.day <= 31
  {
  }

  lemma DateAt(t: int, minutes: int, style: Style, sep: char, slashed: bool)
    requires StyleFits(style, minutes) && (sep == 'T' || sep == ' ') && FourDigits(LocalDate(t, minutes).year)
    ensures DateOf(PartsAt(t, minutes, style, sep, slashed)) == LocalDate(t, minutes)
  {
    hide Pow10, Pad, Num;
    Powers();
    var c := LocalDate(t, minutes);
    CivilIsValid((t + minutes * 60_000) / 86_400_000);
    ShortFields(c);
    hide CivilOf, ZoneFor, ClockOf, ValidDate, DayOf;
    NumPad(c.year, 4);
    NumPad(c.month, 2);
    NumPad(c.day, 2);
  }

  lemma ParseShownWith(p: Parts, separate: string)
    requires PartsOk(p) && Trim(separate) == separate
    ensures Parse(Show(p), separate) == ParseScanned(p, separate)
  {
    ShowIsTrimmed(p);
    ScanShow(p);
    hide Scan, Show, Trim, ParseScanned;
  }

  lemma ParseShown(p: Parts)
    requires PartsOk(p)
    ensures Parse(Show(p), "") == ParseScanned(p, "")
  {
    NothingSeparate();
    ParseShownWith(p, "");
  }

  lemma CalendarPasses(c: Civil)
    requires c.year >= 1000 && ValidDate(c)
    ensures CivilOf(MakeDay(UtcYear(c.year), c.month - 1, c.day)) == c
  {
    CivilRoundTrip(c);
  }

  lemma ParseParts(p: Parts, c: Civil, m: Moment)
    requires PartsOk(p) && p.time.Time? && DateOf(p) == c && MomentOf(p.time) == m
    requires c.year >= 1000 && ValidDate(c)
    ensures Parse(Show(p), "") == At(c, m)
  {
    ParseShown(p);
    CalendarPasses(c);
    NothingSeparate();
    hide Show, CivilOf, MomentOf, DateOf, MakeDay, At, SeparateMoment, ValidDate, UtcYear, PartsOk;
  }

  lemma NothingSeparate()
    ensures Trim("") == "" && SeparateMoment("").None?
  {
  }

  lemma AtInstant(c: Civil, k: Clock, minutes: int, t: int)
    requires ClockOk(k) && DayOf(c) * 86_400_000 + ClockMs(k) == t + minutes * 60_000
    ensures At(c, Moment(k.hour, k.minute, Some(k.second), k.ms, Some(minutes))) == Some(Parsed(Iso(t), Second))
  {
    hide Iso, DayOf, ClockMs;
    assert Clock(k.hour, k.minute, k.second, k.ms) == k;
  }

  lemma AtLocal(t: int, minutes: int)
    ensures
      var k := ClockOf((t + minutes * 60_000) % 86_400_000);
      At(LocalDate(t, minutes), Moment(k.hour, k.minute, Some(k.second), k.ms, Some(minutes))) == Some(Parsed(Iso(t), Second))
  {
    hide CivilOf, Iso, DayOf, ClockMs, ClockOf, At, ValidDate;
    var local := t + minutes * 60_000;
    CivilIsValid(local / 86_400_000);
    AtInstant(LocalDate(t, minutes), ClockOf(local % 86_400_000), minutes, t);
  }

  /** An instant written at any accepted offset, in any accepted style, parses to the one
      UTC text of that instant. */
  lemma OffsetsAgree(t: int, minutes: int, style: Style, sep: char, slashed: bool)
    requires StyleFits(style, minutes) && (sep == 'T' || sep == ' ') && FourDigits(LocalDate(t, minutes).year)
    ensures Parse(Show(PartsAt(t, minutes, style, sep, slashed)), "") == Some(Parsed(Iso(t), Second))
  {
    DateAt(t, minutes, style, sep, slashed);
    MomentAt(t, minutes, style, sep, slashed);
    CivilIsValid((t + minutes * 60_000) / 86_400_000);
    AtLocal(t, minutes);
    var p := PartsAt(t, minutes, style, sep, slashed);
    assert p.time.Time?;
    hide PartsAt, CivilOf, Show, Parse, MomentOf, DateOf, At, ClockOf, Iso;
    ParseParts(p, DateOf(p), MomentOf(p.time));
  }

  predicate IsoYearFits(t: int) { FourDigits(CivilOf(t / 86_400_000).year) }

  lemma IsoIsWritten(t: int)
    requires IsoYearFits(t)
    ensures StyleFits(Utc, 0) && LocalDate(t, 0) == CivilOf(t / 86_400_000)
    ensures Show(PartsAt(t, 0, Utc, 'T', false)) == Iso(t)
  {
    var p := PartsAt(t, 0, Utc, 'T', false);
    var k := ClockOf(t % 86_400_000);
    assert t + 0 * 60_000 == t;
    assert p.time.sec.frac != "";
    assert ShowTime(p.time) == ClockText(k);
  }

  lemma IsoShape(t: int)
    ensures |Iso(t)| > 0 && Iso(t)[|Iso(t)| - 1] == 'Z'
    ensures Iso(t)[0] in {'+', '-'} <==> !(0 <= CivilOf(t / 86_400_000).year <= 9999)
    ensures Iso(t)[0] !in {'+', '-'} ==> IsDigit(Iso(t)[0])
  {
  }

  /** A year before 1000 is refused even when it is written in full. */
  lemma EarlyYearRefused(t: int)
    requires 0 <= CivilOf(t / 86_400_000).year < 1000
    ensures Parse(Iso(t), "").None?
  {
    var c, k := CivilOf(t / 86_400_000), ClockOf(t % 86_400_000);
    CivilIsValid(t / 86_400_000);
    var p := Parts(false, Pad(c.year, 4), Pad(c.month, 2), Pad(c.day, 2),
                   Time('T', Pad(k.hour, 2), Pad(k.minute, 2), Sec(Pad(k.second, 2), Pad(k.ms, 3)), Zulu));
    assert p.time.sec.frac != "";
    assert ShowTime(p.time) == ClockText(k);
    assert Show(p) == Iso(t);
    Powers();
    NumPad(c.year, 4);
    ParseShown(p);
  }

  lemma SignedYearRefused(t: int)
    requires !(0 <= CivilOf(t / 86_400_000).year <= 9999)
    ensures Parse(Iso(t), "").None?
  {
    var s := Iso(t);
    IsoShape(t);
    assert Trim(s) == s;
    assert !Digits(s[..2], 2) && !Digits(s[..4], 4) by {
      assert |s| >= 10 ==> s[..2][0] == s[0] && s[..4][0] == s[0];
      LongIso(t);
    }
    LongIso(t);
  }

  lemma LongIso(t: int)
    ensures |Iso(t)| >= 10
  {
  }

  /** A UTC text parses again, to itself, exactly when its year has four digits and is at
      least 1000. */
  lemma IsoReparses(t: int)
    ensures Parse(Iso(t), "") == if IsoYearFits(t) then Some(Parsed(Iso(t), Second)) else None
  {
    var y := CivilOf(t / 86_400_000).year;
    if IsoYearFits(t) {
      IsoIsWritten(t);
      OffsetsAgree(t, 0, Utc, 'T', false);
    } else if 0 <= y < 1000 {
      EarlyYearRefused(t);
    } else {
      SignedYearRefused(t);
    }
  }

  lemma AtGivesIso(c: Civil, m: Moment) returns (t: int)
    requires At(c, m).Some?
    ensures At(c, m).value == Parsed(Iso(t), if m.second.None? then Minute else Second)
  {
    hide Iso, DayOf, ClockMs;
    t := DayOf(c) * 86_400_000 + ClockMs(Clock(m.hour, m.minute, Seconds(m), m.ms)) - m.offset.value * 60_000;
  }

  lemma ScannedIsIso(p: Parts, hour: string) returns (t: int)
    requires PartsOk(p) && ParseScanned(p, hour).Some? && ParseScanned(p, hour).value.precision != Day
    ensures ParseScanned(p, hour).value.value == Iso(t)
  {
    var separateMoment := SeparateMoment(hour);
    hide At, Iso, SeparateMoment, MomentOf, CivilOf, MakeDay;
    t := AtGivesIso(DateOf(p), if separateMoment.Some? then separateMoment.value else MomentOf(p.time));
  }

  lemma TimedIsIso(value: string, separate: string) returns (t: int)
    requires Parse(value, separate).Some? && Parse(value, separate).value.precision != Day
    ensures Parse(value, separate).value.value == Iso(t)
  {
    var p := Scan(Trim(value)).value;
    ScanIsExact(Trim(value), p);
    hide ParseScanned, Iso, Scan, Trim;
    t := ScannedIsIso(p, Trim(separate));
  }

  /** Every timed result is the text of an instant and, while that instant's UTC year stays
      in 1000..9999, parses again to the same text; outside it does not parse at all. */
  lemma TimedFixedPoint(value: string, separate: string) returns (t: int)
    requires Parse(value, separate).Some? && Parse(value, separate).value.precision != Day
    ensures
      var v := Parse(value, separate).value.value;
      v == Iso(t) && Parse(v, "") == if IsoYearFits(t) then Some(Parsed(v, Second)) else None
  {
    t := TimedIsIso(value, separate);
    hide Parse, Iso;
    IsoReparses(t);
  }

  function DateParts(c: Civil, slashed: bool): (p: Parts)
    requires ValidDate(c) && FourDigits(c.year)
    ensures PartsOk(p)
  {
    Parts(slashed, Pad(c.year, 4), Pad(c.month, 2), Pad(c.day, 2), NoTime)
  }

  /** A real date written without a time, in either layout, parses to its dashed text and
      never becomes an instant; that text is its own parse. */
  lemma DateOnlyFixedPoint(c: Civil, slashed: bool)
    requires ValidDate(c) && FourDigits(c.year)
    ensures Parse(Show(DateParts(c, slashed)), "") == Some(Parsed(DateString(c), Day))
    ensures Show(DateParts(c, false)) == DateString(c)
  {
    var p := DateParts(c, slashed);
    ShownDate(c);
    DateBack(c, slashed);
    CalendarPasses(c);
    NothingSeparate();
    hide Show, Parse, DateOf, DateString, MakeDay, CivilOf, SeparateMoment, ValidDate;
    ParseShown(p);
  }

  lemma ShownDate(c: Civil)
    requires ValidDate(c) && FourDigits(c.year)
    ensures Show(DateParts(c, false)) == DateString(c)
  {
  }

  lemma DateBack(c: Civil, slashed: bool)
    requires ValidDate(c) && FourDigits(c.year)
    ensures DateOf(DateParts(c, slashed)) == c
  {
    ShortFields(c);
    hide Pow10, Pad, Num, ValidDate;
    Powers();
    NumPad(c.year, 4);
    NumPad(c.month, 2);
    NumPad(c.day, 2);
  }

  predicate TimeAccepted(t: Time)
    requires TimeOk(t)
  {
    t.Time? ==> Num(t.h) <= 23 && Num(t.mi) <= 59 && (t.sec.Sec? ==> Num(t.sec.s) <= 59) && OffsetMinutes(t.zone).Some?
  }

  /** Exactly the real dates from year 1000 on, with a real time of day and an offset of at
      most fourteen hours, are accepted. */
  lemma AcceptsExactly(p: Parts)
    requires PartsOk(p)
    ensures Parse(Show(p), "").Some? <==> Num(p.y) >= 1000 && ValidDate(DateOf(p)) && TimeAccepted(p.time)
  {
    var c := DateOf(p);
    hide Show, CivilOf, MakeDay, ValidDate, Iso, OffsetMinutes, Milliseconds, ClockMs, DayOf, Num, SeparateMoment, Parse;
    ParseShown(p);
    NothingSeparate();
    if c.year >= 1000 { CalendarTest(c.year, c.month, c.day); }
    if p.time.Time? { TimeAccepts(c, p.time); }
    hide At, MomentOf, TimeAccepted;
  }

  lemma TimeAccepts(c: Civil, t: Time)
    requires t.Time? && TimeOk(t)
    ensures At(c, MomentOf(t)).Some? <==> TimeAccepted(t)
  {
  }

  // ----- Every time that is written, and every separate hour ---------------------------------------

  function WrittenDate(p: Parts): Civil
    requires PartsOk(p)
  {
    Civil(Num(p.y), Num(p.m), Num(p.d))
  }

  /** A local time of day on a date, `west` minutes west of Greenwich. */
  function InstantOf(c: Civil, hour: int, minute: int, second: int, ms: int, west: int): int {
    ((DayOf(c) * 1440 + hour * 60 + minute + west) * 60 + second) * 1000 + ms
  }

  /** The result for a local time on a date: nothing for a time that no clock shows or a zone
      that is not accepted. */
  function ResultAt(c: Civil, hour: int, minute: int, second: Option<int>, ms: int, west: Option<int>): Option<Parsed> {
    var s := if second.Some? then second.value else 0;
    if hour > 23 || minute > 59 || s > 59 || west.None? then None
    else Some(Parsed(Iso(InstantOf(c, hour, minute, s, ms, west.value)), if second.None? then Minute else Second))
  }

  function Negated(o: Option<int>): Option<int> { if o.Some? then Some(-o.value) else None }

  lemma AtIsInstant(c: Civil, m: Moment)
    ensures At(c, m) == ResultAt(c, m.hour, m.minute, if m.second.Some? then Some(m.second.value) else None, m.ms, Negated(m.offset))
  {
    hide DayOf, Iso;
    if m.offset.Some? {
      var d, o := DayOf(c), m.offset.value;
      assert InstantOf(c, m.hour, m.minute, Seconds(m), m.ms, -o)
             == d * 86_400_000 + ClockMs(Clock(m.hour, m.minute, Seconds(m), m.ms)) - o * 60_000;
    }
  }

  /** A separate official hour replaces the time of the text and is local Lima time, five hours
      west, whatever zone the text has. */
  lemma SeparateHour(p: Parts, h: string, mi: string, sec: Option<string>)
    requires PartsOk(p) && ValidDate(WrittenDate(p)) && Num(p.y) >= 1000
    requires Digits(h, 2) && Digits(mi, 2) && (sec.Some? ==> Digits(sec.value, 2))
    ensures
      Parse(Show(p), h + ":" + mi + if sec.Some? then ":" + sec.value else "")
      == ResultAt(WrittenDate(p), Num(h), Num(mi), if sec.Some? then Some(Num(sec.value)) else None, 0, Some(300))
  {
    var separate := h + ":" + mi + if sec.Some? then ":" + sec.value else "";
    var c := WrittenDate(p);
    var m := Moment(Num(h), Num(mi), if sec.Some? then Some(Num(sec.value)) else None, 0, Some(-300));
    CalendarPasses(c);
    SeparateRead(h, mi, sec);
    AtIsInstant(c, m);
    assert DateOf(p) == c;
    ParseSeparate(p, c, separate, m);
    hide Show, Parse, CivilOf, MakeDay, ValidDate, SeparateMoment, ResultAt, Iso, Num, PartsOk, At;
  }

  lemma ParseSeparate(p: Parts, c: Civil, separate: string, m: Moment)
    requires PartsOk(p) && DateOf(p) == c && c.year >= 1000 && ValidDate(c)
    requires Trim(separate) == separate && separate != "" && SeparateMoment(separate) == Some(m)
    ensures Parse(Show(p), separate) == At(c, m)
  {
    ParseShownWith(p, separate);
    CalendarPasses(c);
    hide *;
    ScannedSeparate(p, c, separate, m);
  }

  lemma ScannedSeparate(p: Parts, c: Civil, separate: string, m: Moment)
    requires PartsOk(p) && DateOf(p) == c && c.year >= 1000 && CivilOf(MakeDay(UtcYear(c.year), c.month - 1, c.day)) == c
    requires separate != "" && SeparateMoment(separate) == Some(m)
    ensures ParseScanned(p, separate) == At(c, m)
  {
    hide CivilOf, MakeDay, UtcYear, SeparateMoment, At, DateOf, PartsOk, MomentOf, DateString;
  }

  lemma SeparateRead(h: string, mi: string, sec: Option<string>)
    requires Digits(h, 2) && Digits(mi, 2) && (sec.Some? ==> Digits(sec.value, 2))
    ensures
      var separate := h + ":" + mi + if sec.Some? then ":" + sec.value else "";
      && Trim(separate) == separate && separate != ""
      && SeparateMoment(separate) == Some(Moment(Num(h), Num(mi), if sec.Some? then Some(Num(sec.value)) else None, 0, Some(-300)))
  {
    var separate := h + ":" + mi + if sec.Some? then ":" + sec.value else "";
    assert separate[..2] == h && separate[2] == ':' && separate[3..5] == mi;
    if sec.Some? {
      assert separate[5] == ':' && separate[6..] == sec.value && separate[7] == sec.value[1];
    } else {
      assert separate[3..] == mi && separate[4] == mi[1];
    }
    TrimNothing(separate);
  }

  /** No other separate text is accepted with any date. */
  lemma OtherSeparate(value: string, separate: string) returns (h: string, mi: string, sec: Option<string>)
    requires Trim(separate) != "" && Parse(value, separate).Some?
    ensures Digits(h, 2) && Digits(mi, 2) && (sec.Some? ==> Digits(sec.value, 2))
    ensures Trim(separate) == h + ":" + mi + if sec.Some? then ":" + sec.value else ""
    ensures Num(h) <= 23 && Num(mi) <= 59 && (sec.Some? ==> Num(sec.value) <= 59)
  {
    var s := Trim(separate);
    hide Trim, Scan, CivilOf, MakeDay, Iso, DayOf, ClockMs, Num;
    assert SeparateMoment(s).Some?;
    h, mi := s[..2], s[3..5];
    sec := if |s| == 8 then Some(s[6..]) else None;
    if |s| == 5 { assert s[3..] == mi; }
    assert s == h + ":" + mi + if sec.Some? then ":" + sec.value else "";
  }

  /** Minutes west of Greenwich of a written zone; Lima without one, and none beyond fourteen
      hours. */
  function MinutesWest(z: Zone): Option<int>
    requires ZoneOk(z)
  {
    if z.NoZone? then Some(300)
    else if z.Zulu? then Some(0)
    else if Num(z.mi) > 59 || Num(z.h) * 60 + Num(z.mi) > 840 then None
    else Some(if z.plus then -(Num(z.h) * 60 + Num(z.mi)) else Num(z.h) * 60 + Num(z.mi))
  }

  /** The milliseconds that one, two or three digits write. */
  function WrittenMs(frac: string): int
    requires Digits(frac, |frac|)
  {
    if frac == "" then 0 else if |frac| == 1 then 100 * Num(frac) else if |frac| == 2 then 10 * Num(frac) else Num(frac)
  }

  /** A time in the text itself: its instant, to the millisecond, and its precision. */
  lemma WrittenTime(p: Parts)
    requires PartsOk(p) && ValidDate(WrittenDate(p)) && Num(p.y) >= 1000 && p.time.Time?
    ensures
      var t := p.time;
      Parse(Show(p), "")
      == ResultAt(WrittenDate(p), Num(t.h), Num(t.mi), if t.sec.Sec? then Some(Num(t.sec.s)) else None,
                  if t.sec.Sec? then WrittenMs(t.sec.frac) else 0, MinutesWest(t.zone))
  {
    WrittenParse(p);
    MomentIsWritten(p.time);
    AtIsInstant(WrittenDate(p), MomentOf(p.time));
    hide *;
  }

  lemma WrittenParse(p: Parts)
    requires PartsOk(p) && ValidDate(WrittenDate(p)) && Num(p.y) >= 1000 && p.time.Time?
    ensures Parse(Show(p), "") == At(WrittenDate(p), MomentOf(p.time))
  {
    var c, m := WrittenDate(p), MomentOf(p.time);
    assert DateOf(p) == c && c.year >= 1000;
    hide *;
    ParseParts(p, c, m);
  }

  lemma MomentIsWritten(t: Time)
    requires t.Time? && TimeOk(t)
    ensures
      var m := MomentOf(t);
      && m.hour == Num(t.h) && m.minute == Num(t.mi)
      && (if m.second.Some? then Some(m.second.value as int) else None) == (if t.sec.Sec? then Some(Num(t.sec.s) as int) else None)
      && m.ms == (if t.sec.Sec? then WrittenMs(t.sec.frac) else 0)
      && Negated(m.offset) == MinutesWest(t.zone)
  {
    WrittenZone(t.zone);
    hide Num, OffsetMinutes, MinutesWest;
  }

  lemma WrittenZone(z: Zone)
    requires ZoneOk(z)
    ensures Negated(OffsetMinutes(z)) == MinutesWest(z)
  {
    hide Num;
  }

  const LAST_HOUR := Parts(false, "9999", "12", "31", Time('T', "23", "00", Sec("00", ""), Offset(false, "05", "00", true)))

  lemma LastHourText()
    ensures Show(LAST_HOUR) == "9999-12-31T23:00:00-05:00" && PartsOk(LAST_HOUR)
  {
  }

  lemma LastHourNumbers()
    ensures PartsOk(LAST_HOUR) && DateOf(LAST_HOUR) == Civil(9999, 12, 31)
    ensures MomentOf(LAST_HOUR.time) == Moment(23, 0, Some(0), 0, Some(-300))
  {
    hide CivilOf, Pow10;
    assert "9999"[..3] == "999" && "999"[..2] == "99" && "99"[..1] == "9" && "9"[..0] == "";
    assert Num("9") == 9 && Num("99") == 99;
    assert Num("999") == 999;
    assert Num("9999") == 9999;
    assert "12"[..1] == "1" && "31"[..1] == "3" && "23"[..1] == "2" && "00"[..1] == "0" && "05"[..1] == "0";
    assert Num("12") == 12 && Num("31") == 31 && Num("23") == 23 && Num("00") == 0 && Num("05") == 5;
    assert Milliseconds("") == 0;
  }

  lemma LastAndFirst()
    ensures ValidDate(Civil(9999, 12, 31)) && ValidDate(Civil(10_000, 1, 1))
  {
  }

  lemma LastAndFirstDays()
    ensures YearDays(9999) == 365 && MonthStart(Leap(9999), 11) == 334 && MonthStart(Leap(10_000), 0) == 0
  {
  }

  lemma NewYearTenThousand()
    ensures ValidDate(Civil(9999, 12, 31)) && DayOf(Civil(9999, 12, 31)) + 1 == DayOf(Civil(10_000, 1, 1))
    ensures CivilOf(DayOf(Civil(10_000, 1, 1))) == Civil(10_000, 1, 1)
  {
    var last, first := Civil(9999, 12, 31), Civil(10_000, 1, 1);
    hide CivilOf, DayOf, ValidDate, DayFromYear, MonthStart, Leap, YearDays;
    LastAndFirst();
    LastAndFirstDays();
    NextYear(9999);
    DayOfValue(last);
    DayOfValue(first);
    CivilRoundTrip(first);
  }

  /** An accepted date whose offset carries it past the range: its own text is refused. */
  lemma LastHourLeavesRange() returns (t: int)
    ensures Parse("9999-12-31T23:00:00-05:00", "") == Some(Parsed(Iso(t), Second))
    ensures CivilOf(t / 86_400_000).year == 10_000 && Parse(Iso(t), "").None?
  {
    hide Show, PartsOk, DateOf, MomentOf, CivilOf, MakeDay, ValidDate, Iso, Parse, DayOf, At;
    LastHourText();
    LastHourNumbers();
    NewYearTenThousand();
    var c, k := Civil(9999, 12, 31), Clock(23, 0, 0, 0);
    t := DayOf(c) * 86_400_000 + ClockMs(k) + 300 * 60_000;
    ParseParts(LAST_HOUR, c, Moment(23, 0, Some(0), 0, Some(-300)));
    AtInstant(c, k, -300, t);
    IsoReparses(t);
  }
}
