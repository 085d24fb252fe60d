/** Text of dates: decimal digits, and the one regular expression of
    apps/web/lib/procurementSchedule.ts as a scanner with its inverse. */
module DateText {
  import opened Common

  // ----- Digits ---------------------------------------------------------------------------

  predicate IsDigit(c: char) { '0' <= c <= '9' }

  predicate Digits(s: string, n: nat) { |s| == n && forall i :: 0 <= i < |s| ==> IsDigit(s[i]) }

  function Pow10(w: nat): nat { if w == 0 then 1 else 10 * Pow10(w - 1) }

  function Num(s: string): nat
    requires Digits(s, |s|)
  {
    if s == "" then 0 else 10 * Num(s[..|s| - 1]) + (s[|s| - 1] - '0') as nat
  }

  /** The last `w` decimal digits of n: String(n).padStart(w, "0") when n has at most w. */
  function Pad(n: nat, w: nat): (s: string)
    ensures Digits(s, w)
  {
    if w == 0 then "" else Pad(n / 10, w - 1) + ['0' + (n % 10) as char]
  }

  lemma {:induction false} NumPad(n: nat, w: nat)
    requires n < Pow10(w)
    ensures Num(Pad(n, w)) == n
  {
    if w > 0 {
      NumPad(n / 10, w - 1);
      assert Pad(n, w)[..w - 1] == Pad(n / 10, w - 1);
    }
  }

  lemma {:induction false} PadNum(s: string)
    requires Digits(s, |s|)
    ensures Num(s) < Pow10(|s|) && Pad(Num(s), |s|) == s
  {
    if s != "" {
      PadNum(s[..|s| - 1]);
      assert s == s[..|s| - 1] + [s[|s| - 1]];
    }
  }

  /** A number without padding. */
  function Dec(n: nat): string {
    if n < 10 then ['0' + n as char] else Dec(n / 10) + ['0' + (n % 10) as char]
  }

  lemma {:induction false} NumDec(n: nat)
    ensures Digits(Dec(n), |Dec(n)|) && Dec(n) != "" && Num(Dec(n)) == n
    ensures n > 0 ==> Dec(n)[0] != '0'
  {
    if n >= 10 {
      NumDec(n / 10);
      assert Dec(n)[..|Dec(n)| - 1] == Dec(n / 10);
    } else {
      assert Dec(n)[..0] == "";
    }
  }

  lemma {:induction false} DecNum(s: string)
    requires s != "" && Digits(s, |s|) && s[0] != '0'
    ensures Num(s) > 0 && Dec(Num(s)) == s
  {
    var head := s[..|s| - 1];
    assert s == head + [s[|s| - 1]];
    if head != "" {
      DecNum(head);
    } else {
      assert Num(head) == 0;
    }
  }

  // ----- Order ----------------------------------------------------------------------------

  /** JavaScript's `<` on strings. */
  predicate Less(a: string, b: string) {
    if b == "" then false else if a == "" then true
    else a[0] < b[0] || (a[0] == b[0] && Less(a[1..], b[1..]))
  }

  lemma {:induction false} LessAfter(p: string, a: string, b: string)
    ensures Less(p + a, p + b) <==> Less(a, b)
  {
    if p == "" {
      assert p + a == a && p + b == b;
    } else {
      assert (p + a)[1..] == p[1..] + a && (p + b)[1..] == p[1..] + b;
      LessAfter(p[1..], a, b);
    }
  }

  lemma {:induction false} LessPrefix(p: string, q: string, a: string, b: string)
    requires |p| == |q| && p != q
    ensures Less(p + a, q + b) <==> Less(p, q)
  {
    assert (p + a)[0] == p[0] && (q + b)[0] == q[0];
    assert (p + a)[1..] == p[1..] + a && (q + b)[1..] == q[1..] + b;
    if p[0] == q[0] {
      assert p[1..] != q[1..] by { assert p == [p[0]] + p[1..] && q == [q[0]] + q[1..]; }
      LessPrefix(p[1..], q[1..], a, b);
    }
  }

  /** Numbers of equal width compare as text the way they compare as numbers. */
  lemma {:induction false} LessPad(n: nat, k: nat, w: nat)
    requires n < Pow10(w) && k < Pow10(w)
    ensures Less(Pad(n, w), Pad(k, w)) <==> n < k
  {
    if w > 0 {
      var p, q := Pad(n / 10, w - 1), Pad(k / 10, w - 1);
      LessPad(n / 10, k / 10, w - 1);
      if n / 10 == k / 10 {
        LessAfter(p, ['0' + (n % 10) as char], ['0' + (k % 10) as char]);
      } else {
        NumPad(n / 10, w - 1);
        NumPad(k / 10, w - 1);
        LessPrefix(p, q, ['0' + (n % 10) as char], ['0' + (k % 10) as char]);
      }
    }
  }

  // ----- The written form -------------------------------------------------------------------

  datatype Zone = NoZone | Zulu | Offset(plus: bool, h: string, mi: string, colon: bool)

  datatype Sec = NoSec | Sec(s: string, frac: string)

  datatype Time = NoTime | Time(sep: char, h: string, mi: string, sec: Sec, zone: Zone)

  datatype Parts = Parts(slashed: bool, y: string, m: string, d: string, time: Time)

  predicate ZoneOk(z: Zone) { z.Offset? ==> Digits(z.h, 2) && Digits(z.mi, 2) }

  predicate SecOk(s: Sec) { s.Sec? ==> Digits(s.s, 2) && |s.frac| <= 3 && Digits(s.frac, |s.frac|) }

  predicate TimeOk(t: Time) {
    t.Time? ==> (t.sep == 'T' || t.sep == ' ') && Digits(t.h, 2) && Digits(t.mi, 2) && SecOk(t.sec) && ZoneOk(t.zone)
  }

  predicate PartsOk(p: Parts) { Digits(p.y, 4) && Digits(p.m, 2) && Digits(p.d, 2) && TimeOk(p.time) }

  function ShowZone(z: Zone): string {
    match z
    case NoZone => ""
    case Zulu => "Z"
    case Offset(plus, h, mi, colon) => [if plus then '+' else '-'] + (h + ((if colon then ":" else "") + mi))
  }

  function ShowSec(s: Sec): string {
    match s
    case NoSec => ""
    case Sec(s, frac) => ":" + (s + (if frac == "" then "" else "." + frac))
  }

  function ShowTime(t: Time): string {
    match t
    case NoTime => ""
    case Time(sep, h, mi, sec, zone) => [sep] + (h + (":" + (mi + (ShowSec(sec) + ShowZone(zone)))))
  }

  function ShowDate(p: Parts): string {
    if p.slashed then p.d + ("/" + (p.m + ("/" + p.y))) else p.y + ("-" + (p.m + ("-" + p.d)))
  }

  function Show(p: Parts): string { ShowDate(p) + ShowTime(p.time) }

  // ----- The scanner ------------------------------------------------------------------------

  function ScanZone(s: string): Option<Zone> {
    if s == "" then Some(NoZone)
    else if s == "Z" then Some(Zulu)
    else if s[0] != '+' && s[0] != '-' then None
    else if |s| == 6 && Digits(s[1..3], 2) && s[3] == ':' && Digits(s[4..], 2) then Some(Offset(s[0] == '+', s[1..3], s[4..], true))
    else if |s| == 5 && Digits(s[1..3], 2) && Digits(s[3..], 2) then Some(Offset(s[0] == '+', s[1..3], s[3..], false))
    else None
  }

  /** The leading digits of s, at most n of them. */
  function Leading(s: string, n: nat): (r: nat)
    ensures r <= n && r <= |s| && Digits(s[..r], r)
    ensures r < n && r < |s| ==> !IsDigit(s[r])
  {
    if n == 0 || s == "" || !IsDigit(s[0]) then 0 else 1 + Leading(s[1..], n - 1)
  }

  function ScanSec(s: string): (r: (Sec, string)) {
    if |s| < 3 || s[0] != ':' || !Digits(s[1..3], 2) then (NoSec, s)
    else if |s| < 5 || s[3] != '.' || !IsDigit(s[4]) then (Sec(s[1..3], ""), s[3..])
    else
      var n := Leading(s[4..], 3);
      (Sec(s[1..3], s[4..4 + n]), s[4 + n..])
  }

  function ScanTime(s: string): Option<Time> {
    if s == "" then Some(NoTime)
    else if |s| < 6 || (s[0] != 'T' && s[0] != ' ') || !Digits(s[1..3], 2) || s[3] != ':' || !Digits(s[4..6], 2) then None
    else
      var rest := ScanSec(s[6..]);
      match ScanZone(rest.1)
      case None => None
      case Some(zone) => Some(Time(s[0], s[1..3], s[4..6], rest.0, zone))
  }

  /** The regular expression: what it captures, or None when it does not match. */
  function Scan(s: string): Option<Parts> {
    if |s| < 10 then None
    else
      match ScanTime(s[10..])
      case None => None
      case Some(time) =>
        if Digits(s[..2], 2) && s[2] == '/' && Digits(s[3..5], 2) && s[5] == '/' && Digits(s[6..10], 4)
        then Some(Parts(true, s[6..10], s[3..5], s[..2], time))
        else if Digits(s[..4], 4) && s[4] == '-' && Digits(s[5..7], 2) && s[7] == '-' && Digits(s[8..10], 2)
        then Some(Parts(false, s[..4], s[5..7], s[8..10], time))
        else None
  }

  // ----- Scanning inverts writing --------------------------------------------------------------

  lemma ScanShowZone(z: Zone)
    requires ZoneOk(z)
    ensures ScanZone(ShowZone(z)) == Some(z)
    ensures ShowZone(z) != "" ==> ShowZone(z)[0] in {'Z', '+', '-'}
  {
    if z.Offset? {
      var s := ShowZone(z);
      assert s[1..3] == z.h;
      if z.colon { assert s[3] == ':' && s[4..] == z.mi; } else { assert s[3..] == z.mi; }
    }
  }

  lemma {:induction false} LeadingOf(a: string, b: string, n: nat)
    requires Digits(a, |a|) && |a| <= n && (b != "" ==> !IsDigit(b[0]))
    ensures Leading(a + b, n) == |a|
  {
    if a == "" { assert a + b == b; }
    else {
      assert (a + b)[0] == a[0] && (a + b)[1..] == a[1..] + b;
      LeadingOf(a[1..], b, n - 1);
    }
  }

  lemma ScanShowSec(sec: Sec, rest: string)
    requires SecOk(sec) && (rest != "" ==> rest[0] in {'Z', '+', '-'})
    ensures ScanSec(ShowSec(sec) + rest) == (sec, rest)
  {
    if sec.Sec? && sec.frac != "" { ScanShowFraction(sec.s, sec.frac, rest); }
    else { ScanShowWhole(sec, rest); }
  }

  lemma ScanShowWhole(sec: Sec, rest: string)
    requires SecOk(sec) && (rest != "" ==> rest[0] in {'Z', '+', '-'}) && (sec.Sec? ==> sec.frac == "")
    ensures ScanSec(ShowSec(sec) + rest) == (sec, rest)
  {
    var s := ShowSec(sec) + rest;
    if sec.Sec? { assert s[1..3] == sec.s && s[3..] == rest; }
    else { assert s == rest; }
  }

  lemma ScanShowFraction(two: string, frac: string, rest: string)
    requires SecOk(Sec(two, frac)) && frac != "" && (rest != "" ==> rest[0] in {'Z', '+', '-'})
    ensures ScanSec(ShowSec(Sec(two, frac)) + rest) == (Sec(two, frac), rest)
  {
    var s := ShowSec(Sec(two, frac)) + rest;
    LeadingOf(frac, rest, 3);
    assert s[1..3] == two;
    assert s[3] == '.' && s[4] == frac[0] && s[4..] == frac + rest;
    assert s[4..4 + |frac|] == frac && s[4 + |frac|..] == rest;
  }

  lemma ScanShowTime(t: Time)
    requires TimeOk(t)
    ensures ScanTime(ShowTime(t)) == Some(t)
  {
    if t.Time? {
      var s := ShowTime(t);
      assert s[1..3] == t.h && s[3] == ':' && s[4..6] == t.mi && s[6..] == ShowSec(t.sec) + ShowZone(t.zone);
      ScanShowZone(t.zone);
      ScanShowSec(t.sec, ShowZone(t.zone));
    }
  }

  /** Whatever is written in the accepted form is read back part by part. */
  lemma ScanShow(p: Parts)
    requires PartsOk(p)
    ensures Scan(Show(p)) == Some(p)
  {
    var s := Show(p);
    ScanShowTime(p.time);
    hide ScanTime, ShowTime, TimeOk;
    assert s[10..] == ShowTime(p.time);
    if p.slashed {
      assert s[..2] == p.d && s[2] == '/' && s[3..5] == p.m && s[5] == '/' && s[6..10] == p.y;
    } else {
      assert s[..4] == p.y && s[4] == '-' && s[5..7] == p.m && s[7] == '-' && s[8..10] == p.d;
      assert !IsDigit(s[4]);
    }
  }

  lemma ShowScanZone(s: string)
    requires ScanZone(s).Some?
    ensures ZoneOk(ScanZone(s).value) && ShowZone(ScanZone(s).value) == s
  {
  }

  lemma ShowScanSec(s: string)
    ensures SecOk(ScanSec(s).0) && ShowSec(ScanSec(s).0) + ScanSec(s).1 == s
  {
    if |s| >= 3 && s[0] == ':' && Digits(s[1..3], 2) {
      if |s| < 5 || s[3] != '.' || !IsDigit(s[4]) {
        assert s == ":" + (s[1..3] + "") + s[3..];
      } else {
        var n := Leading(s[4..], 3);
        assert s[4..][..n] == s[4..4 + n];
        assert s == ":" + (s[1..3] + ("." + s[4..4 + n])) + s[4 + n..];
      }
    }
  }

  lemma ShowScanTime(s: string)
    requires ScanTime(s).Some?
    ensures TimeOk(ScanTime(s).value) && ShowTime(ScanTime(s).value) == s
  {
    if s != "" {
      ShowScanSec(s[6..]);
      ShowScanZone(ScanSec(s[6..]).1);
      assert s == [s[0]] + (s[1..3] + (":" + (s[4..6] + s[6..])));
    }
  }

  lemma ShowScan(s: string)
    requires Scan(s).Some?
    ensures PartsOk(Scan(s).value) && Show(Scan(s).value) == s
  {
    var q := Scan(s).value;
    ShowScanTime(s[10..]);
    hide ScanTime, ShowTime, TimeOk;
    assert ShowDate(q) == s[..10] by { DateAtFront(s, q.slashed); }
    hide Scan, ShowDate, Digits;
    assert s == s[..10] + s[10..];
  }

  lemma DateAtFront(s: string, slashed: bool)
    requires |s| >= 10 && (if slashed then s[2] == '/' && s[5] == '/' else s[4] == '-' && s[7] == '-')
    ensures s[..10] == if slashed then s[..2] + ("/" + (s[3..5] + ("/" + s[6..10]))) else s[..4] + ("-" + (s[5..7] + ("-" + s[8..10])))
  {
  }

  /** The scanner accepts exactly the written forms, each in one way. */
  lemma ScanIsExact(s: string, p: Parts)
    ensures Scan(s) == Some(p) <==> PartsOk(p) && Show(p) == s
  {
    hide Scan, Show, PartsOk;
    if Scan(s).Some? { ShowScan(s); }
    if PartsOk(p) && Show(p) == s { ScanShow(p); }
  }

  // ----- Trimming -----------------------------------------------------------------------------

  /** The white space String.prototype.trim removes. */
  predicate IsSpace(c: char) {
    c in {'\t', '\n', '\U{000B}', '\U{000C}', '\r', ' ', '\U{00A0}', '\U{1680}', '\U{2028}', '\U{2029}',
          '\U{202F}', '\U{205F}', '\U{3000}', '\U{FEFF}'} || '\U{2000}' <= c <= '\U{200A}'
  }

  function TrimLeft(s: string): string { if s != "" && IsSpace(s[0]) then TrimLeft(s[1..]) else s }

  function TrimRight(s: string): string { if s != "" && IsSpace(s[|s| - 1]) then TrimRight(s[..|s| - 1]) else s }

  function Trim(s: string): string { TrimRight(TrimLeft(s)) }

  /** Every accepted form starts and ends with a digit or a Z. */
  lemma ShowIsTrimmed(p: Parts)
    requires PartsOk(p)
    ensures Trim(Show(p)) == Show(p) && Show(p) != ""
  {
    FirstOfShow(p);
    LastOfShow(p);
    hide Show;
    TrimNothing(Show(p));
  }

  lemma FirstOfShow(p: Parts)
    requires PartsOk(p)
    ensures Show(p) != "" && IsDigit(Show(p)[0])
  {
  }

  lemma TrimNothing(s: string)
    requires s != "" && !IsSpace(s[0]) && !IsSpace(s[|s| - 1])
    ensures Trim(s) == s
  {
  }

  lemma LastOfShow(p: Parts)
    requires PartsOk(p)
    ensures |Show(p)| >= 10 && (IsDigit(Show(p)[|Show(p)| - 1]) || Show(p)[|Show(p)| - 1] == 'Z')
  {
  }
}
