/** How an expiry is written and read (limits.go parseExpire, fmtExpire). */
module ExpireText {
  import opened Util
  import opened Text

  /** So many of a unit, in seconds; None when there is no such unit. */
  function Seconds(n: int, unit: char): Option<int> {
    match unit
    case 's' => Some(n)
    case 'm' => Some(60 * n)
    case 'h' => Some(3600 * n)
    case 'd' => Some(86400 * n)
    case 'w' => Some(604800 * n)
    case _ => None
  }

  /** 64-bit multiplication wraps around. */
  function Wrap64(n: int): int { (n + 0x8000_0000_0000_0000) % 0x1_0000_0000_0000_0000 - 0x8000_0000_0000_0000 }

  predicate IsOff(s: string) { s == "" || s == "off" || s == "0" || s == "never" }

  /** At least a minute, whatever was asked for. */
  function AtLeastAMinute(sec: int): int { if sec < 60 then 60 else sec }

  /** A number and a unit. */
  function ReadUnit(s: string): Option<int>
    requires s != ""
  {
    var n := ParseInt(s[..|s| - 1]);
    if n.None? || n.value <= 0 then None else
      match Seconds(n.value, s[|s| - 1])
      case None => None
      case Some(sec) => Some(AtLeastAMinute(Wrap64(sec)))
  }

  function ParseExpire(text: string): Option<int> {
    var s := Lower(Trim(text));
    if IsOff(s) then Some(0) else ReadUnit(s)
  }

  /** The largest unit that divides, or whole minutes. */
  function UnitOf(sec: nat): (nat, char) {
    if sec % 604800 == 0 then (sec / 604800, 'w')
    else if sec % 86400 == 0 then (sec / 86400, 'd')
    else if sec % 3600 == 0 then (sec / 3600, 'h')
    else (sec / 60, 'm')
  }

  function FmtExpire(sec: int): string {
    if sec <= 0 then "off" else Digits(UnitOf(sec).0) + [UnitOf(sec).1]
  }

  predicate Calm(c: char) { LowerChar(c) == c && !IsSpace(c) }

  lemma CalmStays(s: string)
    requires s != "" && forall c :: c in s ==> Calm(c)
    ensures Lower(Trim(s)) == s
  {
    assert s[0] in s && s[|s| - 1] in s;
    assert TrimLeft(s) == s && TrimRight(s) == s;
    assert forall i :: 0 <= i < |s| ==> s[i] in s;
  }

  lemma NumberIsNotOff(s: string)
    requires |s| >= 2 && IsDigit(s[0])
    ensures !IsOff(s)
  {
    assert "off"[0] == 'o' && "never"[0] == 'n' && |"0"| == 1;
  }

  lemma ReadUnitIs(n: nat, total: int, s: string)
    requires s != "" && ParseInt(s[..|s| - 1]) == Some(n) && Seconds(n, s[|s| - 1]) == Some(total) &&
             0 <= total <= MAX_INT64
    ensures ReadUnit(s) == if n == 0 then None else Some(AtLeastAMinute(total))
  {
  }

  predicate Numeral(a: string) { a != "" && forall c :: c in a ==> IsDigit(c) }

  lemma AllCalm(a: string, unit: char, s: string)
    requires Numeral(a) && s == a + [unit] && Calm(unit)
    ensures forall c :: c in s ==> Calm(c)
  {
    forall c | c in s ensures Calm(c) {
      assert c in a || c == unit;
    }
  }

  lemma NumeralKept(a: string, unit: char, s: string)
    requires Numeral(a) && s == a + [unit] && Calm(unit)
    ensures Lower(Trim(s)) == s
  {
    AllCalm(a, unit, s);
    CalmStays(s);
  }

  lemma NumeralFirst(a: string, unit: char, s: string)
    requires Numeral(a) && s == a + [unit]
    ensures |s| >= 2 && IsDigit(s[0])
  {
    assert s[0] == a[0] && a[0] in a;
  }

  lemma NotOff(a: string, unit: char, s: string)
    requires Numeral(a) && s == a + [unit] && Calm(unit)
    ensures Lower(Trim(s)) == s && !IsOff(s)
  {
    NumeralKept(a, unit, s);
    NumeralFirst(a, unit, s);
    NumberIsNotOff(s);
  }

  lemma UnitRead(a: string, n: nat, unit: char, total: int, s: string)
    requires Numeral(a) && ParseInt(a) == Some(n) && Calm(unit) && s == a + [unit]
    requires Seconds(n, unit) == Some(total) && 0 <= total <= MAX_INT64
    ensures ParseExpire(s) == if n == 0 then None else Some(AtLeastAMinute(total))
  {
    NotOff(a, unit, s);
    assert s[..|s| - 1] == a;
    ReadUnitIs(n, total, s);
  }

  lemma Printed(n: nat)
    requires n <= MAX_INT64
    ensures Numeral(Digits(n)) && ParseInt(Digits(n)) == Some(n)
  {
    PrintedParses(n);
  }

  lemma PrintedRead(n: nat, unit: char, total: int, s: string)
    requires n <= MAX_INT64 && Calm(unit) && s == Digits(n) + [unit] && Seconds(n, unit) == Some(total) &&
             0 <= total <= MAX_INT64
    ensures ParseExpire(s) == if n == 0 then None else Some(AtLeastAMinute(total))
  {
    Printed(n);
    UnitRead(Digits(n), n, unit, total, s);
  }

  lemma OffRead()
    ensures ParseExpire("off") == Some(0)
  {
    var s := "off";
    assert s[0] == 'o' && s[1] == 'f' && s[2] == 'f';
    CalmStays(s);
  }

  lemma WholeUnits(sec: nat, u: nat, k: nat)
    requires sec > 0 && k > 0 && u == 60 * k && sec % u == 0
    ensures sec == u * (sec / u) && sec % 60 == 0 && 60 <= sec && 0 < sec / u <= sec
  {
    var q := sec / u;
    assert sec == 60 * (k * q);
    assert (60 * (k * q)) % 60 == 0;
  }

  /** Nothing but the seconds beyond the minute is lost. */
  lemma UnitKeepsMinutes(sec: nat)
    requires sec > 0
    ensures var p := UnitOf(sec);
            Seconds(p.0, p.1) == Some(sec - sec % 60) && Calm(p.1) && p.0 <= sec && (p.0 == 0 <==> sec < 60)
  {
    if sec % 604800 == 0 {
      WholeUnits(sec, 604800, 10080);
    } else if sec % 86400 == 0 {
      WholeUnits(sec, 86400, 1440);
    } else if sec % 3600 == 0 {
      WholeUnits(sec, 3600, 60);
    } else {
      assert sec == 60 * (sec / 60) + sec % 60;
    }
  }

  lemma WrittenRead(n: nat, unit: char, total: int, s: string)
    requires s == Digits(n) + [unit] && Seconds(n, unit) == Some(total) && Calm(unit) && n <= MAX_INT64
    requires 0 <= total <= MAX_INT64 && (n == 0 || total >= 60)
    ensures ParseExpire(s) == if n == 0 then None else Some(total)
  {
    PrintedRead(n, unit, total, s);
  }

  /** What fmtExpire writes is read back as the same expiry exactly for whole minutes: seconds beyond the
      minute are lost, and less than a minute is not read back at all. */
  lemma ExpireRoundTrip(sec: nat)
    requires sec <= MAX_INT64
    ensures ParseExpire(FmtExpire(sec)) == Some(sec) <==> sec % 60 == 0
    ensures sec >= 60 ==> ParseExpire(FmtExpire(sec)) == Some(sec - sec % 60)
    ensures 0 < sec < 60 ==> ParseExpire(FmtExpire(sec)) == None
  {
    if sec == 0 {
      OffRead();
    } else {
      UnitKeepsMinutes(sec);
      var total := sec - sec % 60;
      WrittenRead(UnitOf(sec).0, UnitOf(sec).1, total, FmtExpire(sec));
    }
  }

  // ---- what is read as what --------------------------------------------------------------------------

  /** Off is written in four ways, in any case and with blanks around. */
  lemma OffExact(s: string)
    ensures Lower(Trim(s)) == "" || Lower(Trim(s)) == "off" || Lower(Trim(s)) == "0" || Lower(Trim(s)) == "never" ==>
            ParseExpire(s) == Some(0)
  {
  }

  /** A positive number of seconds, minutes, hours, days or weeks, but at least a minute; anything else is
      refused. */
  lemma UnitExact(s: string)
    requires var t := Lower(Trim(s)); t != "" && t != "off" && t != "0" && t != "never"
    ensures var t := Lower(Trim(s));
            var n, unit := ParseInt(t[..|t| - 1]), t[|t| - 1];
            var each := if unit == 's' then 1 else if unit == 'm' then 60 else if unit == 'h' then 60 * 60
                        else if unit == 'd' then 24 * 60 * 60 else if unit == 'w' then 7 * 24 * 60 * 60 else 0;
            && (ParseExpire(s).Some? <==> n.Some? && n.value > 0 && each > 0)
            && (ParseExpire(s).Some? ==> ParseExpire(s).value >= 60)
            && (ParseExpire(s).Some? && 60 <= each * n.value <= MAX_INT64 ==> ParseExpire(s).value == each * n.value)
  {
    var t := Lower(Trim(s));
    assert ParseExpire(s) == ReadUnit(t);
    var n := ParseInt(t[..|t| - 1]);
    if n.Some? && Seconds(n.value, t[|t| - 1]).Some? {
      var sec := Seconds(n.value, t[|t| - 1]).value;
      if 0 <= sec <= MAX_INT64 { assert Wrap64(sec) == sec; }
    }
  }

  lemma WrapExact(n: int)
    ensures -MAX_INT64 - 1 <= Wrap64(n) <= MAX_INT64
    ensures (n - Wrap64(n)) % 0x1_0000_0000_0000_0000 == 0
  {
  }

  /** Written in the largest unit that divides it, or else in whole minutes. */
  lemma FmtExact(sec: int)
    ensures sec <= 0 ==> FmtExpire(sec) == "off"
    ensures sec > 0 ==>
            FmtExpire(sec) ==
            if sec % (7 * 24 * 60 * 60) == 0 then Digits(sec / 604800) + "w"
            else if sec % (24 * 60 * 60) == 0 then Digits(sec / 86400) + "d"
            else if sec % (60 * 60) == 0 then Digits(sec / 3600) + "h"
            else Digits(sec / 60) + "m"
  {
  }
}
