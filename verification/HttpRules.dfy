/** What the parser accepts and what it refuses, line by line. */
module HttpRules {
  import opened Util
  import opened Text
  import opened HttpHead
  import opened HttpProof

  // ---- percent-encoding --------------------------------------------------------------------------

  /** A plus is a blank, two hex digits after a percent sign are a byte, and everything else is itself. */
  lemma UnescapeHead(c: char, rest: string)
    ensures c == '+' ==> Unescape([c] + rest) == " " + Unescape(rest)
    ensures c != '+' && c != '%' ==> Unescape([c] + rest) == [c] + Unescape(rest)
    ensures c == '%' && |rest| >= 2 && HexPair(rest[0], rest[1]).Some? ==>
            Unescape([c] + rest) == [HexPair(rest[0], rest[1]).value] + Unescape(rest[2..])
    ensures c == '%' && (|rest| < 2 || HexPair(rest[0], rest[1]).None?) ==> Unescape([c] + rest) == "%" + Unescape(rest)
    ensures Unescape("") == ""
  {
    var s := [c] + rest;
    assert s[1..] == rest && (|rest| >= 2 ==> s[3..] == rest[2..]);
  }

  /** Hex digits in either case. */
  lemma HexDigits(d: nat, c: char)
    requires d < 10
    ensures HexValue(('0' as int + d) as char) == Some(d)
    ensures d < 6 ==> HexValue(('a' as int + d) as char) == HexValue(('A' as int + d) as char) == Some(10 + d)
    ensures HexValue(c).Some? <==> '0' <= c <= '9' || 'a' <= c <= 'f' || 'A' <= c <= 'F'
  {
  }

  lemma HexByte(a: char, b: char)
    ensures HexPair(a, b).Some? <==> HexValue(a).Some? && HexValue(b).Some?
    ensures HexPair(a, b).Some? ==> HexPair(a, b).value as int == 16 * HexValue(a).value + HexValue(b).value
  {
  }

  /** What escaping leaves as it is: letters, digits and four marks. */
  lemma EscapeExact(c: char)
    requires IsByte(c)
    ensures Unreserved(c) ==> EscapeChar(c) == [c]
    ensures !Unreserved(c) ==> |EscapeChar(c)| == 3 && EscapeChar(c)[0] == '%'
                               && HexPair(EscapeChar(c)[1], EscapeChar(c)[2]) == Some(c)
    ensures Unreserved(c) <==>
            || 'a' <= c <= 'z' || 'A' <= c <= 'Z' || '0' <= c <= '9' || c == '-' || c == '_' || c == '.' || c == '~'
  {
  }

  /** A query part without `=` says nothing; a later value replaces an earlier one. */
  lemma PairExact(m: map<string, string>, k: string, v: string)
    requires '=' !in k
    ensures WithPair(m, k) == m
    ensures WithPair(m, k + "=" + v) == m[k := Unescape(v)]
  {
    CutNowhere(k, '=');
    CutAt(k, '=', v);
    assert k + "=" + v == k + ['='] + v;
  }

  // ---- lines -----------------------------------------------------------------------------------------

  /** A line ends at the first newline and has at most 8192 bytes with it. */
  lemma LineExact(a: string, b: string)
    requires '\n' !in a
    ensures ReadLine(a) == Fail(CutShort)
    ensures ReadLine(a + "\n" + b) == if |a| + 1 > 8192 then Fail(LineTooLong) else Ok(Line(a + "\n", b))
  {
    var s := a + ['\n'] + b;
    assert a + "\n" + b == s;
    IndexAfter(a, '\n', b);
    assert s[..|a| + 1] == a + ['\n'] && s[|a| + 1..] == b;
    assert forall i :: 0 <= i < |a| ==> a[i] in a;
  }

  /** A header has a colon and a name; its name is lowered, its value trimmed, and a second content length is
      refused. */
  lemma HeaderExact(m: HeaderMap, k: string, v: string)
    requires ':' !in k
    ensures WithHeader(m, k) == Fail(Malformed)
    ensures WithHeader(m, k + ":" + v) ==
            (if Trim(k) == "" then Fail(Malformed)
             else if Lower(Trim(k)) == "content-length" && "content-length" in m then Fail(DuplicateLength)
             else Ok(m[Lower(Trim(k)) := Trim(v)]))
  {
    CutNowhere(k, ':');
    CutAt(k, ':', v);
    assert k + ":" + v == k + [':'] + v;
  }

  /** The head ends at a blank line; all its lines together have at most 32768 bytes. */
  lemma TurnExact(input: string, m: HeaderMap, total: nat)
    ensures var t := HeaderTurn(input, m, total);
            match ReadLine(input)
            case Fail(e) => t == Stop(Fail(e))
            case Ok(l) =>
              if total + |l.text| > 32768 then t == Stop(Fail(HeadersTooLarge))
              else if TrimEol(l.text) == "" then t == Stop(Ok(Headers(m, l.rest)))
              else
                match WithHeader(m, TrimEol(l.text))
                case Fail(e) => t == Stop(Fail(e))
                case Ok(m2) => t == Go(m2, l.rest, total + |l.text|)
  {
  }

  // ---- what the headers say ----------------------------------------------------------------------------

  /** No content length is 0; one that is no number, is negative or is beyond 64 bits is refused. */
  lemma LengthExact(m: HeaderMap)
    ensures "content-length" !in m ==> LengthOf(m) == Ok(0)
    ensures "content-length" in m ==>
            (var n := ParseInt(m["content-length"]);
             LengthOf(m) == if n.Some? && n.value >= 0 then Ok(n.value) else Fail(BadLength))
  {
  }

  lemma SignedNumbers(n: nat)
    requires n <= MAX_INT64
    ensures ParseInt(Digits(n)) == ParseInt("+" + Digits(n)) == Some(n) && ParseInt("-" + Digits(n)) == Some(0 - n)
    ensures ParseInt("") == None
  {
    PrintedParses(n);
    DigitsRead(n);
    assert ("+" + Digits(n))[1..] == Digits(n) && ("-" + Digits(n))[1..] == Digits(n);
  }

  lemma {:induction false} OnlyDigits(s: string)
    ensures DigitsValue(s).Some? <==> s != "" && forall c :: c in s ==> IsDigit(c)
  {
    if s != "" {
      OnlyDigits(s[..|s| - 1]);
      assert s == s[..|s| - 1] + [s[|s| - 1]];
    }
  }

  lemma NumbersAreDigits(s: string)
    ensures ParseInt(s).Some? ==>
            s != "" && (var t := if s[0] == '-' || s[0] == '+' then s[1..] else s; t != "" && forall c :: c in t ==>
              IsDigit(c))
    ensures ParseInt(s).Some? ==> -MAX_INT64 - 1 <= ParseInt(s).value <= MAX_INT64
  {
    if s != "" {
      OnlyDigits(s[1..]);
      OnlyDigits(s);
      Unsigned(s);
      Unsigned(s[1..]);
    }
  }

  lemma {:induction false} Unsigned(s: string)
    ensures DigitsValue(s).Some? ==> DigitsValue(s).value >= 0
  {
    if s != "" { Unsigned(s[..|s| - 1]); }
  }

  /** Bodies come plain: any transfer encoding but `identity` is refused. */
  lemma EncodingExact(m: HeaderMap)
    ensures EncodingOk(m) <==>
            ("transfer-encoding" in m && m["transfer-encoding"] != "" ==> Lower(m["transfer-encoding"]) == "identity")
  {
  }

  /** What is refused, and with what error: the first of line, request line, headers, length and encoding that
      is wrong. */
  lemma RefusedExact(input: string)
    ensures var r := ReadRequest(input);
            match ReadLine(input)
            case Fail(e) => r == Fail(e)
            case Ok(l) =>
              var words := Fields(l.text);
              var h := ReadHeaders(l.rest, map[], 0);
              if |words| < 2 then r == Fail(BadRequestLine)
              else if h.Fail? then r == Fail(h.error)
              else if LengthOf(h.value.headers).Fail? then r == Fail(BadLength)
              else if !EncodingOk(h.value.headers) then r == Fail(BadEncoding)
              else
                && r.Ok? && r.value.rest == h.value.rest
                && r.value.request.verb == words[0] && r.value.request.headers == h.value.headers
                && r.value.request.path == SplitQuery(words[1]).path &&
                  r.value.request.query == SplitQuery(words[1]).query
                && Ok(r.value.request.length) == LengthOf(h.value.headers)
  {
  }

  // ---- characters and numbers ----------------------------------------------------------------------------

  /** Blank, tab, newline, vertical tab, form feed and carriage return. */
  lemma BlanksExact(c: char)
    ensures IsSpace(c) <==>
            c as int == 9 || c as int == 10 || c as int == 11 || c as int == 12 || c as int == 13 || c as int == 32
    ensures IsDigit(c) <==> 48 <= c as int <= 57
  {
  }

  lemma LowerExact(i: nat, c: char)
    requires i < 26
    ensures LowerChar(('A' as int + i) as char) == ('a' as int + i) as char
    ensures c < 'A' || c > 'Z' ==> LowerChar(c) == c
  {
  }

  /** Numbers are read up to the bounds of 64 bits and no further. */
  lemma NumberExact(s: string)
    requires s != "" && forall c :: c in s ==> IsDigit(c)
    ensures DigitsValue(s).Some?
    ensures ParseInt(s) == if DigitsValue(s).value <= MAX_INT64 then DigitsValue(s) else None
    ensures ParseInt("+" + s) == ParseInt(s)
    ensures ParseInt("-" + s) == if DigitsValue(s).value <= MAX_INT64 + 1 then Some(0 - DigitsValue(s).value) else None
  {
    OnlyDigits(s);
    assert s[0] in s;
    assert ("+" + s)[1..] == s && ("-" + s)[1..] == s;
  }
}
