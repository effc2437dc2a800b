/** Escaping and unescaping, and printing and parsing a request head, undo each other. */
module HttpProof {
  import opened Util
  import opened Text
  import opened HttpHead

  // ---- percent-encoding --------------------------------------------------------------------------

  /** Letters, digits, `-_.~` and `%`: nothing that separates the parts of a request line or a query. */
  predicate Plain(c: char) { Unreserved(c) || c == '%' }

  lemma {:induction false} EscapePlain(s: string)
    requires IsBytes(s)
    ensures forall c :: c in Escape(s) ==> Plain(c)
  {
    if s != "" {
      assert s[|s| - 1] in s && forall c :: c in s[..|s| - 1] ==> c in s;
      EscapePlain(s[..|s| - 1]);
    }
  }

  lemma {:induction false} EscapeHead(c: char, s: string)
    ensures Escape([c] + s) == EscapeChar(c) + Escape(s)
  {
    if s == "" {
      assert [c] + s == [c];
      assert [c][..0] == "";
      assert Escape([c][..0]) == "";
    } else {
      var n := |s| - 1;
      assert ([c] + s)[..n + 1] == [c] + s[..n];
      EscapeHead(c, s[..n]);
    }
  }

  lemma UnescapeOne(c: char, s: string)
    requires IsByte(c)
    ensures Unescape(EscapeChar(c) + s) == [c] + Unescape(s)
  {
    var e := EscapeChar(c) + s;
    if Unreserved(c) {
      assert e[0] == c && e[1..] == s;
    } else {
      assert e[0] == '%' && e[1] == HexChar(c as int / 16) && e[2] == HexChar(c as int % 16) && e[3..] == s;
    }
  }

  /** Whatever bytes a value holds, unescaping its escaped form gives them back, and the escaped form has
      no separator in it. */
  lemma {:induction false} UnescapeEscape(s: string)
    requires IsBytes(s)
    ensures Unescape(Escape(s)) == s
    ensures forall c :: c in Escape(s) ==> Plain(c)
    decreases |s|
  {
    EscapePlain(s);
    if s != "" {
      assert s == [s[0]] + s[1..];
      assert s[0] in s && forall c :: c in s[1..] ==> c in s;
      EscapeHead(s[0], s[1..]);
      UnescapeOne(s[0], Escape(s[1..]));
      UnescapeEscape(s[1..]);
    }
  }

  /** Text without `%` and `+` stands for itself. */
  lemma {:induction false} UnescapeNothing(s: string)
    requires '%' !in s && '+' !in s
    ensures Unescape(s) == s
    decreases |s|
  {
    if s != "" {
      assert s == [s[0]] + s[1..];
      assert forall c :: c in s[1..] ==> c in s;
      UnescapeNothing(s[1..]);
    }
  }

  // ---- queries ----------------------------------------------------------------------------------------

  predicate KeyOk(k: string) { '=' !in k && '&' !in k && forall c :: c in k ==> !IsSpace(c) }

  ghost predicate ParamsOk(ps: seq<Param>) {
    forall i :: 0 <= i < |ps| ==> KeyOk(ps[i].key) && IsBytes(ps[i].value)
  }

  /** The map a list of parameters stands for; the last one of a name wins. */
  function AsMap(ps: seq<Param>): map<string, string> {
    if ps == [] then map[] else AsMap(ps[..|ps| - 1])[ps[|ps| - 1].key := ps[|ps| - 1].value]
  }

  lemma PairRead(m: map<string, string>, p: Param)
    requires KeyOk(p.key) && IsBytes(p.value)
    ensures WithPair(m, ParamText(p)) == m[p.key := p.value]
  {
    assert ParamText(p) == p.key + ['='] + Escape(p.value);
    CutAt(p.key, '=', Escape(p.value));
    UnescapeEscape(p.value);
  }

  lemma {:induction false} PairsRead(ps: seq<Param>)
    requires ParamsOk(ps)
    ensures Pairs(ParamTexts(ps)) == AsMap(ps)
  {
    if ps != [] {
      var n := |ps| - 1;
      assert ParamTexts(ps)[..n] == ParamTexts(ps[..n]);
      PairsRead(ps[..n]);
      PairRead(AsMap(ps[..n]), ps[n]);
    }
  }

  lemma ParamTextOk(p: Param)
    requires KeyOk(p.key) && IsBytes(p.value)
    ensures '&' !in ParamText(p) && forall c :: c in ParamText(p) ==> !IsSpace(c)
  {
    EscapePlain(p.value);
  }

  ghost predicate PathOk(path: string) {
    '?' !in path && '%' !in path && '+' !in path && path != "" && forall c :: c in path ==> !IsSpace(c)
  }

  /** The target that was printed splits into the same path and the same parameters. */
  lemma TargetRoundTrip(path: string, ps: seq<Param>)
    requires PathOk(path) && ParamsOk(ps)
    ensures SplitQuery(TargetText(path, ps)) == Target(path, AsMap(ps))
  {
    var q := Join(ParamTexts(ps), '&');
    assert TargetText(path, ps) == path + ['?'] + q;
    CutAt(path, '?', q);
    UnescapeNothing(path);
    forall t | t in ParamTexts(ps) ensures '&' !in t {
      var i :| 0 <= i < |ps| && ParamTexts(ps)[i] == t;
      ParamTextOk(ps[i]);
    }
    if ps == [] {
      assert ParamTexts(ps) == [] && Split("", '&') == [""];
      assert [""][..0] == [] && Pairs([""]) == WithPair(map[], "");
    } else {
      SplitJoin(ParamTexts(ps), '&');
      PairsRead(ps);
    }
  }

  lemma {:induction false} JoinNoSpace(parts: seq<string>)
    requires forall p :: p in parts ==> forall c :: c in p ==> !IsSpace(c)
    ensures forall c :: c in Join(parts, '&') ==> !IsSpace(c)
    decreases |parts|
  {
    if |parts| > 0 {
      assert parts[0] in parts && forall p :: p in parts[1..] ==> p in parts;
      if |parts| > 1 {
        JoinNoSpace(parts[1..]);
      }
    }
  }

  lemma TargetIsWord(path: string, ps: seq<Param>)
    requires PathOk(path) && ParamsOk(ps)
    ensures IsWord(TargetText(path, ps))
  {
    forall t | t in ParamTexts(ps) ensures forall c :: c in t ==> !IsSpace(c) {
      var i :| 0 <= i < |ps| && ParamTexts(ps)[i] == t;
      ParamTextOk(ps[i]);
    }
    JoinNoSpace(ParamTexts(ps));
  }

  // ---- lines ------------------------------------------------------------------------------------------------

  lemma LineRead(text: string, rest: string)
    requires '\n' !in text && |text| + 2 <= MAX_LINE
    ensures ReadLine(text + EOL + rest) == Ok(Line(text + EOL, rest))
  {
    var s := text + EOL + rest;
    assert s == (text + ['\r']) + ['\n'] + rest;
    IndexAfter(text + ['\r'], '\n', rest);
    assert s[..|text| + 2] == text + EOL && s[|text| + 2..] == rest;
  }

  lemma {:induction false} TrimEolEol(s: string)
    requires s == "" || (s[|s| - 1] != '\r' && s[|s| - 1] != '\n')
    ensures TrimEol(s + EOL) == s
  {
    var a := s + ['\r'];
    assert (s + EOL)[..|s + EOL| - 1] == a;
    assert a[..|a| - 1] == s;
    assert TrimEol(s) == s;
    assert TrimEol(a) == s;
  }

  // ---- headers ----------------------------------------------------------------------------------------------

  /** A header that survives: its name is not blank and has neither colon nor line break, its value no line
      break. */
  ghost predicate HeaderOk(h: Header) {
    ':' !in h.key && '\n' !in h.key && Trim(h.key) != "" && '\n' !in h.value && |HeaderLine(h)| <= MAX_LINE
  }

  function NameOf(h: Header): string { Lower(Trim(h.key)) }

  function Read(hs: seq<Header>, m: HeaderMap): HeaderMap
    decreases |hs|
  {
    if hs == [] then m else Read(hs[1..], m[NameOf(hs[0]) := Trim(hs[0].value)])
  }

  /** Carriage returns at the end of a value go with the line end, as trimming would have taken them. */
  lemma {:induction false} TrimEolKeepsTrim(pre: string, v: string)
    requires '\n' !in v && pre != "" && pre[|pre| - 1] == ' ' && '\n' !in pre
    ensures |TrimEol(pre + v + EOL)| >= |pre| && TrimEol(pre + v + EOL)[..|pre|] == pre
    ensures TrimRight(TrimEol(pre + v + EOL)[|pre|..]) == TrimRight(v)
    decreases |v|
  {
    if v != "" && v[|v| - 1] == '\r' {
      var u := v[..|v| - 1];
      TrimEolKeepsTrim(pre, u);
      TrimEolCr(pre + u);
      assert pre + v == pre + u + ['\r'];
      assert pre + v + EOL == (pre + u + ['\r']) + EOL;
      assert TrimRight(v) == TrimRight(u);
    } else {
      var s := pre + v;
      if v != "" {
        assert s[|s| - 1] == v[|v| - 1] && v[|v| - 1] in v;
      } else {
        assert s == pre;
      }
      TrimEolEol(s);
      assert s[..|pre|] == pre && s[|pre|..] == v;
    }
  }

  lemma {:induction false} TrimEolCr(s: string)
    ensures TrimEol(s + ['\r'] + EOL) == TrimEol(s + EOL)
  {
    var a := s + ['\r'] + EOL;
    assert a[..|a| - 1] == s + ['\r'] + ['\r'];
    assert (s + ['\r'] + ['\r'])[..|s| + 1] == s + ['\r'];
    assert (s + ['\r'])[..|s|] == s;
    assert (s + EOL)[..|s| + 1] == s + ['\r'];
  }

  lemma {:induction false} TrimLeftRight(s: string)
    ensures Trim(s) == TrimLeft(TrimRight(s))
    decreases |s|
  {
    if s == "" {
    } else if IsSpace(s[0]) {
      TrimLeftRight(s[1..]);
      TrimRightTail(s);
    } else {
      TrimRightHead(s);
    }
  }

  lemma {:induction false} TrimRightHead(s: string)
    requires s != "" && !IsSpace(s[0])
    ensures TrimRight(s) != "" && TrimRight(s)[0] == s[0]
  {
    if IsSpace(s[|s| - 1]) {
      TrimRightHead(s[..|s| - 1]);
    }
  }

  lemma {:induction false} TrimRightTail(s: string)
    requires s != "" && IsSpace(s[0])
    ensures TrimLeft(TrimRight(s)) == TrimLeft(TrimRight(s[1..]))
  {
    if |s| > 1 && IsSpace(s[|s| - 1]) {
      assert s[1..][..|s| - 2] == s[..|s| - 1][1..];
      TrimRightTail(s[..|s| - 1]);
    } else if |s| == 1 {
      assert s[..0] == "";
      assert TrimRight(s[..0]) == "";
    } else {
      assert TrimRight(s) == s && TrimRight(s[1..]) == s[1..];
    }
  }

  lemma TrimBlank(v: string)
    ensures Trim([' '] + v) == Trim(v)
  {
    assert ([' '] + v)[1..] == v;
  }

  lemma SameTrim(v: string, w: string)
    requires TrimRight(v) == TrimRight(w)
    ensures Trim(v) == Trim(w)
  {
    TrimLeftRight(v);
    TrimLeftRight(w);
  }

  lemma ColonBlank(key: string, v: string)
    ensures key + ": " + v == key + [':'] + ([' '] + v)
  {
    assert ": " == [':'] + [' '];
  }

  lemma CutColon(t: string, key: string, v: string)
    requires t == key + ": " + v && ':' !in key
    ensures Cut(t, ':') == Halves(key, [' '] + v, true)
  {
    ColonBlank(key, v);
    CutAt(key, ':', [' '] + v);
  }

  /** The line without its end: the name, the colon, a blank and a value that trims to the original one. */
  lemma HeaderTrimmed(h: Header) returns (v: string)
    requires '\n' !in h.key && '\n' !in h.value
    ensures TrimEol(HeaderLine(h)) == h.key + ": " + v && TrimRight(v) == TrimRight(h.value)
  {
    var pre := h.key + ": ";
    TrimEolKeepsTrim(pre, h.value);
    v := TrimEol(pre + h.value + EOL)[|pre|..];
    assert TrimEol(pre + h.value + EOL) == pre + v;
  }

  lemma HeaderCut(h: Header)
    requires HeaderOk(h)
    ensures var kv := Cut(TrimEol(HeaderLine(h)), ':');
            kv.found && kv.before == h.key && Trim(kv.after) == Trim(h.value)
  {
    var v := HeaderTrimmed(h);
    CutColon(TrimEol(HeaderLine(h)), h.key, v);
    TrimBlank(v);
    SameTrim(v, h.value);
  }

  lemma HeaderRead(m: HeaderMap, h: Header)
    requires HeaderOk(h) && !(NameOf(h) == "content-length" && NameOf(h) in m)
    ensures TrimEol(HeaderLine(h)) != ""
    ensures WithHeader(m, TrimEol(HeaderLine(h))) == Ok(m[NameOf(h) := Trim(h.value)])
  {
    HeaderCut(h);
    CutNowhere("", ':');
  }

  ghost predicate HeadersOk(hs: seq<Header>, m: HeaderMap) {
    && (forall i :: 0 <= i < |hs| ==> HeaderOk(hs[i]) && !(NameOf(hs[i]) == "content-length" && "content-length" in m))
    && forall i, j :: 0 <= i < j < |hs| ==> !(NameOf(hs[i]) == "content-length" && NameOf(hs[j]) == "content-length")
  }

  lemma GoesOn(input: string, line: string, rest: string, m: HeaderMap, m2: HeaderMap, total: nat, n: nat)
    requires ReadLine(input) == Ok(Line(line, rest)) && TrimEol(line) != "" && WithHeader(m, TrimEol(line)) == Ok(m2)
    requires n == total + |line| && n <= MAX_HEADERS
    ensures HeaderTurn(input, m, total) == Go(m2, rest, n)
  {
    var t := HeaderTurn(input, m, total);
    assert t.Go?;
    assert t.total == n && t.rest == rest;
    assert t.headers == m2;
  }

  /** One header more; `m2` and `n` are the map and the count after it. */
  lemma TurnIs(h: Header, line: string, input: string, rest: string, m: HeaderMap, m2: HeaderMap, total: nat, n: nat)
    requires HeaderOk(h) && !(NameOf(h) == "content-length" && NameOf(h) in m) && line == HeaderLine(h)
    requires ReadLine(input) == Ok(Line(line, rest)) && n == total + |line| && n <= MAX_HEADERS
    requires m2 == m[NameOf(h) := Trim(h.value)]
    ensures HeaderTurn(input, m, total) == Go(m2, rest, n)
  {
    HeaderRead(m, h);
    GoesOn(input, line, rest, m, m2, total, n);
  }

  lemma Unroll(input: string, rest: string, m: HeaderMap, m': HeaderMap, total: nat, total': nat)
    requires HeaderTurn(input, m, total) == Go(m', rest, total')
    ensures ReadHeaders(input, m, total) == ReadHeaders(rest, m', total')
  {
  }

  lemma LastTurn(input: string, rest: string, m: HeaderMap, total: nat)
    requires ReadLine(input) == Ok(Line(EOL, rest)) && total + 2 <= MAX_HEADERS
    ensures ReadHeaders(input, m, total) == Ok(Headers(m, rest))
  {
    TrimEolEol("");
    assert "" + EOL == EOL;
  }

  lemma HeaderLineRead(h: Header, rest: string)
    requires HeaderOk(h)
    ensures ReadLine(HeaderLine(h) + rest) == Ok(Line(HeaderLine(h), rest))
  {
    LineRead(h.key + ": " + h.value, rest);
  }

  lemma BlankLineRead(body: string)
    ensures ReadLine(EOL + body) == Ok(Line(EOL, body))
  {
    LineRead("", body);
    assert "" + EOL == EOL;
  }

  lemma Assoc(a: string, b: string, c: string)
    ensures a + b + c == a + (b + c)
  {
  }

  lemma {:induction false} HeadersRead(hs: seq<Header>, tail: string, input: string, m: HeaderMap, total: nat,
      body: string)
    requires HeadersOk(hs, m) && total + |HeaderLines(hs)| + 2 <= MAX_HEADERS
    requires tail == EOL + body && input == HeaderLines(hs) + tail
    ensures ReadHeaders(input, m, total) == Ok(Headers(Read(hs, m), body))
    decreases |hs|
  {
    if hs == [] {
      assert input == tail;
      BlankLineRead(body);
      LastTurn(input, body, m, total);
    } else {
      var line := HeaderLine(hs[0]);
      var rest := HeaderLines(hs[1..]) + tail;
      var m2, n := m[NameOf(hs[0]) := Trim(hs[0].value)], total + |line|;
      Assoc(line, HeaderLines(hs[1..]), tail);
      HeaderLineRead(hs[0], rest);
      TurnIs(hs[0], line, input, rest, m, m2, total, n);
      Unroll(input, rest, m, m2, total, n);
      TailOk(hs, m);
      HeadersRead(hs[1..], tail, rest, m2, n, body);
    }
  }

  lemma TailOk(hs: seq<Header>, m: HeaderMap)
    requires HeadersOk(hs, m) && hs != []
    ensures HeadersOk(hs[1..], m[NameOf(hs[0]) := Trim(hs[0].value)])
  {
    var m2, rest := m[NameOf(hs[0]) := Trim(hs[0].value)], hs[1..];
    forall i | 0 <= i < |rest|
      ensures HeaderOk(rest[i]) && !(NameOf(rest[i]) == "content-length" && "content-length" in m2)
    {
      assert rest[i] == hs[i + 1] && HeaderOk(hs[i + 1]);
      assert "content-length" in m2 ==> "content-length" in m || NameOf(hs[0]) == "content-length";
    }
    forall i, j | 0 <= i < j < |rest|
      ensures !(NameOf(rest[i]) == "content-length" && NameOf(rest[j]) == "content-length")
    {
      assert rest[i] == hs[i + 1] && rest[j] == hs[j + 1];
    }
  }

  // ---- the whole head -----------------------------------------------------------------------------------------

  /** The head fits the limits of the reader, and its headers are ones it accepts. */
  ghost predicate HeadFits(verb: string, target: string, addr: string, hs: seq<Header>, length: Option<nat>) {
    && |RequestLine(verb, target)| <= MAX_LINE
    && (length.Some? ==> length.value <= MAX_INT64)
    && HeadersOk(AllHeaders(addr, hs, length), map[])
    && |HeaderLines(AllHeaders(addr, hs, length))| + 2 <= MAX_HEADERS
  }

  lemma WordThenBlank(w: string, rest: string)
    requires IsWord(w)
    ensures Fields(w + ([' '] + rest)) == [w] + Fields(rest)
  {
    FieldsWord(w, [' '] + rest);
    FieldsBlank(' ', rest);
  }

  lemma Version()
    ensures Fields("HTTP/1.1" + EOL) == ["HTTP/1.1"]
  {
    FieldsWord("HTTP/1.1", EOL);
    assert EOL == ['\r'] + (['\n'] + "");
    FieldsBlank('\r', ['\n'] + "");
    FieldsBlank('\n', "");
  }

  lemma LineWords(verb: string, target: string)
    requires IsWord(verb) && IsWord(target)
    ensures Fields(RequestLine(verb, target)) == [verb, target, "HTTP/1.1"]
  {
    var version := "HTTP/1.1" + EOL;
    assert RequestLine(verb, target) == verb + ([' '] + (target + ([' '] + version)));
    WordThenBlank(verb, target + ([' '] + version));
    WordThenBlank(target, version);
    Version();
  }

  lemma RequestLineRead(verb: string, target: string, rest: string)
    requires IsWord(verb) && IsWord(target) && |RequestLine(verb, target)| <= MAX_LINE
    ensures ReadLine(RequestLine(verb, target) + rest) == Ok(Line(RequestLine(verb, target), rest))
  {
    var text := verb + " " + target + " HTTP/1.1";
    assert '\n' !in verb && '\n' !in target;
    assert '\n' !in text;
    LineRead(text, rest);
  }

  /** The head that was printed is read back line by line, whatever follows it. */
  lemma HeadRead(verb: string, target: string, addr: string, hs: seq<Header>, length: Option<nat>, body: string)
    requires IsWord(verb) && IsWord(target) && HeadFits(verb, target, addr, hs, length)
    ensures var input := HeadText(verb, target, addr, hs, length) + body;
            var rest := HeaderLines(AllHeaders(addr, hs, length)) + (EOL + body);
            && ReadLine(input) == Ok(Line(RequestLine(verb, target), rest))
            && ReadHeaders(rest, map[], 0) == Ok(Headers(Read(AllHeaders(addr, hs, length), map[]), body))
  {
    var lines := HeaderLines(AllHeaders(addr, hs, length));
    var line := RequestLine(verb, target);
    Assoc(line, lines, EOL);
    Assoc(line, lines + EOL, body);
    Assoc(lines, EOL, body);
    RequestLineRead(verb, target, lines + (EOL + body));
    HeadersRead(AllHeaders(addr, hs, length), EOL + body, lines + (EOL + body), map[], 0, body);
  }
}
