/** The small HTTP subset (http_min.go): percent-encoding, the request head that `httpDo` prints and the
    parser that reads it. */
module HttpHead {
  import opened Util
  import opened Text

  const MAX_LINE: nat := 8192
  const MAX_HEADERS: nat := 32768

  // ---- percent-encoding -------------------------------------------------------------------------

  predicate Unreserved(c: char) {
    'a' <= c <= 'z' || 'A' <= c <= 'Z' || '0' <= c <= '9' || c == '-' || c == '_' || c == '.' || c == '~'
  }

  function HexChar(d: nat): (c: char)
    requires d < 16
    ensures Unreserved(c)
  {
    if d < 10 then ('0' as int + d) as char else ('A' as int + d - 10) as char
  }

  function HexValue(c: char): Option<nat> {
    if '0' <= c <= '9' then Some(c as int - '0' as int)
    else if 'a' <= c <= 'f' then Some(c as int - 'a' as int + 10)
    else if 'A' <= c <= 'F' then Some(c as int - 'A' as int + 10)
    else None
  }

  /** Two hex digits as one byte (`strconv.ParseUint(s, 16, 8)`). */
  function HexPair(a: char, b: char): (r: Option<char>)
    ensures r.Some? ==> IsByte(r.value)
  {
    if HexValue(a).Some? && HexValue(b).Some? then Some((16 * HexValue(a).value + HexValue(b).value) as char) else None
  }

  function EscapeChar(c: char): string {
    if Unreserved(c) || !IsByte(c) then [c] else ['%', HexChar(c as int / 16), HexChar(c as int % 16)]
  }

  function Escape(s: string): string {
    if s == "" then "" else Escape(s[..|s| - 1]) + EscapeChar(s[|s| - 1])
  }

  function Unescape(s: string): string
    decreases |s|
  {
    if s == "" then ""
    else if s[0] == '+' then " " + Unescape(s[1..])
    else if s[0] == '%' && |s| > 2 && HexPair(s[1], s[2]).Some? then [HexPair(s[1], s[2]).value] + Unescape(s[3..])
    else [s[0]] + Unescape(s[1..])
  }

  // ---- query strings -------------------------------------------------------------------------------

  datatype Param = Param(key: string, value: string)

  /** What one `key=value` of a query adds; anything without `=` is dropped. */
  function WithPair(m: map<string, string>, kv: string): map<string, string> {
    var h := Cut(kv, '=');
    if h.found then m[h.before := Unescape(h.after)] else m
  }

  function Pairs(kvs: seq<string>): map<string, string> {
    if kvs == [] then map[] else WithPair(Pairs(kvs[..|kvs| - 1]), kvs[|kvs| - 1])
  }

  datatype Target = Target(path: string, query: map<string, string>)

  function SplitQuery(target: string): Target {
    var h := Cut(target, '?');
    Target(Unescape(h.before), Pairs(Split(h.after, '&')))
  }

  // ---- parsing ---------------------------------------------------------------------------------------

  datatype Error =
    | CutShort | LineTooLong | HeadersTooLarge | Malformed
    | DuplicateLength | BadRequestLine | BadLength | BadEncoding

  datatype Result<T> = Ok(value: T) | Fail(error: Error)

  datatype Line = Line(text: string, rest: string)

  /** Up to and including the next newline. */
  function ReadLine(input: string): (r: Result<Line>)
    ensures r.Ok? ==> |r.value.rest| < |input|
  {
    var i := IndexOf(input, '\n');
    if i == |input| then Fail(CutShort)
    else if i + 1 > MAX_LINE then Fail(LineTooLong)
    else Ok(Line(input[..i + 1], input[i + 1..]))
  }

  type HeaderMap = map<string, string>

  datatype Headers = Headers(headers: HeaderMap, rest: string)

  /** One header line without its line end. */
  function WithHeader(m: HeaderMap, h: string): Result<HeaderMap> {
    var kv := Cut(h, ':');
    if !kv.found || Trim(kv.before) == "" then Fail(Malformed)
    else
      var k := Lower(Trim(kv.before));
      if k == "content-length" && k in m then Fail(DuplicateLength) else Ok(m[k := Trim(kv.after)])
  }

  /** One turn of the header loop: it ends, or it goes on with one header more. */
  datatype Turn = Stop(result: Result<Headers>) | Go(headers: HeaderMap, rest: string, total: nat)

  function HeaderTurn(input: string, m: HeaderMap, total: nat): (t: Turn)
    ensures t.Go? ==> |t.rest| < |input|
  {
    match ReadLine(input)
    case Fail(e) => Stop(Fail(e))
    case Ok(l) =>
      var n := total + |l.text|;
      var h := TrimEol(l.text);
      if n > MAX_HEADERS then Stop(Fail(HeadersTooLarge))
      else if h == "" then Stop(Ok(Headers(m, l.rest)))
      else
        match WithHeader(m, h)
        case Fail(e) => Stop(Fail(e))
        case Ok(m') => Go(m', l.rest, n)
  }

  function ReadHeaders(input: string, m: HeaderMap, total: nat): Result<Headers>
    decreases |input|
  {
    match HeaderTurn(input, m, total)
    case Stop(r) => r
    case Go(m', rest, total') => ReadHeaders(rest, m', total')
  }

  datatype Request = Request(verb: string, path: string, query: map<string, string>, headers: HeaderMap, length: nat)

  /** A request and the bytes behind its head; the body is the first `length` of them. */
  datatype Parsed = Parsed(request: Request, rest: string)

  function LengthOf(m: HeaderMap): Result<nat> {
    if "content-length" !in m then Ok(0) else
      var n := ParseInt(m["content-length"]);
      if n.None? || n.value < 0 then Fail(BadLength) else Ok(n.value)
  }

  predicate EncodingOk(m: HeaderMap) {
    "transfer-encoding" !in m || m["transfer-encoding"] == "" || Lower(m["transfer-encoding"]) == "identity"
  }

  function ReadRequest(input: string): Result<Parsed> {
    match ReadLine(input)
    case Fail(e) => Fail(e)
    case Ok(l) =>
      var parts := Fields(l.text);
      if |parts| < 2 then Fail(BadRequestLine) else
        match ReadHeaders(l.rest, map[], 0)
        case Fail(e) => Fail(e)
        case Ok(h) =>
          match LengthOf(h.headers)
          case Fail(e) => Fail(e)
          case Ok(n) =>
            if !EncodingOk(h.headers) then Fail(BadEncoding) else
              var t := SplitQuery(parts[1]);
              Ok(Parsed(Request(parts[0], t.path, t.query, h.headers, n), h.rest))
  }

  // ---- printing -----------------------------------------------------------------------------------------

  const EOL: string := "\r\n"

  datatype Header = Header(key: string, value: string)

  function HeaderLine(h: Header): (s: string)
    ensures |s| == |h.key| + |h.value| + 4
  {
    h.key + ": " + h.value + EOL
  }

  function HeaderLines(hs: seq<Header>): string {
    if hs == [] then "" else HeaderLine(hs[0]) + HeaderLines(hs[1..])
  }

  function ParamText(p: Param): string { p.key + "=" + Escape(p.value) }

  function ParamTexts(ps: seq<Param>): (r: seq<string>)
    ensures |r| == |ps|
    ensures forall i :: 0 <= i < |ps| ==> r[i] == ParamText(ps[i])
  {
    seq(|ps|, i requires 0 <= i < |ps| => ParamText(ps[i]))
  }

  /** A path and its query, values escaped. */
  function TargetText(path: string, ps: seq<Param>): string {
    path + "?" + Join(ParamTexts(ps), '&')
  }

  /** What `httpDo` sends ahead of a body of known length, the given headers in map order. */
  function AllHeaders(addr: string, hs: seq<Header>, length: Option<nat>): seq<Header> {
    [Header("Host", addr), Header("Connection", "close")] + hs +
    if length.Some? then [Header("Content-Length", Digits(length.value)), Header("Expect", "100-continue")] else []
  }

  function RequestLine(verb: string, target: string): string { verb + " " + target + " HTTP/1.1" + EOL }

  function HeadText(verb: string, target: string, addr: string, hs: seq<Header>, length: Option<nat>): string {
    RequestLine(verb, target) + HeaderLines(AllHeaders(addr, hs, length)) + EOL
  }
}
