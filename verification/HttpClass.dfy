/** The loops of http_min.go: escaping into a builder, unescaping by index, and a reader that the header
    loop consumes line by line. */
module HttpClass {
  import opened Util
  import opened Text
  import opened HttpHead
  import opened HttpProof

  method EscapeText(s: string) returns (b: string)
    ensures b == Escape(s)
  {
    b := "";
    var i := 0;
    while i < |s|
      invariant 0 <= i <= |s|
      invariant b == Escape(s[..i])
    {
      var c := s[i];
      assert s[..i + 1] == s[..i] + [c];
      assert s[..i + 1][..|s[..i + 1]| - 1] == s[..i];
      if Unreserved(c) || !IsByte(c) {
        b := b + [c];
      } else {
        b := b + ['%', HexChar(c as int / 16), HexChar(c as int % 16)];
      }
      i := i + 1;
    }
    assert s[..|s|] == s;
  }

  /** What unescaping makes of the byte at `i`, and where it goes on. */
  function Decoded(s: string, i: nat): (char, nat)
    requires i < |s|
  {
    if s[i] == '+' then (' ', i + 1)
    else if s[i] == '%' && i + 2 < |s| && HexPair(s[i + 1], s[i + 2]).Some?
      then (HexPair(s[i + 1], s[i + 2]).value, i + 3)
    else (s[i], i + 1)
  }

  lemma DecodedNext(s: string, i: nat)
    requires i < |s|
    ensures Unescape(s[i..]) == [Decoded(s, i).0] + Unescape(s[Decoded(s, i).1..])
  {
    var rest := s[i..];
    assert rest[0] == s[i] && rest[1..] == s[i + 1..];
    if i + 2 < |s| {
      assert rest[1] == s[i + 1] && rest[2] == s[i + 2] && rest[3..] == s[i + 3..];
    }
  }

  lemma OneMoreByte(b: string, c: char, tail: string)
    ensures b + ([c] + tail) == b + [c] + tail
  {
  }

  /** Text without `%` and `+` is returned as it is; otherwise one pass over the bytes. */
  method UnescapeText(s: string) returns (b: string)
    ensures b == Unescape(s)
  {
    if '%' !in s && '+' !in s {
      UnescapeNothing(s);
      return s;
    }
    b := "";
    var i := 0;
    while i < |s|
      invariant 0 <= i <= |s|
      invariant Unescape(s) == b + Unescape(s[i..])
    {
      DecodedNext(s, i);
      OneMoreByte(b, Decoded(s, i).0, Unescape(s[Decoded(s, i).1..]));
      if s[i] == '+' {
        b := b + [' '];
      } else if s[i] == '%' && i + 2 < |s| {
        var v := HexPair(s[i + 1], s[i + 2]);
        if v.Some? {
          b := b + [v.value];
          i := i + 2;
        } else {
          b := b + ['%'];
        }
      } else {
        b := b + [s[i]];
      }
      i := i + 1;
    }
  }

  lemma PairsOneMore(kvs: seq<string>, i: nat)
    requires i < |kvs|
    ensures Pairs(kvs[..i + 1]) == WithPair(Pairs(kvs[..i]), kvs[i])
  {
    assert kvs[..i + 1][..i] == kvs[..i] && kvs[..i + 1][i] == kvs[i];
  }

  method SplitTarget(target: string) returns (t: Target)
    ensures t == SplitQuery(target)
  {
    var h := Cut(target, '?');
    var kvs := Split(h.after, '&');
    var m: map<string, string> := map[];
    var i := 0;
    while i < |kvs|
      invariant 0 <= i <= |kvs|
      invariant m == Pairs(kvs[..i])
    {
      PairsOneMore(kvs, i);
      var kv := Cut(kvs[i], '=');
      if kv.found {
        var v := UnescapeText(kv.after);
        m := m[kv.before := v];
      }
      i := i + 1;
    }
    assert kvs[..|kvs|] == kvs;
    var path := UnescapeText(h.before);
    t := Target(path, m);
  }

  class HeadReader {
    var rest: string

    constructor (input: string)
      ensures rest == input
    {
      rest := input;
    }

    method NextLine() returns (r: Result<string>)
      modifies this
      ensures match ReadLine(old(rest))
              case Ok(l) => r == Ok(l.text) && rest == l.rest
              case Fail(e) => r == Fail(e) && rest == old(rest)
    {
      var i := IndexOf(rest, '\n');
      if i == |rest| {
        return Fail(CutShort);
      }
      if i + 1 > MAX_LINE {
        return Fail(LineTooLong);
      }
      var line := rest[..i + 1];
      rest := rest[i + 1..];
      r := Ok(line);
    }

    /** Line by line to the blank line that ends the head. */
    method NextHeaders() returns (r: Result<HeaderMap>)
      modifies this
      ensures match ReadHeaders(old(rest), map[], 0)
              case Ok(h) => r == Ok(h.headers) && rest == h.rest
              case Fail(e) => r == Fail(e)
    {
      ghost var whole := ReadHeaders(rest, map[], 0);
      var m: HeaderMap := map[];
      var total: nat := 0;
      while true
        invariant ReadHeaders(rest, m, total) == whole
        decreases |rest|
      {
        ghost var turn := HeaderTurn(rest, m, total);
        var l := NextLine();
        if l.Fail? {
          return Fail(l.error);
        }
        total := total + |l.value|;
        if total > MAX_HEADERS {
          return Fail(HeadersTooLarge);
        }
        var h := TrimEol(l.value);
        if h == "" {
          return Ok(m);
        }
        var next := WithHeader(m, h);
        if next.Fail? {
          return Fail(next.error);
        }
        m := next.value;
        assert turn == Go(m, rest, total);
      }
    }
  }
}
