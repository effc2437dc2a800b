/** The request that `httpDo` prints for an upload is the request that the hub reads. */
module RequestProof {
  import opened Util
  import opened Text
  import opened HttpHead
  import opened HttpProof

  // ---- names ---------------------------------------------------------------------------------------

  lemma TrimWord(s: string)
    requires s != "" && !IsSpace(s[0]) && !IsSpace(s[|s| - 1])
    ensures Trim(s) == s
  {
  }

  lemma LengthName()
    ensures Lower("Content-Length") == "content-length"
  {
    var s, t := "Content-Length", "content-length";
    assert Lower(s)[..4] == t[..4];
    assert Lower(s)[4..8] == t[4..8];
    assert Lower(s)[8..12] == t[8..12];
    assert Lower(s)[12..] == t[12..];
    assert Lower(s) == Lower(s)[..4] + Lower(s)[4..8] + Lower(s)[8..12] + Lower(s)[12..];
  }

  /** Names of different lengths differ. */
  lemma NameDiffers(s: string, k: string)
    requires s != "" && !IsSpace(s[0]) && !IsSpace(s[|s| - 1]) && |s| != |k|
    ensures Lower(Trim(s)) != k
  {
    TrimWord(s);
  }

  // ---- what the headers read back to ---------------------------------------------------------------

  lemma {:induction false} ReadSplit(a: seq<Header>, b: seq<Header>, m: HeaderMap)
    ensures Read(a + b, m) == Read(b, Read(a, m))
    decreases |a|
  {
    if a == [] {
      assert a + b == b;
    } else {
      assert (a + b)[0] == a[0] && (a + b)[1..] == a[1..] + b;
      ReadSplit(a[1..], b, m[NameOf(a[0]) := Trim(a[0].value)]);
    }
  }

  /** A name that no header carries is left alone. */
  lemma {:induction false} ReadOther(hs: seq<Header>, m: HeaderMap, k: string)
    requires forall i :: 0 <= i < |hs| ==> NameOf(hs[i]) != k
    ensures k in Read(hs, m) <==> k in m
    ensures k in m ==> Read(hs, m)[k] == m[k]
    decreases |hs|
  {
    if hs != [] {
      var name, value, rest := NameOf(hs[0]), Trim(hs[0].value), hs[1..];
      var m2 := m[name := value];
      assert Read(hs, m) == Read(rest, m2);
      assert name != k;
      ReadOther(rest, m2, k);
    }
  }

  lemma DigitsTrimmed(n: nat)
    ensures Trim(Digits(n)) == Digits(n)
  {
    var s := Digits(n);
    assert s[0] in s && s[|s| - 1] in s;
    TrimWord(s);
  }

  /** None of these headers speaks of the body. */
  ghost predicate Silent(hs: seq<Header>) {
    forall i :: 0 <= i < |hs| ==> NameOf(hs[i]) != "content-length" && NameOf(hs[i]) != "transfer-encoding"
  }

  lemma SilentHeader(key: string, value: string)
    requires key != "" && !IsSpace(key[0]) && !IsSpace(key[|key| - 1]) && |key| < 14
    ensures Silent([Header(key, value)])
  {
    NameDiffers(key, "content-length");
    NameDiffers(key, "transfer-encoding");
  }

  lemma SilentBoth(a: seq<Header>, b: seq<Header>)
    requires Silent(a) && Silent(b)
    ensures Silent(a + b)
  {
  }

  lemma SilentFirst(addr: string, hs: seq<Header>)
    requires Silent(hs)
    ensures Silent([Header("Host", addr), Header("Connection", "close")] + hs)
  {
    SilentHeader("Host", addr);
    SilentHeader("Connection", "close");
    SilentBoth([Header("Host", addr)], [Header("Connection", "close")]);
    assert [Header("Host", addr)] + [Header("Connection", "close")] ==
      [Header("Host", addr), Header("Connection", "close")];
    SilentBoth([Header("Host", addr), Header("Connection", "close")], hs);
  }

  lemma SilentRead(hs: seq<Header>, m: HeaderMap)
    requires Silent(hs)
    ensures "content-length" in Read(hs, m) <==> "content-length" in m
    ensures "content-length" in m ==> Read(hs, m)["content-length"] == m["content-length"]
    ensures "transfer-encoding" in Read(hs, m) <==> "transfer-encoding" in m
  {
    ReadOther(hs, m, "content-length");
    ReadOther(hs, m, "transfer-encoding");
  }

  lemma OneHeader(h: Header, hs: seq<Header>, m: HeaderMap, m2: HeaderMap)
    requires m2 == m[NameOf(h) := Trim(h.value)]
    ensures Read([h] + hs, m) == Read(hs, m2)
  {
    var all := [h] + hs;
    assert all[0] == h && all[1..] == hs;
  }

  lemma SilentLength(hs: seq<Header>)
    requires Silent(hs)
    ensures LengthOf(Read(hs, map[])) == Ok(0) && EncodingOk(Read(hs, map[]))
  {
    SilentRead(hs, map[]);
  }

  lemma LengthHeader(n: nat)
    ensures NameOf(Header("Content-Length", Digits(n))) == "content-length" && Trim(Digits(n)) == Digits(n)
  {
    TrimWord("Content-Length");
    LengthName();
    DigitsTrimmed(n);
  }

  lemma LengthKept(n: nat, hs: seq<Header>, m: HeaderMap)
    requires n <= MAX_INT64 && Silent(hs) && "transfer-encoding" !in m && "content-length" in m &&
             m["content-length"] == Digits(n)
    ensures LengthOf(Read(hs, m)) == Ok(n) && EncodingOk(Read(hs, m))
  {
    SilentRead(hs, m);
    PrintedParses(n);
  }

  /** A length in front of headers that do not speak of it. */
  lemma LengthThen(n: nat, hs: seq<Header>, m: HeaderMap)
    requires n <= MAX_INT64 && Silent(hs) && "transfer-encoding" !in m
    ensures var r := Read([Header("Content-Length", Digits(n))] + hs, m);
            LengthOf(r) == Ok(n) && EncodingOk(r)
  {
    var m2 := m["content-length" := Digits(n)];
    LengthHeader(n);
    OneHeader(Header("Content-Length", Digits(n)), hs, m, m2);
    NamesDiffer();
    LengthKept(n, hs, m2);
  }

  lemma NamesDiffer()
    ensures "content-length" != "transfer-encoding"
  {
    assert |"content-length"| == 14 && |"transfer-encoding"| == 17;
  }

  lemma LengthAfter(first: seq<Header>, n: nat, last: seq<Header>)
    requires n <= MAX_INT64 && Silent(first) && Silent(last)
    ensures var m := Read(first + ([Header("Content-Length", Digits(n))] + last), map[]);
            LengthOf(m) == Ok(n) && EncodingOk(m)
  {
    ReadSplit(first, [Header("Content-Length", Digits(n))] + last, map[]);
    SilentRead(first, map[]);
    LengthThen(n, last, Read(first, map[]));
  }

  lemma WithLength(addr: string, hs: seq<Header>, n: nat)
    ensures AllHeaders(addr, hs, Some(n)) ==
            [Header("Host", addr), Header("Connection", "close")] + hs +
            ([Header("Content-Length", Digits(n))] + [Header("Expect", "100-continue")])
  {
  }

  lemma WithoutLength(addr: string, hs: seq<Header>)
    ensures AllHeaders(addr, hs, None) == [Header("Host", addr), Header("Connection", "close")] + hs
  {
  }

  /** The length header, when there is one, is the only one that counts. */
  lemma LengthRead(addr: string, hs: seq<Header>, length: Option<nat>)
    requires Silent(hs) && (length.Some? ==> length.value <= MAX_INT64)
    ensures var m := Read(AllHeaders(addr, hs, length), map[]);
            LengthOf(m) == Ok(if length.Some? then length.value else 0) && EncodingOk(m)
  {
    SilentFirst(addr, hs);
    if length.Some? {
      SilentHeader("Expect", "100-continue");
      WithLength(addr, hs, length.value);
      LengthAfter([Header("Host", addr), Header("Connection", "close")] + hs, length.value,
        [Header("Expect", "100-continue")]);
    } else {
      WithoutLength(addr, hs);
      SilentLength([Header("Host", addr), Header("Connection", "close")] + hs);
    }
  }

  // ---- the theorem -----------------------------------------------------------------------------------

  /** For every method, path, parameters, headers and length whose head fits the limits: what is printed is
      read back as the same method, path and parameter values, the headers with their names lowered and
      their values trimmed, and the same length; the body is what follows. */
  lemma RequestRoundTrip(verb: string, path: string, ps: seq<Param>, addr: string, hs: seq<Header>,
      length: Option<nat>, body: string)
    requires IsWord(verb) && PathOk(path) && ParamsOk(ps) && Silent(hs)
    requires HeadFits(verb, TargetText(path, ps), addr, hs, length)
    ensures ReadRequest(HeadText(verb, TargetText(path, ps), addr, hs, length) + body) ==
            Ok(Parsed(Request(verb, path, AsMap(ps), Read(AllHeaders(addr, hs, length), map[]),
                              if length.Some? then length.value else 0), body))
  {
    var target := TargetText(path, ps);
    TargetIsWord(path, ps);
    HeadRead(verb, target, addr, hs, length, body);
    LineWords(verb, target);
    TargetRoundTrip(path, ps);
    LengthRead(addr, hs, length);
  }
}
