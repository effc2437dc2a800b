/** The encryption of end-to-end channels as its callers see it (e2e.go). Seal, open, wrap and unwrap are
    ideal: a box opens under exactly the key and associated data that made it. Only the associated data
    itself is computed. */
module Crypto {
  import opened Util

  type Key = nat

  const WORD: nat := 0x1_0000_0000_0000_0000

  function BigEndian(n: nat, k: nat): (r: seq<int>)
    ensures |r| == k
  {
    if k == 0 then [] else BigEndian(n / 256, k - 1) + [n % 256]
  }

  function Codes(s: string): (r: seq<int>)
    ensures |r| == |s|
    ensures forall i :: 0 <= i < |s| ==> r[i] == s[i] as int
  {
    seq(|s|, i requires 0 <= i < |s| => s[i] as int)
  }

  /** The channel name followed by the epoch as eight big-endian bytes. */
  function Aad(ch: string, epoch: nat): (r: seq<int>)
    ensures |r| == |ch| + 8
  {
    Codes(ch) + BigEndian(epoch % WORD, 8)
  }

  function Pow256(k: nat): (p: nat)
    ensures p >= 1
  {
    if k == 0 then 1 else 256 * Pow256(k - 1)
  }

  lemma {:induction false} BigEndianInjective(m: nat, n: nat, k: nat)
    requires m < Pow256(k) && n < Pow256(k) && BigEndian(m, k) == BigEndian(n, k)
    ensures m == n
  {
    if k > 0 {
      var a, b := BigEndian(m / 256, k - 1), BigEndian(n / 256, k - 1);
      assert (a + [m % 256])[..k - 1] == a && (b + [n % 256])[..k - 1] == b;
      assert (a + [m % 256])[k - 1] == m % 256 && (b + [n % 256])[k - 1] == n % 256;
      BigEndianInjective(m / 256, n / 256, k - 1);
    }
  }

  lemma EightBytes()
    ensures Pow256(8) == WORD
  {
    assert Pow256(2) == 65536;
    assert Pow256(4) == 65536 * 65536;
    assert Pow256(6) == 65536 * 65536 * 65536;
  }

  lemma PartsEqual<T>(a: seq<T>, b: seq<T>, c: seq<T>, d: seq<T>)
    requires |a| == |c| && a + b == c + d
    ensures a == c && b == d
  {
    assert (a + b)[..|a|] == a && (a + b)[|a|..] == b;
    assert (c + d)[..|c|] == c && (c + d)[|c|..] == d;
  }

  lemma CodesInjective(s: string, t: string)
    requires Codes(s) == Codes(t)
    ensures s == t
  {
    assert |s| == |Codes(s)| == |Codes(t)| == |t|;
    forall i | 0 <= i < |s| ensures s[i] == t[i] {
      assert Codes(s)[i] == Codes(t)[i];
    }
  }

  /** What is bound to one channel and epoch is bound to no other. */
  lemma AadInjective(ch1: string, e1: nat, ch2: string, e2: nat)
    requires e1 < WORD && e2 < WORD && Aad(ch1, e1) == Aad(ch2, e2)
    ensures ch1 == ch2 && e1 == e2
  {
    assert |Aad(ch1, e1)| == |Aad(ch2, e2)|;
    PartsEqual(Codes(ch1), BigEndian(e1 % WORD, 8), Codes(ch2), BigEndian(e2 % WORD, 8));
    CodesInjective(ch1, ch2);
    EightBytes();
    BigEndianInjective(e1 % WORD, e2 % WORD, 8);
  }

  // ---- boxes ---------------------------------------------------------------------------------

  datatype Cipher = Sealed(key: Key, ad: seq<int>, plain: string) | Junk(raw: string)

  function EncryptText(key: Key, ch: string, epoch: nat, plain: string): Cipher {
    Sealed(key, Aad(ch, epoch), plain)
  }

  function DecryptText(key: Key, ch: string, epoch: nat, c: Cipher): Option<string> {
    if c.Sealed? && c.key == key && c.ad == Aad(ch, epoch) then Some(c.plain) else None
  }

  /** `ends` are the two device keys of the key exchange: both ends derive the same wrapping key, nobody
      else does. */
  datatype Wrapped = Wrap(ends: set<int>, ch: string, ad: seq<int>, key: Key) | Noise

  function WrapKey(me: int, peer: int, ch: string, epoch: nat, key: Key): Wrapped {
    Wrap({me, peer}, ch, Aad(ch, epoch), key)
  }

  function UnwrapKey(me: int, from: int, ch: string, epoch: nat, w: Wrapped): Option<Key> {
    if w.Wrap? && w.ends == {me, from} && w.ch == ch && w.ad == Aad(ch, epoch) then Some(w.key) else None
  }

  lemma OpensWhereSealed(key: Key, ch: string, epoch: nat, plain: string, key2: Key, ch2: string, epoch2: nat)
    requires epoch < WORD && epoch2 < WORD
    ensures DecryptText(key2, ch2, epoch2, EncryptText(key, ch, epoch, plain)) ==
            if key2 == key && ch2 == ch && epoch2 == epoch then Some(plain) else None
  {
    if Aad(ch, epoch) == Aad(ch2, epoch2) {
      AadInjective(ch, epoch, ch2, epoch2);
    }
  }

  lemma UnwrapsWhereMeant(a: int, b: int, ch: string, epoch: nat, key: Key, me: int, from: int, ch2: string,
      epoch2: nat)
    requires epoch < WORD && epoch2 < WORD
    ensures UnwrapKey(me, from, ch2, epoch2, WrapKey(a, b, ch, epoch, key)) ==
            if {me, from} == {a, b} && ch2 == ch && epoch2 == epoch then Some(key) else None
  {
    if Aad(ch, epoch) == Aad(ch2, epoch2) {
      AadInjective(ch, epoch, ch2, epoch2);
    }
  }
}
