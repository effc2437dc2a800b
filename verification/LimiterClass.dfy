/** Buckets, the limiter and the hit counter as the objects that limits.go updates in place. */
module LimiterClass {
  import opened Util
  import opened TokenBucket

  class BucketCell {
    var tokens: real
    var last: real
    var rate: real
    var burst: real

    function Snap(): Bucket
      reads this
    {
      Bucket(tokens, last, rate, burst)
    }

    constructor (rate: real, burst: real, now: real)
      ensures Snap() == NewBucket(rate, burst, now)
    {
      tokens, last := burst, now;
      this.rate, this.burst := rate, burst;
    }

    method Take(now: real, n: real) returns (ok: bool)
      modifies this`tokens, this`last
      ensures ok == Grants(old(Snap()), now, n) && Snap() == Taken(old(Snap()), now, n)
    {
      tokens := tokens + (now - last) * rate;
      if tokens > burst {
        tokens := burst;
      }
      last := now;
      if tokens < n {
        return false;
      }
      tokens := tokens - n;
      ok := true;
    }
  }

  function CollectedBut(l: Limiter, now: real, todo: set<string>): Limiter {
    Limiter(map k | k in l.buckets && !(k in l.seen && k !in todo && now - l.seen[k] > HOUR) :: l.buckets[k],
            map k | k in l.seen && (k in todo || !(now - l.seen[k] > HOUR)) :: l.seen[k])
  }

  class LimiterMap {
    var buckets: map<string, Bucket>
    var seen: map<string, real>

    function Snap(): Limiter
      reads this
    {
      Limiter(buckets, seen)
    }

    constructor ()
      ensures Snap() == Limiter(map[], map[])
    {
      buckets, seen := map[], map[];
    }

    method Collect(now: real)
      modifies this
      ensures Snap() == Collected(old(Snap()), now)
    {
      ghost var was := Snap();
      var todo := seen.Keys;
      while todo != {}
        invariant todo <= was.seen.Keys && Snap() == CollectedBut(was, now, todo)
        decreases todo
      {
        var k := Any(todo);
        assert k in was.seen;
        todo := todo - {k};
        if now - seen[k] > HOUR {
          buckets := buckets - {k};
          seen := seen - {k};
        }
      }
    }

    method AllowRate(key: string, c: Call) returns (ok: bool)
      modifies this
      ensures ok == Allows(old(Snap()), key, c) && Snap() == TokenBucket.AllowRate(old(Snap()), key, c, true)
    {
      ghost var was := Snap();
      var b: Bucket;
      if key !in buckets {
        b := NewBucket(c.rate, c.burst, c.now);
      } else {
        b := buckets[key];
        if b.rate != c.rate || b.burst != c.burst {
          b := b.(rate := c.rate, burst := c.burst);
        }
      }
      assert b == Found(was, key, c);
      buckets := buckets[key := b];
      seen := seen[key := c.now];
      if |buckets| > MANY {
        Collect(c.now);
      }
      var cell := new BucketCell(b.rate, b.burst, b.last);
      cell.tokens := b.tokens;
      ok := cell.Take(c.now, c.n);
      buckets := buckets[key := Bucket(cell.tokens, cell.last, cell.rate, cell.burst)];
    }
  }

  /** Entries up to `cut` are squeezed out of the array; what is kept moves to the front. */
  method Squeeze(hits: array<int>, cut: int) returns (j: nat)
    modifies hits
    ensures j <= hits.Length && hits[..j] == Recent(old(hits[..]), cut)
  {
    ghost var was := hits[..];
    j := 0;
    var i := 0;
    while i < hits.Length
      invariant 0 <= j <= i <= hits.Length
      invariant forall k :: i <= k < hits.Length ==> hits[k] == was[k]
      invariant hits[..j] == Recent(was[..i], cut)
    {
      var t := hits[i];
      assert t == was[i];
      assert was[..i + 1] == was[..i] + [t];
      RecentSnoc(was[..i], t, cut);
      if t > cut {
        ghost var front := hits[..j];
        hits[j] := t;
        assert hits[..j] == front;
        assert hits[..j + 1] == front + [t];
        j := j + 1;
      }
      i := i + 1;
    }
    assert was[..i] == was;
  }

  /** `noteRateHit`: the squeezed hits, one more, and the verdict. */
  method NoteRateHit(hits: array<int>, now: int, max: nat) returns (kept: seq<int>, mute: bool)
    modifies hits
    ensures Noted(kept, mute) == NoteHit(old(hits[..]), now, max)
  {
    var j := Squeeze(hits, now - FIVE_MINUTES);
    kept := hits[..j] + [now];
    mute := max > 0 && |kept| > max;
    if mute {
      kept := [];
    }
  }
}
