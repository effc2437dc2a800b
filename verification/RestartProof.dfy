/** A restart of the hub is invisible: what `loadMessages` and the start-up sweep rebuild from the
    log is what memory held, cut to the last `keep`, less what has expired by then. */
module RestartProof {
  import opened Util
  import opened MessageLog

  // ---- reading the log back --------------------------------------------------------

  ghost predicate FromLog(e: Entry, log: seq<Entry>) {
    exists x :: x in log && x.kind != Del && x.cid == e.cid && x.id == e.id && x.ts == e.ts
  }

  lemma {:induction false} ReplayFromLog(log: seq<Entry>, c: int)
    ensures forall e :: e in Replay(log, c) ==> e.cid == c && e.kind != Del && FromLog(e, log)
  {
    if log != [] {
      var front, last := log[..|log| - 1], log[|log| - 1];
      assert log == front + [last];
      ReplayFromLog(front, c);
      var r := Replay(front, c);
      forall e | e in Replay(log, c) ensures e.cid == c && e.kind != Del && FromLog(e, log) {
        if last.cid == c && last.kind == Del {
          var i :| 0 <= i < |r| && Erased(r, last.id, last.actor)[i] == e;
          assert r[i] in r && FromLog(r[i], front);
          var x :| x in front && x.kind != Del && x.cid == r[i].cid && x.id == r[i].id && x.ts == r[i].ts;
          assert x in log;
        } else if e in r {
          var x :| x in front && x.kind != Del && x.cid == e.cid && x.id == e.id && x.ts == e.ts;
          assert x in log;
        } else {
          assert e == last && last in log;
        }
      }
    }
  }

  ghost predicate Ordered(ms: seq<Entry>) {
    forall i, j :: 0 <= i < j < |ms| ==> ms[i].id < ms[j].id && ms[i].ts <= ms[j].ts
  }

  lemma {:induction false} ReplayOrdered(log: seq<Entry>, c: int)
    requires LogOrdered(log)
    ensures Ordered(Replay(log, c))
  {
    if log != [] {
      var front, last := log[..|log| - 1], log[|log| - 1];
      ReplayOrdered(front, c);
      ReplayFromLog(front, c);
      var r := Replay(front, c);
      if last.cid == c && last.kind != Del {
        forall e | e in r ensures e.id < last.id && e.ts <= last.ts {
          var x :| x in front && x.kind != Del && x.cid == e.cid && x.id == e.id && x.ts == e.ts;
          var k :| 0 <= k < |front| && front[k] == x;
          assert log[k] == x && log[|log| - 1] == last;
        }
        assert forall i :: 0 <= i < |r| ==> r[i] in r;
      }
    }
  }

  lemma {:induction false} ReplayAppend(log: seq<Entry>, e: Entry, c: int)
    ensures Replay(log + [e], c) ==
            if e.cid != c then Replay(log, c)
            else if e.kind == Del then Erased(Replay(log, c), e.id, e.actor)
            else Replay(log, c) + [e]
  {
    assert (log + [e])[..|log + [e]| - 1] == log;
  }

  /** A deletion hits the same entry whether or not the head of the slice has been dropped. */
  lemma EraseInSuffix(r: seq<Entry>, ms: seq<Entry>, id: nat, actor: string)
    requires IsSuffix(ms, r) && CanErase(ms, id)
    ensures CanErase(r, id) && IsSuffix(Erased(ms, id, actor), Erased(r, id, actor))
  {
    var k := |r| - |ms|;
    var i, f := Find(ms, id), Find(r, id);
    assert r[k + i] == ms[i];
    assert f >= k + i;
    assert forall j :: k + i < j < |r| ==> r[j] == ms[j - k];
  }

  // ---- the rewritten log ----------------------------------------------------------

  /** All slices are rising, disjoint in ids, and hold their own channel's content. */
  ghost predicate Sliced(m: map<int, seq<Entry>>) {
    && (forall c :: c in m ==> Increasing(m[c]) && forall e :: e in m[c] ==> e.cid == c && e.kind != Del)
    && (forall c, d, x, y :: c in m && d in m && x in m[c] && y in m[d] && c != d ==> x.id != y.id)
  }

  ghost predicate InSome(e: Entry, m: map<int, seq<Entry>>) {
    e.cid in m && e in m[e.cid]
  }

  lemma SlicedRest(m: map<int, seq<Entry>>, c: int)
    requires Sliced(m) && c in m
    ensures Sliced(m - {c})
    ensures forall e :: InSome(e, m) <==> e in m[c] || InSome(e, m - {c})
    ensures forall x, y :: x in m[c] && InSome(y, m - {c}) ==> x.id != y.id
  {
  }

  lemma DistinctConcat(a: seq<Entry>, b: seq<Entry>)
    requires DistinctIds(a) && DistinctIds(b)
    requires forall x, y :: x in a && y in b ==> x.id != y.id
    ensures DistinctIds(a + b)
  {
    var all := a + b;
    forall i, j | 0 <= i < j < |all| ensures all[i].id != all[j].id {
      if i < |a| <= j { assert a[i] in a && b[j - |a|] in b; }
    }
  }

  lemma {:induction false} GatheredAll(m: map<int, seq<Entry>>)
    requires Sliced(m)
    ensures DistinctIds(Gathered(m))
    ensures forall e :: e in Gathered(m) <==> InSome(e, m)
    decreases |m|
  {
    if m.Keys != {} {
      var c := Pick(m.Keys);
      SlicedRest(m, c);
      GatheredAll(m - {c});
      DistinctConcat(m[c], Gathered(m - {c}));
    }
  }

  function Only(log: seq<Entry>, c: int): (r: seq<Entry>)
    ensures forall e :: e in r <==> e in log && e.cid == c
  {
    if log == [] then [] else
      var e := log[|log| - 1];
      assert log == log[..|log| - 1] + [e];
      if e.cid == c then Only(log[..|log| - 1], c) + [e] else Only(log[..|log| - 1], c)
  }

  lemma LastIsLargest(log: seq<Entry>)
    requires Increasing(log) && log != []
    ensures Increasing(log[..|log| - 1]) && forall x :: x in log[..|log| - 1] ==> x in log && x.id < log[|log| - 1].id
  {
  }

  lemma {:induction false} ReplayOfContent(log: seq<Entry>, c: int)
    requires Increasing(log)
    requires forall e :: e in log ==> e.kind != Del
    ensures Replay(log, c) == Only(log, c) && Increasing(Only(log, c))
  {
    if log != [] {
      var front, last := log[..|log| - 1], log[|log| - 1];
      assert last in log;
      LastIsLargest(log);
      ReplayOfContent(front, c);
    }
  }

  /** Reading a rewritten log gives back exactly the slices it was written from. */
  lemma {:induction false} MergedReplays(m: map<int, seq<Entry>>, c: int)
    requires Sliced(m)
    ensures Increasing(Merged(m))
    ensures forall e :: e in Merged(m) <==> InSome(e, m)
    ensures Replay(Merged(m), c) == if c in m then m[c] else []
  {
    GatheredAll(m);
    SortIncreases(Gathered(m));
    var all := Merged(m);
    ReplayOfContent(all, c);
    var mine := if c in m then m[c] else [];
    forall e ensures e in Only(all, c) <==> e in mine {
      if e in mine { assert InSome(e, m); }
    }
    IncreasingUnique(Only(all, c), mine);
  }

  // ---- every step keeps the invariant ---------------------------------------------

  lemma SliceFromLog(st: Store, c: int)
    requires LogOrdered(st.log) && c in st.expire && Tracks(st, c)
    ensures Ordered(st.Mem(c))
    ensures forall e :: e in st.Mem(c) ==> e.cid == c && e.kind != Del && FromLog(e, st.log)
  {
    ReplayFromLog(st.log, c);
    ReplayOrdered(st.log, c);
  }

  /** One log record per id, so an id settles its channel and its time. */
  lemma OneRecord(a: Entry, b: Entry, log: seq<Entry>)
    requires LogOrdered(log) && FromLog(a, log) && FromLog(b, log)
    ensures a.id == b.id ==> a.cid == b.cid
    ensures a.id < b.id ==> a.ts <= b.ts
  {
    var x :| x in log && x.kind != Del && x.cid == a.cid && x.id == a.id && x.ts == a.ts;
    var y :| y in log && y.kind != Del && y.cid == b.cid && y.id == b.id && y.ts == b.ts;
    var i :| 0 <= i < |log| && log[i] == x;
    var j :| 0 <= j < |log| && log[j] == y;
  }

  lemma MemFromLog(st: Store)
    requires Valid(st)
    ensures Sliced(st.msgs)
    ensures forall c, e :: c in st.msgs && e in st.msgs[c] ==> FromLog(e, st.log)
  {
    forall c | c in st.msgs
      ensures Increasing(st.msgs[c])
      ensures forall e :: e in st.msgs[c] ==> e.cid == c && e.kind != Del && FromLog(e, st.log)
    {
      assert Tracks(st, c);
      SliceFromLog(st, c);
    }
    forall c, d, x, y | c in st.msgs && d in st.msgs && x in st.msgs[c] && y in st.msgs[d] && c != d
      ensures x.id != y.id
    {
      OneRecord(x, y, st.log);
    }
  }

  lemma MergedOrdered(m: map<int, seq<Entry>>, log: seq<Entry>)
    requires Sliced(m) && LogOrdered(log)
    requires forall c, e :: c in m && e in m[c] ==> FromLog(e, log)
    ensures LogOrdered(Merged(m))
    ensures forall e :: e in Merged(m) ==> e.kind != Del && FromLog(e, log)
  {
    MergedReplays(m, 0);
    var all := Merged(m);
    forall e | e in all ensures e.kind != Del && FromLog(e, log) {
      assert InSome(e, m);
    }
    forall i, j | 0 <= i < j < |all| ensures all[i].id < all[j].id && all[i].ts <= all[j].ts {
      assert all[i] in all && all[j] in all;
      OneRecord(all[i], all[j], log);
    }
  }

  lemma RewriteValid(st: Store, ok: bool)
    requires Valid(st)
    ensures Valid(Rewrite(st, ok))
  {
    if ok {
      MemFromLog(st);
      MergedOrdered(st.msgs, st.log);
      var st' := Rewrite(st, ok);
      forall c | c in st'.expire ensures Tracks(st', c) {
        MergedReplays(st.msgs, c);
      }
      assert LogBounded(st');
    }
  }

  lemma TrimFollows(ms: seq<Entry>, r: seq<Entry>, e: Entry, raised: bool, keep: nat, sec: int, was: int, now: int)
    requires Follows(ms, r, raised, keep, sec, was) && was <= now
    ensures Follows(Trimmed(ms + [e], keep), r + [e], raised, keep, sec, now)
  {
    var k := |r| - |ms|;
    assert r + [e] == r[..k] + (ms + [e]);
  }

  lemma TimeFollows(ms: seq<Entry>, r: seq<Entry>, raised: bool, keep: nat, sec: int, was: int, now: int)
    requires Follows(ms, r, raised, keep, sec, was) && was <= now
    ensures Follows(ms, r, raised, keep, sec, now)
  {
  }

  lemma FreshFollows(ms: seq<Entry>, r: seq<Entry>, raised: bool, keep: nat, sec: int, was: int, now: int)
    requires Follows(ms, r, raised, keep, sec, was) && was <= now
    ensures Follows(Fresh(ms, sec, now), r, raised, keep, sec, now)
  {
    var k, k' := |r| - |ms|, |r| - |Fresh(ms, sec, now)|;
    forall i | k <= i < k' ensures Stale(r[i], sec, now) {
      assert r[i] == ms[i - k];
    }
  }

  lemma EraseFollows(ms: seq<Entry>, r: seq<Entry>, id: nat, actor: string, raised: bool, keep: nat, sec: int, now: int)
    requires Follows(ms, r, raised, keep, sec, now) && CanErase(ms, id)
    ensures Follows(Erased(ms, id, actor), Erased(r, id, actor), raised, keep, sec, now)
  {
    EraseInSuffix(r, ms, id, actor);
  }

  lemma PostLogged(st: Store, e: Entry)
    requires LogOrdered(st.log) && LogBounded(st) && e.id > st.nextId && e.ts >= st.clock
    ensures LogOrdered(st.log + [e])
  {
    var log := st.log + [e];
    forall i, j | 0 <= i < j < |log| && log[i].kind != Del && log[j].kind != Del
      ensures log[i].id < log[j].id && log[i].ts <= log[j].ts
    {
      assert log[i] in st.log;
    }
  }

  lemma PostInBounds(st: Store, c: int, e: Entry)
    requires LogBounded(st) && e.id == st.nextId + 1 && e.ts >= st.clock && e.cid < st.nextChan
    ensures LogBounded(Post(st, c, e))
  {
  }

  lemma PostValid(st: Store, c: int, e: Entry)
    requires Valid(st) && c in st.expire
    requires e.cid == c && e.kind != Del && e.id == st.nextId + 1 && e.ts >= st.clock
    ensures Valid(Post(st, c, e))
  {
    var st' := Post(st, c, e);
    PostLogged(st, e);
    PostInBounds(st, c, e);
    forall d | d in st'.expire ensures Tracks(st', d) {
      assert Tracks(st, d);
      ReplayAppend(st.log, e, d);
      if d == c {
        TrimFollows(st.Mem(c), Replay(st.log, c), e, c in st.raised, st.keep, st.expire[c], st.clock, e.ts);
      } else {
        TimeFollows(st.Mem(d), Replay(st.log, d), d in st.raised, st.keep, st.expire[d], st.clock, e.ts);
      }
    }
  }

  lemma EraseLogged(st: Store, c: int, id: nat, actor: string)
    requires Valid(st) && c in st.expire && CanErase(st.Mem(c), id)
    ensures LogBounded(Erase(st, c, id, actor)) && LogOrdered(Erase(st, c, id, actor).log)
  {
    assert Tracks(st, c);
    SliceFromLog(st, c);
    assert FromLog(st.Mem(c)[Find(st.Mem(c), id)], st.log);
  }

  lemma EraseValid(st: Store, c: int, id: nat, actor: string)
    requires Valid(st) && c in st.expire
    ensures Valid(Erase(st, c, id, actor))
  {
    var ms := st.Mem(c);
    if CanErase(ms, id) {
      EraseLogged(st, c, id, actor);
      var st' := Erase(st, c, id, actor);
      forall d | d in st'.expire ensures Tracks(st', d) {
        assert Tracks(st, d);
        ReplayAppend(st.log, DelRecord(c, id, actor), d);
        if d == c {
          EraseFollows(ms, Replay(st.log, c), id, actor, c in st.raised, st.keep, st.expire[c], st.clock);
        }
      }
    }
  }

  lemma ExpireValid(st: Store, now: int)
    requires Valid(st) && now >= st.clock
    ensures Valid(ExpireOnly(st, now))
  {
    var st' := ExpireOnly(st, now);
    forall c | c in st'.expire ensures Tracks(st', c) {
      assert Tracks(st, c);
      FreshFollows(st.Mem(c), Replay(st.log, c), c in st.raised, st.keep, st.expire[c], st.clock, now);
    }
  }

  /** Compaction bookkeeping does not take part in the invariant. */
  lemma ResetValid(st: Store, now: int)
    requires Valid(st)
    ensures Valid(st.(removed := 0, lastComp := Some(now)))
  {
    var s := st.(removed := 0, lastComp := Some(now));
    assert forall c :: c in st.expire ==> Tracks(st, c);
    assert forall c :: c in s.expire ==> Tracks(s, c);
  }

  lemma LoadFollows(r: seq<Entry>, keep: nat, sec: int, now: int)
    ensures Follows(LastN(r, keep), r, false, keep, sec, now)
  {
  }

  lemma LoadedValid(st: Store)
    requires Valid(st)
    ensures Valid(Reloaded(st))
  {
    var l := Reloaded(st);
    forall c | c in l.expire ensures Tracks(l, c) {
      LoadFollows(Replay(st.log, c), st.keep, st.expire[c], st.clock);
    }
    assert LogBounded(l);
  }

  lemma LoadValid(st: Store, ok: bool)
    requires Valid(st)
    ensures Valid(Load(st, ok))
  {
    LoadedValid(st);
    RewriteValid(Reloaded(st), ok);
  }

  lemma JanitorValid(st: Store, now: int, ok: bool)
    requires Valid(st) && now >= st.clock
    ensures Valid(Janitor(st, now, ok))
  {
    ExpireValid(st, now);
    RewriteValid(ExpireOnly(st, now), ok);
    ResetValid(Rewrite(ExpireOnly(st, now), ok), now);
  }

  lemma SweepValid(st: Store, now: int, ok1: bool, ok2: bool)
    requires Valid(st) && now >= st.clock
    ensures Valid(Sweep(st, now, ok1, ok2))
  {
    JanitorValid(st, now, ok1);
    RewriteValid(Janitor(st, now, ok1), ok2);
    ResetValid(Rewrite(Janitor(st, now, ok1), ok2), now);
  }

  lemma NewChannelValid(st: Store, sec: int)
    requires Valid(st)
    ensures Valid(NewChannel(st, sec))
  {
    var n := NewChannel(st, sec);
    NothingLogged(st.log, st.nextChan);
    forall d | d in n.expire ensures Tracks(n, d) {
      if d in st.expire { assert Tracks(st, d); }
    }
  }

  lemma SetExpireValid(st: Store, c: int, sec: int)
    requires Valid(st) && c in st.expire
    ensures Valid(SetExpire(st, c, sec))
  {
    var s := SetExpire(st, c, sec);
    forall d | d in s.expire ensures Tracks(s, d) {
      assert Tracks(st, d);
    }
  }

  lemma DeleteChannelValid(st: Store, c: int, ok: bool)
    requires Valid(st) && c in st.expire
    ensures Valid(DeleteChannel(st, c, ok))
  {
    var x := st.(msgs := st.msgs - {c}, expire := st.expire - {c});
    forall d | d in x.expire ensures Tracks(x, d) {
      assert Tracks(st, d);
    }
    RewriteValid(x, ok);
  }

  lemma {:induction false} NothingLogged(log: seq<Entry>, c: int)
    requires forall e :: e in log ==> e.cid != c
    ensures Replay(log, c) == []
  {
    if log != [] {
      assert log[|log| - 1] in log;
      NothingLogged(log[..|log| - 1], c);
    }
  }

  lemma ApplyValid(st: Store, s: Step)
    requires Valid(st) && Enabled(st, s)
    ensures Valid(Apply(st, s))
  {
    match s
    case DoPost(c, file, from, body, fid, now) =>
      PostValid(st, c, Posted(st, c, if file then File else Text, from, body, if file then fid else "", now));
    case DoErase(c, id, actor) => EraseValid(st, c, id, actor);
    case DoJanitor(now, ok) => JanitorValid(st, now, ok);
    case DoSweep(now, ok1, ok2) => SweepValid(st, now, ok1, ok2);
    case DoNewChannel(sec) => NewChannelValid(st, sec);
    case DoSetExpire(c, sec) => SetExpireValid(st, c, sec);
    case DoDeleteChannel(c, ok) => DeleteChannelValid(st, c, ok);
    case DoRestart(now, ok0, ok1, ok2) =>
      LoadValid(st, ok0);
      SweepValid(Load(st, ok0), now, ok1, ok2);
  }

  /** Memory is a suffix of the log replay in every state of every run, restarts included. */
  lemma {:induction false} RunValid(st: Store, steps: seq<Step>)
    requires Valid(st) && Possible(st, steps)
    ensures Valid(Run(st, steps))
    decreases |steps|
  {
    if steps != [] {
      ApplyValid(st, steps[0]);
      RunValid(Apply(st, steps[0]), steps[1..]);
    }
  }

  // ---- main results ------------------------------------------------------------------

  lemma {:induction false} StalePrefixSplit(ms: seq<Entry>, n: nat, cut: int)
    requires n <= |ms|
    requires forall i :: 0 <= i < n ==> ms[i].ts < cut
    ensures StalePrefix(ms, cut) == n + StalePrefix(ms[n..], cut)
  {
    if n > 0 {
      assert ms[1..][n - 1..] == ms[n..];
      StalePrefixSplit(ms[1..], n - 1, cut);
    } else {
      assert ms[0..] == ms;
    }
  }

  lemma JanitorMem(st: Store, now: int, ok: bool, c: int)
    requires c in st.expire
    ensures Janitor(st, now, ok).Mem(c) == Fresh(st.Mem(c), st.expire[c], now)
    ensures Janitor(st, now, ok).expire == st.expire && Janitor(st, now, ok).keep == st.keep
  {
  }

  lemma SweepMem(st: Store, now: int, ok1: bool, ok2: bool, c: int)
    requires c in st.expire
    ensures Sweep(st, now, ok1, ok2).Mem(c) == Fresh(st.Mem(c), st.expire[c], now)
    ensures Sweep(st, now, ok1, ok2).expire == st.expire && Sweep(st, now, ok1, ok2).keep == st.keep
  {
    JanitorMem(st, now, ok1, c);
  }

  lemma LoadMem(st: Store, ok: bool, c: int)
    requires c in st.expire
    ensures Load(st, ok).Mem(c) == LastN(Replay(st.log, c), st.keep)
    ensures Load(st, ok).expire == st.expire && Load(st, ok).keep == st.keep
  {
  }

  lemma RestartMem(st: Store, now: int, ok0: bool, ok1: bool, ok2: bool, c: int)
    requires c in st.expire
    ensures Restart(st, now, ok0, ok1, ok2).Mem(c) == Fresh(LastN(Replay(st.log, c), st.keep), st.expire[c], now)
    ensures Restart(st, now, ok0, ok1, ok2).expire == st.expire
  {
    LoadMem(st, ok0, c);
    SweepMem(Load(st, ok0), now, ok1, ok2, c);
  }

  /** Whatever memory no longer holds of the last `keep` replayed entries is past its expiry. */
  ghost predicate GoneAreStale(mem: seq<Entry>, r: seq<Entry>, keep: nat, sec: int, now: int) {
    |mem| <= |r| && DroppedAreStale(r, |r| - |mem|, keep, sec, now)
  }

  lemma Rebuilt(back: seq<Entry>, r: seq<Entry>, mem: seq<Entry>, keep: nat, sec: int, now: int)
    requires IsSuffix(mem, r) && back == Fresh(LastN(r, keep), sec, now)
    ensures back == Fresh(LastN(mem, keep), sec, now) <==> GoneAreStale(mem, r, keep, sec, now)
  {
    ReloadExact(r, mem, keep, sec, now);
  }

  /** Exactly when a restart rebuilds what memory held: when everything memory had dropped from the
      last `keep` logged entries is past its expiry by now. */
  lemma RestartExact(st: Store, now: int, ok0: bool, ok1: bool, ok2: bool, c: int)
    requires Valid(st) && now >= st.clock && c in st.expire
    ensures Restart(st, now, ok0, ok1, ok2).Mem(c) == Fresh(LastN(st.Mem(c), st.keep), st.expire[c], now)
       <==> GoneAreStale(st.Mem(c), Replay(st.log, c), st.keep, st.expire[c], now)
  {
    assert Tracks(st, c);
    RestartMem(st, now, ok0, ok1, ok2, c);
    Rebuilt(Restart(st, now, ok0, ok1, ok2).Mem(c), Replay(st.log, c), st.Mem(c), st.keep, st.expire[c], now);
  }

  ghost predicate AllStale(ms: seq<Entry>, sec: int, now: int) {
    forall i :: 0 <= i < |ms| ==> Stale(ms[i], sec, now)
  }

  lemma ReloadExact(r: seq<Entry>, mem: seq<Entry>, keep: nat, sec: int, now: int)
    requires IsSuffix(mem, r)
    ensures Fresh(LastN(r, keep), sec, now) == Fresh(LastN(mem, keep), sec, now)
       <==> DroppedAreStale(r, |r| - |mem|, keep, sec, now)
  {
    var k, w := |r| - |mem|, Max(0, |r| - keep);
    if w < k {
      var lost := r[w..k];
      LostExact(r, w, k, keep, sec, now);
      assert LastN(r, keep) == lost + mem && LastN(mem, keep) == mem;
      FreshHead(lost, mem, sec, now);
    } else {
      assert LastN(r, keep) == LastN(mem, keep);
    }
  }

  lemma LostExact(r: seq<Entry>, w: nat, k: nat, keep: nat, sec: int, now: int)
    requires w == Max(0, |r| - keep) && w < k <= |r|
    ensures AllStale(r[w..k], sec, now) <==> DroppedAreStale(r, k, keep, sec, now)
  {
    var lost := r[w..k];
    if DroppedAreStale(r, k, keep, sec, now) {
      assert forall i :: 0 <= i < |lost| ==> lost[i] == r[w + i];
    }
    if AllStale(lost, sec, now) {
      assert forall i :: w <= i < k ==> r[i] == lost[i - w];
    }
  }

  /** A head can be left out of a slice before the sweep exactly when the sweep removes all of it. */
  lemma FreshHead(head: seq<Entry>, ms: seq<Entry>, sec: int, now: int)
    requires head != []
    ensures Fresh(head + ms, sec, now) == Fresh(ms, sec, now) <==> AllStale(head, sec, now)
  {
    var all, cut := head + ms, now - sec * 1000;
    assert all[|head|..] == ms;
    assert forall i :: 0 <= i < |head| ==> all[i] == head[i];
    if AllStale(head, sec, now) {
      assert Stale(head[0], sec, now);
      StalePrefixSplit(all, |head|, cut);
    } else if sec > 0 {
      var i :| 0 <= i < |head| && !Stale(head[i], sec, now);
      assert all[i].ts >= cut;
      assert StalePrefix(all, cut) <= i;
    }
  }

  ghost predicate NeverRaises(st: Store, steps: seq<Step>, c: int)
    requires Possible(st, steps)
    decreases |steps|
  {
    steps == [] ||
    (&& (steps[0].DoSetExpire? && steps[0].c == c ==> !Raises(st.expire[c], steps[0].sec))
     && NeverRaises(Apply(st, steps[0]), steps[1..], c))
  }

  lemma {:induction false} NeverRaisedStays(st: Store, steps: seq<Step>, c: int)
    requires Possible(st, steps) && NeverRaises(st, steps, c) && c !in st.raised
    ensures c !in Run(st, steps).raised
    decreases |steps|
  {
    if steps != [] {
      NeverRaisedStays(Apply(st, steps[0]), steps[1..], c);
    }
  }

  lemma RestartKeeps(st: Store, now: int, ok0: bool, ok1: bool, ok2: bool, c: int)
    requires Valid(st) && now >= st.clock && c in st.expire && c !in st.raised
    ensures Restart(st, now, ok0, ok1, ok2).Mem(c) == Fresh(LastN(st.Mem(c), st.keep), st.expire[c], now)
  {
    RestartMem(st, now, ok0, ok1, ok2, c);
    assert Tracks(st, c);
    TimeFollows(st.Mem(c), Replay(st.log, c), false, st.keep, st.expire[c], st.clock, now);
    ReloadExact(Replay(st.log, c), st.Mem(c), st.keep, st.expire[c], now);
  }

  lemma IdsBounded(st: Store, c: int)
    requires Valid(st) && c in st.expire
    ensures forall e :: e in st.Mem(c) ==> 1 <= e.id <= st.nextId
  {
    assert Tracks(st, c);
    SliceFromLog(st, c);
  }

  // ---- memory is bounded -------------------------------------------------------------

  ghost predicate SlicesBounded(st: Store) {
    forall c :: c in st.msgs ==> |st.msgs[c]| <= st.keep + st.keep / 4
  }

  lemma PostBounded(st: Store, c: int, e: Entry)
    requires SlicesBounded(st)
    ensures SlicesBounded(Post(st, c, e))
  {
  }

  lemma JanitorBounded(st: Store, now: int, ok: bool)
    requires SlicesBounded(st)
    ensures SlicesBounded(Janitor(st, now, ok)) && Janitor(st, now, ok).keep == st.keep
  {
  }

  lemma SweepBounded(st: Store, now: int, ok1: bool, ok2: bool)
    requires SlicesBounded(st)
    ensures SlicesBounded(Sweep(st, now, ok1, ok2)) && Sweep(st, now, ok1, ok2).keep == st.keep
  {
    JanitorBounded(st, now, ok1);
  }

  lemma LoadBounded(st: Store, ok: bool)
    ensures SlicesBounded(Load(st, ok)) && Load(st, ok).keep == st.keep
  {
  }

  lemma ApplyBounded(st: Store, s: Step)
    requires SlicesBounded(st) && Enabled(st, s)
    ensures SlicesBounded(Apply(st, s)) && Apply(st, s).keep == st.keep
  {
    match s
    case DoPost(c, file, from, body, fid, now) =>
      PostBounded(st, c, Posted(st, c, if file then File else Text, from, body, if file then fid else "", now));
    case DoErase(_, _, _) =>
    case DoJanitor(now, ok) => JanitorBounded(st, now, ok);
    case DoSweep(now, ok1, ok2) => SweepBounded(st, now, ok1, ok2);
    case DoNewChannel(_) =>
    case DoSetExpire(_, _) =>
    case DoDeleteChannel(_, _) =>
    case DoRestart(now, ok0, ok1, ok2) => LoadBounded(st, ok0); SweepBounded(Load(st, ok0), now, ok1, ok2);
  }

  lemma {:induction false} BoundedRun(st: Store, steps: seq<Step>, c: int)
    requires SlicesBounded(st) && Possible(st, steps)
    ensures |Run(st, steps).Mem(c)| <= st.keep + st.keep / 4
    decreases |steps|
  {
    if steps != [] {
      ApplyBounded(st, steps[0]);
      BoundedRun(Apply(st, steps[0]), steps[1..], c);
    }
  }

  /** No run lets a channel's slice grow more than a quarter past `keep`. */
  lemma MemBounded(keep: nat, steps: seq<Step>, c: int)
    requires Possible(Init(keep), steps)
    ensures |Run(Init(keep), steps).Mem(c)| <= keep + keep / 4
  {
    BoundedRun(Init(keep), steps, c);
  }

  /** Restart is transparent. After any run in which the channel's expiry was never raised or
      turned off, a restart at any later time leaves the channel with exactly the last `keep`
      entries memory held, tombstones included, less those expired by then; and the reloaded
      counter is beyond every retained id. */
  lemma RestartTransparent(keep: nat, steps: seq<Step>, now: int, ok0: bool, ok1: bool, ok2: bool, c: int)
    requires keep >= 1 && Possible(Init(keep), steps)
    requires c in Run(Init(keep), steps).expire && now >= Run(Init(keep), steps).clock
    requires NeverRaises(Init(keep), steps, c)
    ensures var st := Run(Init(keep), steps);
            var st' := Restart(st, now, ok0, ok1, ok2);
            && st'.Mem(c) == Fresh(LastN(st.Mem(c), st.keep), st.expire[c], now)
            && forall e :: e in st'.Mem(c) ==> e.id <= st'.nextId
  {
    RunValid(Init(keep), steps);
    NeverRaisedStays(Init(keep), steps, c);
    var st := Run(Init(keep), steps);
    RestartKeeps(st, now, ok0, ok1, ok2, c);
    ApplyValid(st, DoRestart(now, ok0, ok1, ok2));
    RestartMem(st, now, ok0, ok1, ok2, c);
    IdsBounded(Restart(st, now, ok0, ok1, ok2), c);
  }

  // ---- where a restart does show -------------------------------------------------------

  /** The id counter survives a restart exactly when the log still has a record of the newest id. */
  lemma RestartCounterExact(st: Store, now: int, ok0: bool, ok1: bool, ok2: bool)
    requires Valid(st)
    ensures Restart(st, now, ok0, ok1, ok2).nextId <= st.nextId
    ensures Restart(st, now, ok0, ok1, ok2).nextId == st.nextId
       <==> st.nextId == 0 || exists e :: e in st.log && e.id == st.nextId
  {
    if st.log != [] {
      var e :| e in st.log && e.id == MaxId(st.log);
      assert e.id <= st.nextId;
    }
  }

  lemma EmptyRewrite(m: map<int, seq<Entry>>)
    requires forall c :: c in m ==> m[c] == []
    ensures Merged(m) == []
  {
    MergedReplays(m, 0);
    assert forall i :: 0 <= i < |Merged(m)| ==> Merged(m)[i] in Merged(m);
  }

  lemma NoSlices(m: map<int, seq<Entry>>)
    requires m.Keys == {}
    ensures Total(m) == 0
  {
  }

  const FIRST := Entry(Text, 1, 1, 0, "ann", "", "one", "")
  const SECOND := Entry(Text, 1, 2, 61001, "ann", "", "two", "")

  /** Message 1 is posted to a one-minute channel, expires, and the log is rewritten without it. */
  const EXPIRY_RUN := [DoNewChannel(60), DoPost(1, false, "ann", "one", "", 0), DoJanitor(61001, true)]

  const AFTER_EXPIRY := Store(10, 1, 2, 61001, map[1 := []], [], map[1 := 60], 0, Some(61001), {})

  const AFTER_FIRST := Store(10, 1, 2, 0, map[1 := [FIRST]], [FIRST], map[1 := 60], 0, None, {})

  lemma FirstExpires()
    ensures Janitor(AFTER_FIRST, 61001, true) == AFTER_EXPIRY
  {
    assert StalePrefix([FIRST], 1001) == 1 && [FIRST][1..] == [];
    var w := Swept(AFTER_FIRST, 61001);
    assert w.Keys == {1} && w[1] == [];
    assert w == map[1 := []];
    TotalSplit(AFTER_FIRST.msgs, 1);
    TotalSplit(w, 1);
    NoSlices(AFTER_FIRST.msgs - {1});
    NoSlices(w - {1});
    EmptyRewrite(w);
  }

  lemma ExpiryRun()
    ensures Possible(Init(10), EXPIRY_RUN) && Run(Init(10), EXPIRY_RUN) == AFTER_EXPIRY
  {
    var s1 := Apply(Init(10), EXPIRY_RUN[0]);
    assert s1 == Store(10, 0, 2, 0, map[], [], map[1 := 60], 0, None, {});
    assert s1.Mem(1) + [FIRST] == [FIRST] && s1.log + [FIRST] == [FIRST];
    assert Apply(s1, EXPIRY_RUN[1]) == AFTER_FIRST;
    FirstExpires();
    assert EXPIRY_RUN[1..] == [EXPIRY_RUN[1], EXPIRY_RUN[2]] && EXPIRY_RUN[1..][1..] == [EXPIRY_RUN[2]];
    assert EXPIRY_RUN[1..][1..][1..] == [];
  }

  /** After that run id 1 is forgotten by a restart and handed out a second time, so a client that
      resumes with `since` 1 never sees the new message 1. */
  lemma RestartReusesId(now: int)
    requires now >= 61001
    ensures Possible(Init(10), EXPIRY_RUN)
    ensures Run(Init(10), EXPIRY_RUN).nextId == 1
    ensures Posted(Restart(Run(Init(10), EXPIRY_RUN), now, true, true, true), 1, Text, "ann", "again", "", now).id == 1
  {
    ExpiryRun();
  }

  const LATE_RAISE := [DoPost(1, false, "ann", "two", "", 61001), DoJanitor(122002, true), DoSetExpire(1, 0)]

  const AFTER_SECOND := Store(10, 2, 2, 61001, map[1 := [SECOND]], [SECOND], map[1 := 60], 0, Some(61001), {})

  const AFTER_RAISE := Store(10, 2, 2, 122002, map[1 := []], [SECOND], map[1 := 0], 1, Some(61001), {1})

  /** Within ten minutes of the last compaction an expiry sweep leaves the log alone. */
  lemma SecondExpires()
    ensures Janitor(AFTER_SECOND, 122002, true) == AFTER_RAISE.(expire := map[1 := 60], raised := {})
  {
    assert StalePrefix([SECOND], 62002) == 1 && [SECOND][1..] == [];
    var w := Swept(AFTER_SECOND, 122002);
    assert w.Keys == {1} && w[1] == [];
    assert w == map[1 := []];
    TotalSplit(AFTER_SECOND.msgs, 1);
    TotalSplit(w, 1);
    NoSlices(AFTER_SECOND.msgs - {1});
    NoSlices(w - {1});
  }

  lemma LateRaise()
    ensures Possible(AFTER_EXPIRY, LATE_RAISE) && Run(AFTER_EXPIRY, LATE_RAISE) == AFTER_RAISE
  {
    assert AFTER_EXPIRY.Mem(1) + [SECOND] == [SECOND] && AFTER_EXPIRY.log + [SECOND] == [SECOND];
    assert Apply(AFTER_EXPIRY, LATE_RAISE[0]) == AFTER_SECOND;
    SecondExpires();
    assert LATE_RAISE[1..] == [LATE_RAISE[1], LATE_RAISE[2]] && LATE_RAISE[1..][1..] == [LATE_RAISE[2]];
    assert LATE_RAISE[1..][1..][1..] == [];
  }

  /** Turning expiry off between an expiry sweep and the next compaction lets a restart bring back
      a message every client was told is gone: the proviso of RestartTransparent is needed. */
  lemma RaisedExpiryResurrects()
    ensures Possible(AFTER_EXPIRY, LATE_RAISE)
    ensures Run(AFTER_EXPIRY, LATE_RAISE).Mem(1) == []
    ensures Restart(Run(AFTER_EXPIRY, LATE_RAISE), 122002, true, true, true).Mem(1) == [SECOND]
  {
    LateRaise();
    RestartMem(AFTER_RAISE, 122002, true, true, true, 1);
    assert [SECOND][..0] == [];
    assert Replay([SECOND], 1) == [SECOND];
  }
}
