/** Reference counts are exact in every run, and no file goes while a retained message refers to it. */
module ReferenceProof {
  import opened Util
  import opened Files
  import L = MessageLog
  import R = RestartProof
  import A = AccountingProof

  // ---- counting mentions -------------------------------------------------------------------

  lemma {:induction false} MentionsConcat(a: seq<L.Entry>, b: seq<L.Entry>, fid: string)
    ensures Mentions(a + b, fid) == Mentions(a, fid) + Mentions(b, fid)
  {
    if b == [] {
      assert a + b == a;
    } else {
      MentionsConcat(a, b[..|b| - 1], fid);
      assert (a + b)[..|a + b| - 1] == a + b[..|b| - 1];
    }
  }

  lemma MentionsSplit(ms: seq<L.Entry>, k: nat, fid: string)
    requires k <= |ms|
    ensures Mentions(ms, fid) == Mentions(ms[..k], fid) + Mentions(ms[k..], fid)
  {
    MentionsConcat(ms[..k], ms[k..], fid);
    assert ms[..k] + ms[k..] == ms;
  }

  function One(b: bool): nat { if b then 1 else 0 }

  lemma MentionsOne(e: L.Entry, fid: string)
    ensures Mentions([e], fid) == One(RefersTo(e, fid))
  {
    assert [e][..0] == [];
  }

  lemma MentionsUpdate(ms: seq<L.Entry>, i: nat, e: L.Entry, fid: string)
    requires i < |ms|
    ensures Mentions(ms[i := e], fid) == Mentions(ms, fid) - One(RefersTo(ms[i], fid)) + One(RefersTo(e, fid))
  {
    assert ms == ms[..i] + [ms[i]] + ms[i + 1..];
    assert ms[i := e] == ms[..i] + [e] + ms[i + 1..];
    MentionsConcat(ms[..i] + [ms[i]], ms[i + 1..], fid);
    MentionsConcat(ms[..i] + [e], ms[i + 1..], fid);
    MentionsConcat(ms[..i], [ms[i]], fid);
    MentionsConcat(ms[..i], [e], fid);
    MentionsOne(ms[i], fid);
    MentionsOne(e, fid);
  }

  lemma {:induction false} MentionsSome(ms: seq<L.Entry>, fid: string)
    ensures Mentions(ms, fid) > 0 <==> exists e :: e in ms && RefersTo(e, fid)
  {
    if ms != [] {
      MentionsSome(ms[..|ms| - 1], fid);
      assert ms == ms[..|ms| - 1] + [ms[|ms| - 1]];
    }
  }

  lemma {:induction false} RefsOfCount(ms: seq<L.Entry>, c: int, fid: string, d: int)
    ensures RefsOf(ms, c)[(fid, d)] == if d == c then Mentions(ms, fid) else 0
  {
    if ms != [] { RefsOfCount(ms[..|ms| - 1], c, fid, d); }
  }

  // ---- the invariant -------------------------------------------------------------------------

  /** Every count is what the slices mention plus what the trim left behind. */
  ghost predicate Counted(h: Hub, st: L.Store) {
    forall fid, c :: h.RefCount(fid, c) == Mentions(st.Mem(c), fid) + h.trimmed[(fid, c)]
  }

  ghost predicate Positive(h: Hub) {
    forall fid :: fid in h.refs ==> h.refs[fid] != map[] && forall c :: c in h.refs[fid] ==> h.refs[fid][c] > 0
  }

  /** Whatever goes is referred to by nothing. */
  ghost predicate Sheds(h: Hub, h': Hub) {
    forall fid :: fid in h.files && fid !in h'.files ==> fid !in h'.refs
  }

  ghost predicate FewerRefs(h: Hub, h': Hub) {
    forall fid, c :: h'.RefCount(fid, c) <= h.RefCount(fid, c)
  }

  ghost predicate Shrinks(h: Hub, h': Hub) {
    h'.refs.Keys <= h.refs.Keys && h'.files.Keys <= h.files.Keys && Sheds(h, h') && FewerRefs(h, h')
  }

  // ---- dropping references ---------------------------------------------------------------------

  function Count(refs: map<string, map<int, int>>, fid: string, c: int): int {
    if fid in refs && c in refs[fid] then refs[fid][c] else 0
  }

  lemma LessCounts(refs: map<string, map<int, int>>, fid: string, c: int)
    requires Count(refs, fid, c) >= 1
    ensures forall g, d :: Count(RefsLess(refs, fid, c), g, d) == Count(refs, g, d) - One(g == fid && d == c)
  {
    var m := OneLess(refs[fid], c);
    forall g, d ensures Count(RefsLess(refs, fid, c), g, d) == Count(refs, g, d) - One(g == fid && d == c) {
      if g == fid {
        assert d in m <==> d in refs[fid] && !(d == c && refs[fid][c] == 1);
      }
    }
  }

  lemma UnrefCounts(h: Hub, fid: string, c: int)
    requires Positive(h) && h.RefCount(fid, c) >= 1
    ensures var h' := Unref(h, fid, c);
            && (forall g, d :: h'.RefCount(g, d) == h.RefCount(g, d) - One(g == fid && d == c))
            && Positive(h') && Shrinks(h, h')
  {
    var h' := Unref(h, fid, c);
    assert h'.refs == RefsLess(h.refs, fid, c);
    LessCounts(h.refs, fid, c);
    forall g, d ensures h'.RefCount(g, d) == h.RefCount(g, d) - One(g == fid && d == c) {
      assert h'.RefCount(g, d) == Count(h'.refs, g, d);
      assert h.RefCount(g, d) == Count(h.refs, g, d);
    }
  }

  lemma {:induction false} UnrefAllCounts(h: Hub, ms: seq<L.Entry>, c: int)
    requires Positive(h) && forall fid :: h.RefCount(fid, c) >= Mentions(ms, fid)
    ensures var h' := UnrefAll(h, ms, c);
            && (forall g, d :: h'.RefCount(g, d) == h.RefCount(g, d) - if d == c then Mentions(ms, g) else 0)
            && Positive(h') && Shrinks(h, h')
  {
    if ms != [] {
      var front, e := ms[..|ms| - 1], ms[|ms| - 1];
      assert forall fid :: Mentions(front, fid) <= Mentions(ms, fid);
      UnrefAllCounts(h, front, c);
      var h1 := UnrefAll(h, front, c);
      if e.kind == L.File && e.fid != "" {
        assert h1.RefCount(e.fid, c) == h.RefCount(e.fid, c) - Mentions(front, e.fid);
        assert h.RefCount(e.fid, c) >= Mentions(ms, e.fid);
        UnrefCounts(h1, e.fid, c);
      }
    }
  }

  lemma StaleMentions(ms: seq<L.Entry>, sec: int, now: int, fid: string)
    ensures Mentions(ms, fid) == Mentions(StaleOf(ms, sec, now), fid) + Mentions(L.Fresh(ms, sec, now), fid)
  {
    if sec > 0 { MentionsSplit(ms, L.StalePrefix(ms, now - sec * 1000), fid); }
  }

  /** What the sweep takes off one count. */
  ghost function SweptOff(st: L.Store, order: seq<int>, now: int, fid: string, c: int): nat {
    if c in order && c in st.expire then Mentions(StaleOf(st.Mem(c), st.expire[c], now), fid) else 0
  }

  lemma {:induction false} ExpireCounts(h: Hub, order: seq<int>, now: int)
    requires Positive(h) && Counted(h, h.store) && NoDup(order)
    ensures var h' := ExpireRefs(h, order, now);
            && (forall g, d :: h'.RefCount(g, d) == h.RefCount(g, d) - SweptOff(h.store, order, now, g, d))
            && Positive(h') && Shrinks(h, h')
  {
    if order != [] {
      var front, c := order[..|order| - 1], order[|order| - 1];
      assert order == front + [c] && c !in front;
      ExpireCounts(h, front, now);
      var h1 := ExpireRefs(h, front, now);
      if c in h.store.expire {
        var stale := StaleOf(h.store.Mem(c), h.store.expire[c], now);
        forall fid ensures h1.RefCount(fid, c) >= Mentions(stale, fid) {
          assert h.RefCount(fid, c) == Mentions(h.store.Mem(c), fid) + h.trimmed[(fid, c)];
          assert SweptOff(h.store, front, now, fid, c) == 0;
          StaleMentions(h.store.Mem(c), h.store.expire[c], now, fid);
        }
        UnrefAllCounts(h1, stale, c);
      }
      forall g, d
        ensures ExpireRefs(h, order, now).RefCount(g, d) == h.RefCount(g, d) - SweptOff(h.store, order, now, g, d)
      {
        assert h1.RefCount(g, d) == h.RefCount(g, d) - SweptOff(h.store, front, now, g, d);
      }
    }
  }

  // ---- every step keeps the counts -------------------------------------------------------------

  ghost predicate RefsOk(h: Hub) {
    L.Valid(h.store) && Positive(h) && Counted(h, h.store)
  }

  lemma ShrinksAgain(h: Hub, h1: Hub, h': Hub)
    requires Shrinks(h, h1) && h'.refs == h1.refs && h'.files == h1.files
    ensures Shrinks(h, h')
  {
    forall fid, c ensures h'.RefCount(fid, c) <= h.RefCount(fid, c) {
      assert h'.RefCount(fid, c) == h1.RefCount(fid, c);
    }
  }

  lemma ExpiredCounted(h: Hub, order: seq<int>, now: int, ok: bool)
    requires RefsOk(h) && Lists(order, h.store.expire.Keys) && now >= h.store.clock
    ensures Counted(Expired(h, order, now, ok), L.Janitor(h.store, now, ok))
  {
    var h', h1, st := Expired(h, order, now, ok), ExpireRefs(h, order, now), L.Janitor(h.store, now, ok);
    ExpireCounts(h, order, now);
    A.ExpireUploads(h, order, now);
    forall fid, c ensures h'.RefCount(fid, c) == Mentions(st.Mem(c), fid) + h'.trimmed[(fid, c)] {
      assert h'.RefCount(fid, c) == h1.RefCount(fid, c);
      assert h.RefCount(fid, c) == Mentions(h.store.Mem(c), fid) + h.trimmed[(fid, c)];
      if c in h.store.expire {
        R.JanitorMem(h.store, now, ok, c);
        StaleMentions(h.store.Mem(c), h.store.expire[c], now, fid);
      } else {
        assert c !in h.store.msgs && c !in st.msgs;
      }
    }
  }

  lemma ExpiredOk(h: Hub, order: seq<int>, now: int, ok: bool)
    requires RefsOk(h) && Lists(order, h.store.expire.Keys) && now >= h.store.clock
    ensures RefsOk(Expired(h, order, now, ok)) && Shrinks(h, Expired(h, order, now, ok))
  {
    var h1 := ExpireRefs(h, order, now);
    R.JanitorValid(h.store, now, ok);
    ExpiredCounted(h, order, now, ok);
    ExpireCounts(h, order, now);
    ShrinksAgain(h, h1, Expired(h, order, now, ok));
  }

  lemma DeletedOk(h: Hub, c: int, ok: bool)
    requires RefsOk(h) && c in h.store.expire
    ensures RefsOk(Deleted(h, c, ok)) && Shrinks(h, Deleted(h, c, ok))
  {
    var h', ms := Deleted(h, c, ok), h.store.Mem(c);
    var h1 := UnrefAll(h, ms, c);
    R.DeleteChannelValid(h.store, c, ok);
    forall fid ensures h.RefCount(fid, c) >= Mentions(ms, fid) {
      assert h.RefCount(fid, c) == Mentions(ms, fid) + h.trimmed[(fid, c)];
    }
    UnrefAllCounts(h, ms, c);
    A.UnrefAllUploads(h, ms, c);
    forall fid, d ensures h'.RefCount(fid, d) == Mentions(h'.store.Mem(d), fid) + h'.trimmed[(fid, d)] {
      assert h'.RefCount(fid, d) == h1.RefCount(fid, d);
      assert h.RefCount(fid, d) == Mentions(h.store.Mem(d), fid) + h.trimmed[(fid, d)];
      assert h'.store.Mem(d) == if d == c then [] else h.store.Mem(d);
    }
  }

  lemma EraseMentions(st: L.Store, c: int, id: nat, actor: string, fid: string, d: int)
    requires L.CanErase(st.Mem(c), id)
    ensures Mentions(L.Erase(st, c, id, actor).Mem(d), fid) ==
            Mentions(st.Mem(d), fid) - One(d == c && RefersTo(st.Mem(c)[L.Find(st.Mem(c), id)], fid))
  {
    var ms := st.Mem(c);
    var i := L.Find(ms, id);
    MentionsUpdate(ms, i, L.TombstoneOf(ms[i], actor), fid);
  }

  lemma MentionedAt(ms: seq<L.Entry>, i: nat, fid: string)
    requires i < |ms| && RefersTo(ms[i], fid)
    ensures Mentions(ms, fid) >= 1
  {
    assert ms[i] in ms;
    MentionsSome(ms, fid);
  }

  function Target(h: Hub, c: int, id: nat): L.Entry
    requires L.CanErase(h.store.Mem(c), id)
  {
    h.store.Mem(c)[L.Find(h.store.Mem(c), id)]
  }

  lemma EraseRefs(h: Hub, c: int, id: nat, actor: string)
    requires Positive(h) && Counted(h, h.store) && L.CanErase(h.store.Mem(c), id)
    ensures var h' := EraseMsg(h, c, id, actor);
            && h'.store == L.Erase(h.store, c, id, actor) && h'.trimmed == h.trimmed
            && Positive(h') && Shrinks(h, h')
            && forall fid, d ::
                 h'.RefCount(fid, d) == h.RefCount(fid, d) - One(d == c && RefersTo(Target(h, c, id), fid))
  {
    var ms, orig := h.store.Mem(c), Target(h, c, id);
    var h1 := h.(store := L.Erase(h.store, c, id, actor));
    assert forall fid, d :: h1.RefCount(fid, d) == h.RefCount(fid, d);
    assert Positive(h1);
    if RefersTo(orig, orig.fid) {
      MentionedAt(ms, L.Find(ms, id), orig.fid);
      assert h.RefCount(orig.fid, c) == Mentions(ms, orig.fid) + h.trimmed[(orig.fid, c)];
      UnrefCounts(h1, orig.fid, c);
    }
  }

  lemma EraseOk(h: Hub, c: int, id: nat, actor: string)
    requires RefsOk(h) && c in h.store.expire
    ensures RefsOk(EraseMsg(h, c, id, actor)) && Shrinks(h, EraseMsg(h, c, id, actor))
  {
    if L.CanErase(h.store.Mem(c), id) {
      EraseRefs(h, c, id, actor);
      EraseCounted(h, EraseMsg(h, c, id, actor), c, id, actor);
      R.EraseValid(h.store, c, id, actor);
    }
  }

  lemma EraseCounted(h: Hub, h': Hub, c: int, id: nat, actor: string)
    requires Counted(h, h.store) && L.CanErase(h.store.Mem(c), id)
    requires h'.store == L.Erase(h.store, c, id, actor) && h'.trimmed == h.trimmed
    requires forall fid, d :: h'.RefCount(fid, d) == h.RefCount(fid, d) - One(d == c && RefersTo(Target(h, c, id), fid))
    ensures Counted(h', h'.store)
  {
    forall fid, d ensures h'.RefCount(fid, d) == Mentions(h'.store.Mem(d), fid) + h'.trimmed[(fid, d)] {
      assert h.RefCount(fid, d) == Mentions(h.store.Mem(d), fid) + h.trimmed[(fid, d)];
      EraseMentions(h.store, c, id, actor, fid, d);
    }
  }

  /** After a post the counts are short by exactly the new message's own reference. */
  lemma PostCounts(h: Hub, e: L.Entry, fid: string, c: int)
    requires Counted(h, h.store)
    ensures var h' := PostMsg(h, e);
            h'.RefCount(fid, c) + One(RefersTo(e, fid) && c == e.cid) ==
              Mentions(h'.store.Mem(c), fid) + h'.trimmed[(fid, c)]
  {
    var h' := PostMsg(h, e);
    assert h.RefCount(fid, c) == Mentions(h.store.Mem(c), fid) + h.trimmed[(fid, c)];
    assert h'.RefCount(fid, c) == h.RefCount(fid, c);
    var all := h.store.Mem(e.cid) + [e];
    var k := |all| - |L.Trimmed(all, h.store.keep)|;
    RefsOfCount(all[..k], e.cid, fid, c);
    if c == e.cid {
      MentionsConcat(h.store.Mem(c), [e], fid);
      MentionsOne(e, fid);
      MentionsSplit(all, k, fid);
      assert h'.store.Mem(c) == all[k..];
    } else {
      assert h'.store.Mem(c) == h.store.Mem(c);
    }
  }

  lemma TextOk(h: Hub, e: L.Entry)
    requires RefsOk(h) && e.cid in h.store.expire && e.kind == L.Text && e.id == h.store.nextId + 1 &&
             e.ts >= h.store.clock
    ensures RefsOk(PostMsg(h, e))
  {
    R.PostValid(h.store, e.cid, e);
    forall fid, c ensures PostMsg(h, e).RefCount(fid, c) ==
      Mentions(PostMsg(h, e).store.Mem(c), fid) + PostMsg(h, e).trimmed[(fid, c)] {
      PostCounts(h, e, fid, c);
    }
  }

  lemma RefCounts(h: Hub, fid: string, c: int)
    requires Positive(h)
    ensures Positive(Ref(h, fid, c))
    ensures forall g, d :: Ref(h, fid, c).RefCount(g, d) == h.RefCount(g, d) + One(g == fid && d == c)
  {
  }

  lemma FileOk(h: Hub, e: L.Entry)
    requires RefsOk(h) && e.cid in h.store.expire && e.kind == L.File && e.fid != ""
    requires e.id == h.store.nextId + 1 && e.ts >= h.store.clock
    ensures RefsOk(Ref(PostMsg(h, e), e.fid, e.cid))
  {
    R.PostValid(h.store, e.cid, e);
    var h1 := PostMsg(h, e);
    RefCounts(h1, e.fid, e.cid);
    FileCounted(h, h1, Ref(h1, e.fid, e.cid), e);
  }

  lemma FileCounted(h: Hub, h1: Hub, h': Hub, e: L.Entry)
    requires Counted(h, h.store) && h1 == PostMsg(h, e) && RefersTo(e, e.fid)
    requires h'.store == h1.store && h'.trimmed == h1.trimmed
    requires forall g, d :: h'.RefCount(g, d) == h1.RefCount(g, d) + One(g == e.fid && d == e.cid)
    ensures Counted(h', h'.store)
  {
    forall fid, c ensures h'.RefCount(fid, c) == Mentions(h'.store.Mem(c), fid) + h'.trimmed[(fid, c)] {
      PostCounts(h, e, fid, c);
    }
  }
}
