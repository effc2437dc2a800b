/** Byte accounting and the content-hash index are exact in every run. */
module AccountingProof {
  import opened Util
  import L = MessageLog
  import opened Files

  /** Bytes of the stored files that satisfy `p`. */
  ghost function Bytes(files: map<string, Meta>, p: Meta -> bool): int {
    if files.Keys == {} then 0 else
      var fid := Pick(files.Keys);
      (if p(files[fid]) then files[fid].size else 0) + Bytes(files - {fid}, p)
  }

  function Everyone(): Meta -> bool { (m: Meta) => true }

  function OwnedBy(u: int): Meta -> bool { (m: Meta) => m.owner == u }

  lemma {:induction false} BytesSplit(files: map<string, Meta>, fid: string, p: Meta -> bool)
    requires fid in files
    ensures Bytes(files, p) == (if p(files[fid]) then files[fid].size else 0) + Bytes(files - {fid}, p)
    decreases |files|
  {
    var g := Pick(files.Keys);
    if g != fid {
      BytesSplit(files - {g}, fid, p);
      BytesSplit(files - {fid}, g, p);
      assert files - {g} - {fid} == files - {fid} - {g};
    }
  }

  lemma {:induction false} BytesNonNegative(files: map<string, Meta>, p: Meta -> bool)
    ensures Bytes(files, p) >= 0
    decreases |files|
  {
    if files.Keys != {} {
      BytesNonNegative(files - {Pick(files.Keys)}, p);
    }
  }

  lemma BytesAdd(files: map<string, Meta>, fid: string, m: Meta, p: Meta -> bool)
    requires fid !in files
    ensures Bytes(files[fid := m], p) == Bytes(files, p) + if p(m) then m.size else 0
  {
    BytesSplit(files[fid := m], fid, p);
    assert files[fid := m] - {fid} == files;
  }

  // ---- the invariant -----------------------------------------------------------------------

  /** The index maps each stored hash to its file and holds nothing else. */
  ghost predicate HashExact(files: map<string, Meta>, hashes: map<string, string>) {
    && (forall fid :: fid in files ==> files[fid].sha in hashes && hashes[files[fid].sha] == fid)
    && (forall sum :: sum in hashes ==> hashes[sum] in files && files[hashes[sum]].sha == sum)
  }

  /** Guests (negative ids) are never charged, so only accounts and the nobody account 0 are claimed. */
  ghost predicate BytesExact(h: Hub) {
    && h.total == Bytes(h.files, Everyone())
    && forall u :: u >= 0 ==> h.Used(u) == Bytes(h.files, OwnedBy(u))
  }

  ghost predicate Accounted(h: Hub) {
    HashExact(h.files, h.hashes) && BytesExact(h)
  }

  /** No two stored files have the same content. */
  lemma NoDuplicates(h: Hub, f: string, g: string)
    requires HashExact(h.files, h.hashes) && f in h.files && g in h.files
    ensures h.files[f].sha == h.files[g].sha ==> f == g
  {
  }

  lemma SameBooks(h: Hub, h': Hub)
    requires Accounted(h)
    requires h'.files == h.files && h'.hashes == h.hashes && h'.used == h.used && h'.total == h.total
    ensures Accounted(h')
  {
    assert forall u :: h'.Used(u) == h.Used(u);
  }

  /** Deleting refunds exactly what was charged: for an account the clamp at zero never acts. */
  lemma DeleteAccounted(h: Hub, fid: string)
    requires Accounted(h)
    ensures Accounted(DeleteFile(h, fid))
    ensures fid in h.files && h.files[fid].owner >= 0 ==> h.Used(h.files[fid].owner) >= h.files[fid].size
  {
    if fid in h.files {
      var h', meta := DeleteFile(h, fid), h.files[fid];
      BytesSplit(h.files, fid, Everyone());
      forall u | u >= 0
        ensures h'.Used(u) == Bytes(h'.files, OwnedBy(u))
        ensures u == meta.owner ==> h.Used(u) >= meta.size
      {
        BytesSplit(h.files, fid, OwnedBy(u));
        BytesNonNegative(h.files - {fid}, OwnedBy(u));
        assert h.Used(u) == Bytes(h.files, OwnedBy(u));
      }
    }
  }

  lemma UnrefAccounted(h: Hub, fid: string, c: int)
    requires Accounted(h)
    ensures Accounted(Unref(h, fid, c))
  {
    var h1 := h.(refs := RefsLess(h.refs, fid, c));
    SameBooks(h, h1);
    DeleteAccounted(h1, fid);
  }

  lemma {:induction false} UnrefAllAccounted(h: Hub, ms: seq<L.Entry>, c: int)
    requires Accounted(h)
    ensures Accounted(UnrefAll(h, ms, c))
  {
    if ms != [] {
      UnrefAllAccounted(h, ms[..|ms| - 1], c);
      UnrefAccounted(UnrefAll(h, ms[..|ms| - 1], c), ms[|ms| - 1].fid, c);
    }
  }

  lemma {:induction false} ExpireAccounted(h: Hub, order: seq<int>, now: int)
    requires Accounted(h)
    ensures Accounted(ExpireRefs(h, order, now))
  {
    if order != [] {
      var front, c := order[..|order| - 1], order[|order| - 1];
      ExpireAccounted(h, front, now);
      if c in h.store.expire {
        UnrefAllAccounted(ExpireRefs(h, front, now), StaleOf(h.store.Mem(c), h.store.expire[c], now), c);
      }
    }
  }

  lemma {:induction false} PruneAccounted(h: Hub, order: seq<string>)
    requires Accounted(h)
    ensures Accounted(Pruned(h, order))
  {
    if order != [] {
      PruneAccounted(h, order[..|order| - 1]);
      DeleteAccounted(Pruned(h, order[..|order| - 1]), order[|order| - 1]);
    }
  }

  /** Known content is not stored again; new content is charged once. */
  lemma StoreAccounted(h: Hub, up: Upload, fid: string, sum: string)
    requires Accounted(h) && fid !in h.files && (up.guest <==> up.user < 0)
    ensures Accounted(Stored(h, up, fid, sum))
    ensures StoredAs(h, fid, sum) in Stored(h, up, fid, sum).files
    ensures Stored(h, up, fid, sum).files[StoredAs(h, fid, sum)].sha == sum
  {
    var h' := Stored(h, up, fid, sum);
    if sum !in h.hashes {
      var m := Meta(sum, up.len, up.user);
      BytesAdd(h.files, fid, m, Everyone());
      forall u | u >= 0 ensures h'.Used(u) == Bytes(h'.files, OwnedBy(u)) {
        BytesAdd(h.files, fid, m, OwnedBy(u));
        assert h.Used(u) == Bytes(h.files, OwnedBy(u));
      }
    }
  }

  // ---- rebuilding from the file table ---------------------------------------------------------

  function Restricted(files: map<string, Meta>, order: seq<string>): map<string, Meta> {
    map fid | fid in files && fid in order :: files[fid]
  }

  lemma RestrictedSnoc(files: map<string, Meta>, order: seq<string>)
    requires order != [] && NoDup(order)
    ensures var front, fid := order[..|order| - 1], order[|order| - 1];
            && fid !in Restricted(files, front) && NoDup(front)
            && Restricted(files, order) == if fid in files then Restricted(files, front)[fid := files[fid]]
              else Restricted(files, front)
  {
    assert order == order[..|order| - 1] + [order[|order| - 1]];
  }

  lemma {:induction false} IndexBytes(files: map<string, Meta>, order: seq<string>, u: int)
    requires NoDup(order)
    ensures IndexTotal(files, order) == Bytes(Restricted(files, order), Everyone())
    ensures (if u in IndexUsed(files, order) then IndexUsed(files, order)[u] else 0) ==
            Bytes(Restricted(files, order), OwnedBy(u))
  {
    if order != [] {
      var front, fid := order[..|order| - 1], order[|order| - 1];
      RestrictedSnoc(files, order);
      IndexBytes(files, front, u);
      if fid in files {
        BytesAdd(Restricted(files, front), fid, files[fid], Everyone());
        BytesAdd(Restricted(files, front), fid, files[fid], OwnedBy(u));
      }
    } else {
      assert Restricted(files, order).Keys == {};
    }
  }

  lemma {:induction false} IndexHashExact(files: map<string, Meta>, hashes: map<string, string>, order: seq<string>)
    requires HashExact(files, hashes)
    ensures HashExact(Restricted(files, order), IndexHashes(files, order))
  {
    if order != [] {
      var front, fid := order[..|order| - 1], order[|order| - 1];
      assert order == front + [fid];
      IndexHashExact(files, hashes, front);
      if fid !in files { assert Restricted(files, order) == Restricted(files, front); }
    }
  }

  lemma {:induction false} RefAllBooks(h: Hub, ms: seq<L.Entry>, c: int)
    ensures var h' := RefAll(h, ms, c);
            h'.files == h.files && h'.hashes == h.hashes && h'.used == h.used && h'.total == h.total &&
            h'.store == h.store && h'.trimmed == h.trimmed && h'.lim == h.lim &&
            h'.uploads == h.uploads && h'.uploading == h.uploading
  {
    if ms != [] { RefAllBooks(h, ms[..|ms| - 1], c); }
  }

  lemma {:induction false} IndexRefsBooks(h: Hub, order: seq<int>)
    ensures var h' := IndexRefs(h, order);
            h'.files == h.files && h'.hashes == h.hashes && h'.used == h.used && h'.total == h.total &&
            h'.store == h.store && h'.trimmed == h.trimmed && h'.lim == h.lim &&
            h'.uploads == h.uploads && h'.uploading == h.uploading
  {
    if order != [] {
      IndexRefsBooks(h, order[..|order| - 1]);
      RefAllBooks(IndexRefs(h, order[..|order| - 1]), h.store.Mem(order[|order| - 1]), order[|order| - 1]);
    }
  }

  /** Rebuilding the books from the file table gives every account the figure it had. */
  lemma IndexAccounted(h: Hub, fids: seq<string>, cids: seq<int>)
    requires HashExact(h.files, h.hashes) && Lists(fids, h.files.Keys)
    ensures Accounted(Indexed(h, fids, cids))
    ensures Indexed(h, fids, cids).files == h.files
  {
    var h' := Indexed(h, fids, cids);
    IndexRefsBooks(h.(hashes := IndexHashes(h.files, fids), used := IndexUsed(h.files, fids),
      total := IndexTotal(h.files, fids),
                      refs := map[], uploads := map[], uploading := map[], trimmed := multiset{}), cids);
    assert Restricted(h.files, fids) == h.files;
    IndexHashExact(h.files, h.hashes, fids);
    IndexBytes(h.files, fids, 0);
    forall u | u >= 0 ensures h'.Used(u) == Bytes(h.files, OwnedBy(u)) {
      IndexBytes(h.files, fids, u);
    }
  }

  // ---- every run ------------------------------------------------------------------------------

  ghost predicate UploadersTold(h: Hub) {
    forall id :: id in h.uploads ==> (h.uploads[id].guest <==> h.uploads[id].user < 0)
  }

  /** Posting and referencing leave the books as storing left them. */
  lemma CommitBooks(h: Hub, id: int, fid: string, sum: string, from: string, name: string, now: int)
    requires id in h.uploads && h.uploads[id].cid in h.store.expire
    ensures var h', h1 := Commit(h, id, fid, sum, from, name, now), Stored(h, h.uploads[id], fid, sum);
            && h'.files == h1.files && h'.hashes == h1.hashes && h'.used == h1.used && h'.total == h1.total
            && h'.uploads == h.uploads[id := h.uploads[id].(receiving := false)]
  {
  }

  lemma CommitAccounted(h: Hub, id: int, fid: string, sum: string, from: string, name: string, now: int)
    requires Accounted(h) && UploadersTold(h) && id in h.uploads && fid !in h.files
    ensures Accounted(Commit(h, id, fid, sum, from, name, now))
    ensures UploadersTold(Commit(h, id, fid, sum, from, name, now))
  {
    if h.uploads[id].cid in h.store.expire {
      CommitBooks(h, id, fid, sum, from, name, now);
      StoreAccounted(h, h.uploads[id], fid, sum);
      SameBooks(Stored(h, h.uploads[id], fid, sum), Commit(h, id, fid, sum, from, name, now));
    } else {
      SameBooks(h, Commit(h, id, fid, sum, from, name, now));
    }
  }

  lemma {:induction false} UnrefAllUploads(h: Hub, ms: seq<L.Entry>, c: int)
    ensures var h' := UnrefAll(h, ms, c);
            h'.uploads == h.uploads && h'.uploading == h.uploading && h'.lim == h.lim &&
            h'.store == h.store && h'.trimmed == h.trimmed
  {
    if ms != [] { UnrefAllUploads(h, ms[..|ms| - 1], c); }
  }

  lemma {:induction false} ExpireUploads(h: Hub, order: seq<int>, now: int)
    ensures var h' := ExpireRefs(h, order, now);
            h'.uploads == h.uploads && h'.uploading == h.uploading && h'.lim == h.lim &&
            h'.store == h.store && h'.trimmed == h.trimmed
  {
    if order != [] {
      var front, c := order[..|order| - 1], order[|order| - 1];
      ExpireUploads(h, front, now);
      if c in h.store.expire {
        UnrefAllUploads(ExpireRefs(h, front, now), StaleOf(h.store.Mem(c), h.store.expire[c], now), c);
      }
    }
  }

  lemma {:induction false} PruneUploads(h: Hub, order: seq<string>)
    ensures var h' := Pruned(h, order);
            h'.uploads == h.uploads && h'.uploading == h.uploading && h'.lim == h.lim &&
            h'.store == h.store && h'.trimmed == h.trimmed && h'.refs == h.refs
  {
    if order != [] { PruneUploads(h, order[..|order| - 1]); }
  }

  lemma ApplyAccounted(h: Hub, s: Step)
    requires Accounted(h) && UploadersTold(h) && Enabled(h, s)
    ensures Accounted(Apply(h, s)) && UploadersTold(Apply(h, s))
  {
    var h' := Apply(h, s);
    match s {
      case DoErase(c, id, actor) =>
        EraseAccounted(h, c, id, actor);
      case DoJanitor(order, now, ok) =>
        ExpireAccounted(h, order, now);
        ExpireUploads(h, order, now);
        SameBooks(ExpireRefs(h, order, now), h');
      case DoDeleteChannel(c, ok) =>
        UnrefAllAccounted(h, h.store.Mem(c), c);
        UnrefAllUploads(h, h.store.Mem(c), c);
        SameBooks(UnrefAll(h, h.store.Mem(c), c), h');
      case DoPrune(fids) =>
        PruneAccounted(h, fids);
        PruneUploads(h, fids);
      case DoCommit(id, fid, sum, from, name, now) => CommitAccounted(h, id, fid, sum, from, name, now);
      case DoRestart(fids, cids, order, now, ok0, ok1, ok2) =>
        RestartAccounted(h, fids, cids, order, now, ok0, ok1, ok2);
      case _ => SameBooks(h, h');
    }
  }

  lemma EraseAccounted(h: Hub, c: int, id: nat, actor: string)
    requires Accounted(h)
    ensures Accounted(EraseMsg(h, c, id, actor))
    ensures EraseMsg(h, c, id, actor).uploads == h.uploads
  {
    var ms := h.store.Mem(c);
    if L.CanErase(ms, id) {
      var h1 := h.(store := L.Erase(h.store, c, id, actor));
      SameBooks(h, h1);
      UnrefAccounted(h1, ms[L.Find(ms, id)].fid, c);
    }
  }

  lemma RestartAccounted(h: Hub, fids: seq<string>, cids: seq<int>, order: seq<int>, now: int, ok0: bool, ok1: bool,
      ok2: bool)
    requires Accounted(h) && Lists(fids, h.files.Keys)
    ensures Accounted(Restarted(h, fids, cids, order, now, ok0, ok1, ok2))
    ensures Restarted(h, fids, cids, order, now, ok0, ok1, ok2).uploads == map[]
  {
    var h0 := h.(store := L.Load(h.store, ok0));
    IndexAccounted(h0, fids, cids);
    var h1 := Indexed(h0, fids, cids);
    IndexRefsBooks(h0.(hashes := IndexHashes(h.files, fids), used := IndexUsed(h.files, fids),
      total := IndexTotal(h.files, fids),
                       refs := map[], uploads := map[], uploading := map[], trimmed := multiset{}), cids);
    ExpireAccounted(h1, order, now);
    ExpireUploads(h1, order, now);
    SameBooks(ExpireRefs(h1, order, now), Restarted(h, fids, cids, order, now, ok0, ok1, ok2));
  }

  /** Storage accounting is exact in every run, restarts included: `totalBytes` is the sum of the
      stored sizes, each account is charged the sizes it owns, and the hash index inverts the stored
      hashes. */
  lemma {:induction false} RunAccounted(h: Hub, steps: seq<Step>)
    requires Accounted(h) && UploadersTold(h) && Possible(h, steps)
    ensures Accounted(Run(h, steps)) && UploadersTold(Run(h, steps))
    decreases |steps|
  {
    if steps != [] {
      ApplyAccounted(h, steps[0]);
      RunAccounted(Apply(h, steps[0]), steps[1..]);
    }
  }

  lemma {:induction false} NothingStored(p: Meta -> bool)
    ensures Bytes(map[], p) == 0
  {
  }

  /** From the first start on, through restarts, the books are exact. */
  lemma BooksFromStart(keep: nat, lim: Limits, steps: seq<Step>)
    requires Possible(Init(keep, lim), steps)
    ensures Accounted(Run(Init(keep, lim), steps))
  {
    NothingStored(Everyone());
    forall u | u >= 0 ensures Init(keep, lim).Used(u) == Bytes(Init(keep, lim).files, OwnedBy(u)) {
      NothingStored(OwnedBy(u));
    }
    RunAccounted(Init(keep, lim), steps);
  }
}
