/** The hub's file fields and the methods that change them, each proved to make the step that Files
    defines. The message slices are read from `store`; MessageStoreClass changes them. */
module FileStoreClass {
  import opened Util
  import opened Files
  import opened ReferenceProof
  import opened ReferenceRuns
  import opened UploadProof
  import L = MessageLog
  import A = AccountingProof

  lemma UnrefAllSnoc(h: Hub, ms: seq<L.Entry>, e: L.Entry, c: int)
    ensures UnrefAll(h, ms + [e], c) ==
            if e.kind == L.File && e.fid != "" then Unref(UnrefAll(h, ms, c), e.fid, c) else UnrefAll(h, ms, c)
  {
    assert (ms + [e])[..|ms + [e]| - 1] == ms;
  }

  lemma RefAllSnoc(h: Hub, ms: seq<L.Entry>, e: L.Entry, c: int)
    ensures RefAll(h, ms + [e], c) ==
            if e.kind == L.File && e.fid != "" then Ref(RefAll(h, ms, c), e.fid, c) else RefAll(h, ms, c)
  {
    assert (ms + [e])[..|ms + [e]| - 1] == ms;
  }

  lemma ListSnoc<T(!new)>(order: seq<T>, x: T, all: set<T>, todo: set<T>)
    requires Lists(order, all - todo) && x in todo && todo <= all
    ensures Lists(order + [x], all - (todo - {x}))
    ensures (order + [x])[..|order + [x]| - 1] == order
  {
    assert forall i :: 0 <= i < |order| ==> order[i] in order;
  }

  // ---- what the caller of a step finds --------------------------------------------------------

  /** One reference more, and no other count changes. */
  ghost predicate OneMore(was: Hub, h: Hub, fid: string, c: int) {
    Positive(h) && forall g, d :: h.RefCount(g, d) == was.RefCount(g, d) + One(g == fid && d == c)
  }

  /** One reference less, and whatever goes is referred to by nothing. */
  ghost predicate OneFewer(was: Hub, h: Hub, fid: string, c: int) {
    Positive(h) && Shrinks(was, h) && forall g, d :: h.RefCount(g, d) == was.RefCount(g, d) - One(g == fid && d == c)
  }

  lemma UnrefDone(h: Hub, fid: string, c: int)
    requires Positive(h) && h.RefCount(fid, c) >= 1
    ensures OneFewer(h, Unref(h, fid, c), fid, c)
  {
    UnrefCounts(h, fid, c);
  }

  lemma RefDone(h: Hub, fid: string, c: int)
    requires Positive(h)
    ensures OneMore(h, Ref(h, fid, c), fid, c)
  {
    RefCounts(h, fid, c);
  }

  /** The uploader may post and stays within quota and slots at the moment of admission. */
  ghost predicate Admitted(was: Hub, h: Hub, id: int, u: int, guest: bool, c: int, len: nat) {
    && id in h.uploads && h.uploads[id] == Upload(u, guest, c, len, true) && len <= h.lim.MaxFileFor(c)
    && (!guest && h.lim.QuotaFor(u) > 0 ==> was.Used(u) + len <= h.lim.QuotaFor(u))
    && (h.lim.maxUploads > 0 ==> h.Uploading(u) <= h.lim.maxUploads)
  }

  /** The newest message of the channel says who sent what and when, and refers to a stored file with the
      content received. */
  ghost predicate Shared(h: Hub, c: int, sum: string, from: string, name: string, now: int) {
    var ms := h.store.Mem(c);
    && ms != [] && ms[|ms| - 1].kind == L.File && ms[|ms| - 1].fid != ""
    && ms[|ms| - 1].cid == c && ms[|ms| - 1].from == from && ms[|ms| - 1].body == name && ms[|ms| - 1].ts == now
    && ms[|ms| - 1].fid in h.files && h.files[ms[|ms| - 1].fid].sha == sum
  }

  lemma PostedLast(st: L.Store, e: L.Entry)
    requires st.keep >= 1
    ensures var ms := L.Post(st, e.cid, e).Mem(e.cid); ms != [] && ms[|ms| - 1] == e
  {
  }

  lemma CommitShares(h: Hub, s: Step)
    requires A.Accounted(h) && A.UploadersTold(h) && "" !in h.files && Enabled(h, s) && s.DoCommit?
    requires h.uploads[s.up].cid in h.store.expire && h.store.keep >= 1
    ensures Shared(Apply(h, s), h.uploads[s.up].cid, s.sum, s.from, s.name, s.now)
  {
    var up, as1 := h.uploads[s.up], StoredAs(h, s.fid, s.sum);
    A.StoreAccounted(h, up, s.fid, s.sum);
    A.CommitBooks(h, s.up, s.fid, s.sum, s.from, s.name, s.now);
    var e := L.Entry(L.File, up.cid, h.store.nextId + 1, s.now, s.from, "", s.name, as1);
    CommitStore(h, s.up, s.fid, s.sum, s.from, s.name, s.now, e);
    PostedLast(h.store, e);
  }

  /** What `indexFiles` rebuilds: exact counts, exact books, and every account's figure as it was. */
  ghost predicate Rebuilt(was: Hub, h: Hub) {
    CountsOk(h) && h.trimmed == multiset{} && forall u :: u >= 0 ==> h.Used(u) == was.Used(u)
  }

  lemma IndexDone(h: Hub, fids: seq<string>, cids: seq<int>)
    requires CountsOk(h) && Lists(fids, h.files.Keys) && Lists(cids, h.store.msgs.Keys)
    ensures Rebuilt(h, Indexed(h, fids, cids))
  {
    IndexedOk(h, fids, cids);
    A.IndexAccounted(h, fids, cids);
    A.IndexRefsBooks(Blank(h, fids), cids);
    var h' := Indexed(h, fids, cids);
    forall u | u >= 0 ensures h'.Used(u) == h.Used(u) {
      assert h'.Used(u) == A.Bytes(h'.files, A.OwnedBy(u));
    }
  }

  class FileStore {
    const lim: Limits
    var store: L.Store
    var files: map<string, Meta>
    var hashes: map<string, string>
    var refs: map<string, map<int, int>>
    var used: map<int, int>
    var total: int
    var uploads: map<int, Upload>
    var uploading: map<int, int>
    ghost var trimmed: multiset<(string, int)>

    ghost function Snap(): Hub
      reads this
    {
      Hub(store, lim, files, hashes, refs, used, total, uploads, uploading, trimmed)
    }

    /** Counts, books and index are exact. */
    ghost predicate Valid()
      reads this
    {
      CountsOk(Snap())
    }

    constructor (keep: nat, lim: Limits)
      requires keep >= 1
      ensures Snap() == Init(keep, lim) && Valid()
    {
      this.lim := lim;
      store := L.Init(keep);
      files, hashes, refs, used, total := map[], map[], map[], map[], 0;
      uploads, uploading, trimmed := map[], map[], multiset{};
      new;
      InitOk(keep, lim);
    }

    function Used(u: int): int
      reads this
    {
      if u in used then used[u] else 0
    }

    function Uploading(u: int): int
      reads this
    {
      if u in uploading then uploading[u] else 0
    }

    // ---- references ----------------------------------------------------------------------

    method RefFile(fid: string, c: int)
      modifies this`refs
      ensures Snap() == Ref(old(Snap()), fid, c)
      ensures old(Positive(Snap())) ==> OneMore(old(Snap()), Snap(), fid, c)
    {
      if Positive(Snap()) { RefDone(Snap(), fid, c); }
      var m := if fid in refs then refs[fid] else map[];
      refs := refs[fid := m[c := (if c in m then m[c] else 0) + 1]];
    }

    method DeleteFile(fid: string)
      modifies this
      ensures Snap() == Files.DeleteFile(old(Snap()), fid)
    {
      if fid in files {
        var meta := files[fid];
        var left := Used(meta.owner) - meta.size;
        if left < 0 {
          left := 0;
        }
        used := used[meta.owner := left];
        total := total - meta.size;
        hashes := hashes - {meta.sha};
        files := files - {fid};
      }
    }

    method UnrefFile(fid: string, c: int)
      modifies this
      ensures Snap() == Unref(old(Snap()), fid, c)
      ensures old(Positive(Snap()) && Snap().RefCount(fid, c) >= 1) ==> OneFewer(old(Snap()), Snap(), fid, c)
    {
      if Positive(Snap()) && Snap().RefCount(fid, c) >= 1 { UnrefDone(Snap(), fid, c); }
      TakeBack(fid, c);
    }

    method TakeBack(fid: string, c: int)
      modifies this
      ensures Snap() == Unref(old(Snap()), fid, c)
    {
      if fid in refs {
        var m := refs[fid];
        if c in m {
          m := if m[c] - 1 <= 0 then m - {c} else m[c := m[c] - 1];
        }
        assert m == OneLess(refs[fid], c);
        if m != map[] {
          refs := refs[fid := m];
          return;
        }
      }
      refs := refs - {fid};
      DeleteFile(fid);
    }

    method UnrefEntry(e: L.Entry, c: int)
      modifies this
      ensures Snap() == if e.kind == L.File && e.fid != "" then Unref(old(Snap()), e.fid, c) else old(Snap())
    {
      if e.kind == L.File && e.fid != "" {
        UnrefFile(e.fid, c);
      }
    }

    method UnrefSlice(ms: seq<L.Entry>, c: int)
      modifies this
      ensures Snap() == UnrefAll(old(Snap()), ms, c)
    {
      ghost var was := Snap();
      var i := 0;
      while i < |ms|
        invariant 0 <= i <= |ms|
        invariant Snap() == UnrefAll(was, ms[..i], c)
      {
        UnrefAllSnoc(was, ms[..i], ms[i], c);
        UnrefEntry(ms[i], c);
        assert ms[..i + 1] == ms[..i] + [ms[i]];
        i := i + 1;
      }
      assert ms[..|ms|] == ms;
    }

    /** The reference side of `expireMessages`, channel by channel in map order. */
    method ExpireFiles(now: int) returns (ghost order: seq<int>)
      requires Valid()
      modifies this
      ensures Lists(order, old(store).expire.Keys)
      ensures Snap() == ExpireRefs(old(Snap()), order, now)
      ensures Shrinks(old(Snap()), Snap())
    {
      ghost var was := Snap();
      var st := store;
      order := [];
      var todo := st.expire.Keys;
      while todo != {}
        invariant todo <= st.expire.Keys
        invariant Lists(order, st.expire.Keys - todo)
        invariant Snap() == ExpireRefs(was, order, now)
        decreases todo
      {
        var c := Any(todo);
        ListSnoc(order, c, st.expire.Keys, todo);
        todo := todo - {c};
        if st.expire[c] > 0 {
          UnrefSlice(st.Mem(c)[..L.StalePrefix(st.Mem(c), now - st.expire[c] * 1000)], c);
        }
        order := order + [c];
      }
      ExpireCounts(was, order, now);
    }

    method Tombstone(c: int, id: nat, actor: string)
      requires Valid() && c in store.expire
      modifies this
      ensures Snap() == EraseMsg(old(Snap()), c, id, actor)
      ensures Valid() && Shrinks(old(Snap()), Snap())
    {
      ApplyOk(Snap(), DoErase(c, id, actor));
      EraseOk(Snap(), c, id, actor);
      EraseEntry(c, id, actor);
    }

    method EraseEntry(c: int, id: nat, actor: string)
      modifies this
      ensures Snap() == EraseMsg(old(Snap()), c, id, actor)
    {
      var ms := store.Mem(c);
      if L.CanErase(ms, id) {
        var orig := ms[L.Find(ms, id)];
        store := L.Erase(store, c, id, actor);
        if orig.kind == L.File && orig.fid != "" {
          UnrefFile(orig.fid, c);
        }
      }
    }

    /** `/admin prune`: whatever nothing refers to. */
    method Prune() returns (ghost order: seq<string>)
      requires Valid()
      modifies this
      ensures Lists(order, old(files).Keys)
      ensures Snap() == Pruned(old(Snap()), order)
      ensures Valid() && forall fid :: fid in files <==> fid in old(files) && fid in old(refs)
    {
      ghost var was := Snap();
      order := [];
      var todo := files.Keys;
      while todo != {}
        invariant todo <= was.files.Keys
        invariant Lists(order, was.files.Keys - todo)
        invariant Snap() == Pruned(was, order)
        decreases todo
      {
        var fid := Any(todo);
        ListSnoc(order, fid, was.files.Keys, todo);
        todo := todo - {fid};
        if fid !in refs || forall c :: c in refs[fid] ==> refs[fid][c] == 0 {
          DeleteFile(fid);
        }
        order := order + [fid];
      }
      PruneExact(was, order);
      ApplyOk(was, DoPrune(order));
    }

    // ---- the two-phase upload ---------------------------------------------------------------

    /** First critical section. */
    method Admit(id: int, u: int, guest: bool, c: int, len: nat, allowed: bool, rateOk: bool)
      returns (refusal: Option<Refusal>)
      requires Valid() && id !in uploads && (guest <==> u < 0)
      modifies this`uploads, this`uploading
      ensures refusal == Admission(old(Snap()), u, guest, c, len, allowed, rateOk)
      ensures Snap() == if refusal.None? then Files.Admit(old(Snap()), id, u, guest, c, len) else old(Snap())
      ensures Valid() && (refusal.None? ==> allowed && rateOk && Admitted(old(Snap()), Snap(), id, u, guest, c, len))
      ensures !allowed ==> refusal == Some(NotAllowed)
    {
      if !allowed {
        return Some(NotAllowed);
      }
      if len > lim.MaxFileFor(c) {
        return Some(TooLarge);
      }
      var quota := lim.QuotaFor(u);
      if !guest && quota > 0 && Used(u) + len > quota {
        return Some(OverQuota);
      }
      if !rateOk {
        return Some(RateLimited);
      }
      if lim.maxUploads > 0 && Uploading(u) >= lim.maxUploads {
        return Some(TooMany);
      }
      uploading := uploading[u := Uploading(u) + 1];
      uploads := uploads[id := Upload(u, guest, c, len, true)];
      refusal := None;
      StoredRefs(old(Snap()), Snap());
      A.SameBooks(old(Snap()), Snap());
    }

    /** The body did not arrive in full. */
    method Fail(id: int)
      requires id in uploads
      modifies this`uploads
      ensures Snap() == Files.Fail(old(Snap()), id)
    {
      uploads := uploads[id := uploads[id].(receiving := false)];
    }

    /** Known bytes are not stored again; new bytes are charged to the uploader. */
    method StoreBytes(up: Upload, fid: string, sum: string) returns (as1: string)
      modifies this`hashes, this`files, this`used, this`total
      ensures as1 == StoredAs(old(Snap()), fid, sum)
      ensures Snap() == Stored(old(Snap()), up, fid, sum)
    {
      if sum in hashes && hashes[sum] in files {
        return hashes[sum];
      }
      hashes := hashes[sum := fid];
      files := files[fid := Meta(sum, up.len, up.user)];
      if !up.guest {
        used := used[up.user := Used(up.user) + up.len];
      }
      total := total + up.len;
      as1 := fid;
    }

    /** Second critical section: the channel may be gone, the bytes may be known already. */
    method Commit(id: int, fid: string, sum: string, from: string, name: string, now: int)
      requires Valid() && Enabled(Snap(), DoCommit(id, fid, sum, from, name, now))
      modifies this
      ensures Snap() == Files.Commit(old(Snap()), id, fid, sum, from, name, now)
      ensures Valid()
      ensures old(uploads[id].cid in store.expire) ==> Shared(Snap(), old(uploads[id].cid), sum, from, name, now)
    {
      ApplyOk(Snap(), DoCommit(id, fid, sum, from, name, now));
      if uploads[id].cid in store.expire { CommitShares(Snap(), DoCommit(id, fid, sum, from, name, now)); }
      var up := uploads[id];
      if up.cid in store.expire {
        var as1 := StoreBytes(up, fid, sum);
        PostFile(L.Posted(store, up.cid, L.File, from, name, as1, now));
        RefFile(as1, up.cid);
      }
      Fail(id);
    }

    method PostFile(e: L.Entry)
      modifies this`store, this`trimmed
      ensures Snap() == PostMsg(old(Snap()), e)
    {
      ghost var all := store.Mem(e.cid) + [e];
      trimmed := trimmed + RefsOf(all[..|all| - |L.Trimmed(all, store.keep)|], e.cid);
      store := L.Post(store, e.cid, e);
    }

    /** The deferred critical section that gives the slot back. */
    method Release(id: int)
      requires Valid() && id in uploads && !uploads[id].receiving
      modifies this`uploads, this`uploading
      ensures Snap() == Files.Release(old(Snap()), id)
      ensures Valid()
    {
      ApplyOk(Snap(), DoRelease(id));
      uploading := uploading[uploads[id].user := Uploading(uploads[id].user) - 1];
      uploads := uploads - {id};
    }

    // ---- start-up ------------------------------------------------------------------------------

    method IndexBooks() returns (ghost order: seq<string>)
      modifies this`hashes, this`used, this`total
      ensures Lists(order, files.Keys)
      ensures hashes == IndexHashes(files, order) && used == IndexUsed(files, order) &&
              total == IndexTotal(files, order)
    {
      hashes, used, total, order := map[], map[], 0, [];
      var todo := files.Keys;
      while todo != {}
        invariant todo <= files.Keys
        invariant Lists(order, files.Keys - todo)
        invariant hashes == IndexHashes(files, order) && used == IndexUsed(files, order) &&
                  total == IndexTotal(files, order)
        decreases todo
      {
        var fid := Any(todo);
        ListSnoc(order, fid, files.Keys, todo);
        todo := todo - {fid};
        var meta := files[fid];
        hashes := hashes[meta.sha := fid];
        used := used[meta.owner := Used(meta.owner) + meta.size];
        total := total + meta.size;
        order := order + [fid];
      }
    }

    method RefSlice(ms: seq<L.Entry>, c: int)
      modifies this`refs
      ensures Snap() == RefAll(old(Snap()), ms, c)
    {
      var i := 0;
      while i < |ms|
        invariant 0 <= i <= |ms|
        invariant Snap() == RefAll(old(Snap()), ms[..i], c)
      {
        var x := ms[i];
        assert ms[..i + 1] == ms[..i] + [x];
        RefAllSnoc(old(Snap()), ms[..i], x, c);
        if x.kind == L.File && x.fid != "" {
          RefFile(x.fid, c);
        }
        i := i + 1;
      }
      assert ms[..|ms|] == ms;
    }

    /** `indexFiles` in a new process. */
    method IndexFiles() returns (ghost fids: seq<string>, ghost cids: seq<int>)
      requires Valid()
      modifies this
      ensures Lists(fids, old(files).Keys) && Lists(cids, old(store).msgs.Keys)
      ensures Snap() == Indexed(old(Snap()), fids, cids)
      ensures Valid() && Rebuilt(old(Snap()), Snap())
    {
      ghost var was := Snap();
      fids, cids := Reindex();
      IndexDone(was, fids, cids);
    }

    method Reindex() returns (ghost fids: seq<string>, ghost cids: seq<int>)
      modifies this
      ensures Lists(fids, old(files).Keys) && Lists(cids, old(store).msgs.Keys)
      ensures Snap() == Indexed(old(Snap()), fids, cids)
    {
      fids := IndexBooks();
      refs, uploads, uploading, trimmed := map[], map[], map[], multiset{};
      ghost var blank := Snap();
      var st := store;
      cids := [];
      var todo := st.msgs.Keys;
      while todo != {}
        invariant todo <= st.msgs.Keys
        invariant Lists(cids, st.msgs.Keys - todo)
        invariant Snap() == IndexRefs(blank, cids)
        decreases todo
      {
        var c := Any(todo);
        ListSnoc(cids, c, st.msgs.Keys, todo);
        todo := todo - {c};
        RefSlice(st.msgs[c], c);
        cids := cids + [c];
      }
    }
  }
}
