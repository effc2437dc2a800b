/** Who gets to upload, and that every file message comes of an upload that was allowed. */
module UploadProof {
  import opened Util
  import opened Files
  import L = MessageLog
  import A = AccountingProof

  // ---- admission -----------------------------------------------------------------------------------

  /** The checks in the order in which the answer depends on them. */
  predicate FitsQuota(h: Hub, u: int, guest: bool, len: nat) {
    guest || h.lim.QuotaFor(u) == 0 || h.Used(u) + len <= h.lim.QuotaFor(u)
  }

  predicate SlotFree(h: Hub, u: int) { h.lim.maxUploads == 0 || h.Uploading(u) < h.lim.maxUploads }

  /** The quota is the account's own one when it has one, and otherwise everybody's; so with the file cap. */
  lemma SettingsInForce(lim: Limits, u: int, c: int)
    ensures u in lim.quota && lim.quota[u] > 0 ==> lim.QuotaFor(u) == lim.quota[u]
    ensures u !in lim.quota || lim.quota[u] == 0 ==> lim.QuotaFor(u) == lim.defQuota
    ensures c in lim.maxFile && lim.maxFile[c] > 0 ==> lim.MaxFileFor(c) == lim.maxFile[c]
    ensures c !in lim.maxFile || lim.maxFile[c] == 0 ==> lim.MaxFileFor(c) == lim.defMaxFile
  {
  }

  /** Exactly who is admitted, and exactly which refusal the others get. */
  lemma AdmissionExact(h: Hub, u: int, guest: bool, c: int, len: nat, allowed: bool, rateOk: bool)
    ensures var r := Admission(h, u, guest, c, len, allowed, rateOk);
            && (r.None? <==>
                 && allowed && len <= h.lim.MaxFileFor(c) && FitsQuota(h, u, guest, len) && rateOk
                 && SlotFree(h, u))
            && (r == Some(NotAllowed) <==> !allowed)
            && (r == Some(TooLarge) <==> allowed && len > h.lim.MaxFileFor(c))
            && (r == Some(OverQuota) <==> allowed && len <= h.lim.MaxFileFor(c) && !FitsQuota(h, u, guest, len))
            && (r == Some(RateLimited) <==>
                allowed && len <= h.lim.MaxFileFor(c) && FitsQuota(h, u, guest, len) && !rateOk)
  {
  }

  /** Known content changes nothing; new content is stored under the uploader's name and charged to it, unless
      it is a guest. */
  lemma StoredExact(h: Hub, up: Upload, fid: string, sum: string)
    ensures var h' := Stored(h, up, fid, sum);
            if sum in h.hashes && h.hashes[sum] in h.files then h' == h && StoredAs(h, fid, sum) == h.hashes[sum]
            else
              && StoredAs(h, fid, sum) == fid && h'.files == h.files[fid := Meta(sum, up.len, up.user)]
              && h'.hashes == h.hashes[sum := fid] && h'.total == h.total + up.len
              && (forall u :: h'.Used(u) == h.Used(u) + if u == up.user && !up.guest then up.len else 0)
              && h' == h.(files := h'.files, hashes := h'.hashes, total := h'.total, used := h'.used)
  {
  }

  /** When the channel is gone by the time the bytes are there, nothing is stored, charged or posted. */
  lemma CommitToNowhere(h: Hub, id: int, fid: string, sum: string, from: string, name: string, now: int)
    requires id in h.uploads && h.uploads[id].cid !in h.store.expire
    ensures Commit(h, id, fid, sum, from, name, now) ==
            h.(uploads := h.uploads[id := h.uploads[id].(receiving := false)])
  {
  }

  // ---- every upload under way was allowed -------------------------------------------------------------

  /** The step admitted this very upload, after all its checks. */
  predicate AdmittedBy(s: Step, id: int, up: Upload) {
    && s.DoAdmit? && s.up == id && s.allowed && s.rateOk
    && s.user == up.user && s.guest == up.guest && s.c == up.cid && s.len == up.len
  }

  predicate SameUpload(a: Upload, b: Upload) {
    a.user == b.user && a.guest == b.guest && a.cid == b.cid && a.len == b.len
  }

  predicate Uploads(s: Step) { s.DoAdmit? || s.DoFail? || s.DoCommit? || s.DoRelease? }

  lemma OtherSteps(h: Hub, s: Step)
    requires Enabled(h, s) && !Uploads(s) && !s.DoRestart?
    ensures Apply(h, s).uploads == h.uploads
  {
    match s
    case DoErase(c, mid, actor) => EraseUploads(h, c, mid, actor);
    case DoJanitor(order, now, ok) => A.ExpireUploads(h, order, now);
    case DoDeleteChannel(c, ok) => A.UnrefAllUploads(h, h.store.Mem(c), c);
    case DoPrune(fids) => A.PruneUploads(h, fids);
    case _ =>
  }

  lemma CommitUploads(h: Hub, id: int, fid: string, sum: string, from: string, name: string, now: int)
    requires id in h.uploads
    ensures Commit(h, id, fid, sum, from, name, now).uploads == h.uploads[id := h.uploads[id].(receiving := false)]
  {
    if h.uploads[id].cid in h.store.expire { A.CommitBooks(h, id, fid, sum, from, name, now); }
  }

  lemma StepUploads(h: Hub, s: Step, id: int)
    requires Enabled(h, s) && id in Apply(h, s).uploads
    ensures var up := Apply(h, s).uploads[id];
            (id in h.uploads && SameUpload(h.uploads[id], up)) || AdmittedBy(s, id, up)
  {
    if s.DoRestart? {
      NothingUnderWay(h, s);
    } else if !Uploads(s) {
      OtherSteps(h, s);
    } else if s.DoCommit? {
      CommitUploads(h, s.up, s.fid, s.sum, s.from, s.name, s.now);
    } else if s.DoAdmit? {
      AdmissionExact(h, s.user, s.guest, s.c, s.len, s.allowed, s.rateOk);
    }
  }

  lemma EraseUploads(h: Hub, c: int, mid: nat, actor: string)
    ensures EraseMsg(h, c, mid, actor).uploads == h.uploads
  {
  }

  lemma NothingUnderWay(h: Hub, s: Step)
    requires Enabled(h, s) && s.DoRestart?
    ensures Apply(h, s).uploads == map[]
  {
    var h0 := h.(store := L.Load(h.store, s.ok0));
    A.IndexRefsBooks(h0.(hashes := IndexHashes(h.files, s.fids), used := IndexUsed(h.files, s.fids),
                         total := IndexTotal(h.files, s.fids),
                         refs := map[], uploads := map[], uploading := map[], trimmed := multiset{}), s.cids);
    A.ExpireUploads(Indexed(h0, s.fids, s.cids), s.order, s.now);
  }

  lemma {:induction false} RunUploads(h: Hub, steps: seq<Step>, id: int)
    requires Possible(h, steps) && id in Run(h, steps).uploads
    ensures var up := Run(h, steps).uploads[id];
            || (id in h.uploads && SameUpload(h.uploads[id], up))
            || exists i :: 0 <= i < |steps| && AdmittedBy(steps[i], id, up)
    decreases |steps|
  {
    if steps != [] {
      var h1, rest, up := Apply(h, steps[0]), steps[1..], Run(h, steps).uploads[id];
      RunUploads(h1, rest, id);
      if id in h1.uploads && SameUpload(h1.uploads[id], up) {
        StepUploads(h, steps[0], id);
      } else {
        var i :| 0 <= i < |rest| && AdmittedBy(rest[i], id, up);
        assert AdmittedBy(steps[i + 1], id, up);
      }
    }
  }

  /** In every run from the first start, whatever is being uploaded passed every check when it began. */
  lemma UploadsWereAllowed(keep: nat, lim: Limits, steps: seq<Step>, id: int)
    requires Possible(Init(keep, lim), steps) && id in Run(Init(keep, lim), steps).uploads
    ensures exists i :: 0 <= i < |steps| && AdmittedBy(steps[i], id, Run(Init(keep, lim), steps).uploads[id])
  {
    RunUploads(Init(keep, lim), steps, id);
  }

  // ---- file messages come of uploads --------------------------------------------------------------------

  /** A file message that was not there before was posted by the commit of an upload to its channel. */
  predicate PostedBy(h: Hub, s: Step, c: int, e: L.Entry)
    requires Enabled(h, s)
  {
    s.DoCommit? && h.uploads[s.up].cid == c && h.uploads[s.up].receiving && e.from == s.from && e.body == s.name
  }

  lemma CommitPosts(h: Hub, id: int, fid: string, sum: string, from: string, name: string, now: int, c: int, e: L.Entry)
    requires id in h.uploads && e in Commit(h, id, fid, sum, from, name, now).store.Mem(c) && e !in h.store.Mem(c)
    ensures h.uploads[id].cid == c && c in h.store.expire
    ensures e == L.Entry(L.File, c, h.store.nextId + 1, now, from, "", name, StoredAs(h, fid, sum))
  {
    var x := L.Entry(L.File, h.uploads[id].cid, h.store.nextId + 1, now, from, "", name, StoredAs(h, fid, sum));
    if x.cid in h.store.expire {
      CommitStore(h, id, fid, sum, from, name, now, x);
      PostAdds(h.store, x.cid, x, c, e);
    }
  }

  /** What a commit does to the messages: one post, of a file, to the channel of the upload. */
  lemma CommitStore(h: Hub, id: int, fid: string, sum: string, from: string, name: string, now: int, e: L.Entry)
    requires id in h.uploads && h.uploads[id].cid in h.store.expire
    requires e == L.Entry(L.File, h.uploads[id].cid, h.store.nextId + 1, now, from, "", name, StoredAs(h, fid, sum))
    ensures Commit(h, id, fid, sum, from, name, now).store == L.Post(h.store, e.cid, e)
  {
  }

  lemma PostAdds(st: L.Store, d: int, x: L.Entry, c: int, e: L.Entry)
    requires e in L.Post(st, d, x).Mem(c) && e !in st.Mem(c)
    ensures e == x && c == d
  {
  }

  lemma ErasedMembers(ms: seq<L.Entry>, id: nat, actor: string, e: L.Entry)
    requires e in L.Erased(ms, id, actor) && e.kind == L.File
    ensures e in ms
  {
    var r := L.Erased(ms, id, actor);
    var i :| 0 <= i < |r| && r[i] == e;
    assert ms[i] in ms;
  }

  /** Between restarts a file message appears in a channel only by the commit of an upload to it. */
  lemma FilesFromUploads(h: Hub, s: Step, c: int, e: L.Entry)
    requires Enabled(h, s) && !s.DoRestart? && e.kind == L.File
    requires e in Apply(h, s).store.Mem(c) && e !in h.store.Mem(c)
    ensures PostedBy(h, s, c, e)
  {
    match s
    case DoErase(d, mid, actor) => ErasedMembers(h.store.Mem(d), mid, actor, e); EraseStore(h, d, mid, actor);
    case DoJanitor(order, now, ok) => assert Apply(h, s).store ==
      L.Janitor(h.store, now, ok); JanitorFewer(h.store, now, ok, c);
    case DoDeleteChannel(d, ok) =>
    case DoPrune(fids) => A.PruneUploads(h, fids);
    case DoCommit(up, fid, sum, from, name, now) => CommitPosts(h, up, fid, sum, from, name, now, c, e);
    case _ =>
  }

  lemma EraseStore(h: Hub, c: int, id: nat, actor: string)
    ensures EraseMsg(h, c, id, actor).store == L.Erase(h.store, c, id, actor)
  {
  }

  lemma JanitorFewer(st: L.Store, now: int, ok: bool, c: int)
    ensures forall e :: e in L.Janitor(st, now, ok).Mem(c) ==> e in st.Mem(c)
  {
  }
}
