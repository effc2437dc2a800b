/** The storage quota under concurrent uploads: how far past it an account can get. */
module QuotaProof {
  import opened Util
  import opened Files
  import L = MessageLog
  import A = AccountingProof

  /** Bytes of the account's uploads that are still being received. */
  ghost function InFlight(ups: map<int, Upload>, u: int): nat {
    if ups.Keys == {} then 0 else
      var id := Pick(ups.Keys);
      (if ups[id].user == u && ups[id].receiving then ups[id].len else 0) + InFlight(ups - {id}, u)
  }

  /** The account's uploads that still hold a slot. */
  ghost function Slots(ups: map<int, Upload>, u: int): nat {
    if ups.Keys == {} then 0 else
      var id := Pick(ups.Keys);
      (if ups[id].user == u then 1 else 0) + Slots(ups - {id}, u)
  }

  lemma {:induction false} TallySplit(ups: map<int, Upload>, id: int, u: int)
    requires id in ups
    ensures InFlight(ups, u) ==
            (if ups[id].user == u && ups[id].receiving then ups[id].len else 0) + InFlight(ups - {id}, u)
    ensures Slots(ups, u) == (if ups[id].user == u then 1 else 0) + Slots(ups - {id}, u)
    decreases |ups|
  {
    var j := Pick(ups.Keys);
    if j != id {
      TallySplit(ups - {j}, id, u);
      TallySplit(ups - {id}, j, u);
      assert ups - {j} - {id} == ups - {id} - {j};
    }
  }

  lemma TallyUpdate(ups: map<int, Upload>, id: int, up: Upload, u: int)
    ensures InFlight(ups[id := up], u) == InFlight(ups - {id}, u) + if up.user == u && up.receiving then up.len else 0
    ensures Slots(ups[id := up], u) == Slots(ups - {id}, u) + if up.user == u then 1 else 0
    ensures id !in ups ==> ups - {id} == ups
  {
    TallySplit(ups[id := up], id, u);
    assert ups[id := up] - {id} == ups - {id};
  }

  ghost predicate EachFits(ups: map<int, Upload>, u: int, cap: nat) {
    forall id :: id in ups && ups[id].user == u && ups[id].receiving ==> ups[id].len <= cap
  }

  lemma {:induction false} InFlightBounded(ups: map<int, Upload>, u: int, cap: nat)
    requires EachFits(ups, u, cap)
    ensures InFlight(ups, u) <= Slots(ups, u) * cap
    decreases |ups|
  {
    if ups.Keys != {} {
      var id := Pick(ups.Keys);
      InFlightBounded(ups - {id}, u, cap);
      assert (1 + Slots(ups - {id}, u)) * cap == cap + Slots(ups - {id}, u) * cap;
    }
  }

  // ---- the invariant -----------------------------------------------------------------------

  /** No channel takes more than `most` bytes at once from the account. */
  ghost predicate FileCap(lim: Limits, u: int, most: nat) {
    forall c :: Min(lim.QuotaFor(u), lim.MaxFileFor(c)) <= most
  }

  function Bound(lim: Limits, u: int, most: nat): int
    requires lim.maxUploads > 0
  {
    lim.QuotaFor(u) + (lim.maxUploads - 1) * Min(lim.QuotaFor(u), most)
  }

  ghost predicate QuotaOk(h: Hub, u: int, most: nat)
    requires h.lim.maxUploads > 0
  {
    && h.Uploading(u) == Slots(h.uploads, u)
    && EachFits(h.uploads, u, Min(h.lim.QuotaFor(u), most))
    && 0 <= h.Used(u)
    && h.Used(u) + InFlight(h.uploads, u) <= Bound(h.lim, u, most)
  }

  /** Nothing of the account's uploads changed and it was charged no more. */
  lemma NoMore(h: Hub, h': Hub, u: int, most: nat)
    requires h.lim.maxUploads > 0 && QuotaOk(h, u, most)
    requires h'.lim == h.lim && h'.uploads == h.uploads && h'.uploading == h.uploading
    requires 0 <= h'.Used(u) <= h.Used(u)
    ensures QuotaOk(h', u, most)
  {
  }

  lemma SlotsTimesCap(slots: nat, most: nat, cap: nat)
    requires slots <= most
    ensures slots * cap <= most * cap
  {
  }

  lemma AdmitOk(h: Hub, id: int, v: int, guest: bool, c: int, len: nat, u: int, most: nat)
    requires h.lim.maxUploads > 0 && h.lim.QuotaFor(u) > 0 && FileCap(h.lim, u, most) && u >= 0
    requires QuotaOk(h, u, most) && id !in h.uploads && (guest <==> v < 0)
    requires Admission(h, v, guest, c, len, true, true).None?
    ensures QuotaOk(Admit(h, id, v, guest, c, len), u, most)
  {
    TallyUpdate(h.uploads, id, Upload(v, guest, c, len, true), u);
    if v == u {
      var cap, m := Min(h.lim.QuotaFor(u), most), h.lim.maxUploads;
      InFlightBounded(h.uploads, u, cap);
      SlotsTimesCap(Slots(h.uploads, u), m - 1, cap);
    }
  }

  lemma FailOk(h: Hub, id: int, u: int, most: nat)
    requires h.lim.maxUploads > 0 && QuotaOk(h, u, most) && id in h.uploads
    ensures QuotaOk(Fail(h, id), u, most)
  {
    TallyUpdate(h.uploads, id, h.uploads[id].(receiving := false), u);
    TallySplit(h.uploads, id, u);
  }

  lemma ReleaseOk(h: Hub, id: int, u: int, most: nat)
    requires h.lim.maxUploads > 0 && QuotaOk(h, u, most) && id in h.uploads && !h.uploads[id].receiving
    ensures QuotaOk(Release(h, id), u, most)
  {
    TallySplit(h.uploads, id, u);
  }

  /** Committing moves at most the received bytes from "in flight" to "used". */
  lemma CommitOk(h: Hub, id: int, fid: string, sum: string, from: string, name: string, now: int, u: int, most: nat)
    requires h.lim.maxUploads > 0 && QuotaOk(h, u, most) && id in h.uploads && h.uploads[id].receiving
    ensures QuotaOk(Commit(h, id, fid, sum, from, name, now), u, most)
  {
    var h' := Commit(h, id, fid, sum, from, name, now);
    TallyUpdate(h.uploads, id, h.uploads[id].(receiving := false), u);
    TallySplit(h.uploads, id, u);
    if h.uploads[id].cid in h.store.expire {
      A.CommitBooks(h, id, fid, sum, from, name, now);
      CommitLimits(h, id, fid, sum, from, name, now);
      assert h'.Used(u) == Stored(h, h.uploads[id], fid, sum).Used(u);
    }
  }

  lemma CommitLimits(h: Hub, id: int, fid: string, sum: string, from: string, name: string, now: int)
    requires id in h.uploads && h.uploads[id].cid in h.store.expire
    ensures Commit(h, id, fid, sum, from, name, now).lim == h.lim
    ensures Commit(h, id, fid, sum, from, name, now).uploading == h.uploading
  {
  }

  // ---- refunds only lower the charge ------------------------------------------------------------

  ghost predicate ChargedNoMore(h: Hub, h': Hub, u: int) {
    0 <= h.Used(u) ==> 0 <= h'.Used(u) <= h.Used(u)
  }

  lemma {:induction false} UnrefAllCharges(h: Hub, ms: seq<L.Entry>, c: int, u: int)
    ensures ChargedNoMore(h, UnrefAll(h, ms, c), u)
  {
    if ms != [] {
      UnrefAllCharges(h, ms[..|ms| - 1], c, u);
      UnrefCharges(UnrefAll(h, ms[..|ms| - 1], c), ms[|ms| - 1].fid, c, u);
    }
  }

  lemma UnrefCharges(h: Hub, fid: string, c: int, u: int)
    ensures ChargedNoMore(h, Unref(h, fid, c), u)
  {
    DeleteCharges(h.(refs := RefsLess(h.refs, fid, c)), fid, u);
  }

  lemma DeleteCharges(h: Hub, fid: string, u: int)
    ensures ChargedNoMore(h, DeleteFile(h, fid), u)
  {
  }

  lemma {:induction false} ExpireCharges(h: Hub, order: seq<int>, now: int, u: int)
    ensures ChargedNoMore(h, ExpireRefs(h, order, now), u)
  {
    if order != [] {
      var front, c := order[..|order| - 1], order[|order| - 1];
      ExpireCharges(h, front, now, u);
      if c in h.store.expire {
        UnrefAllCharges(ExpireRefs(h, front, now), StaleOf(h.store.Mem(c), h.store.expire[c], now), c, u);
      }
    }
  }

  lemma {:induction false} PruneCharges(h: Hub, order: seq<string>, u: int)
    ensures ChargedNoMore(h, Pruned(h, order), u)
  {
    if order != [] {
      PruneCharges(h, order[..|order| - 1], u);
      DeleteCharges(Pruned(h, order[..|order| - 1]), order[|order| - 1], u);
    }
  }

  lemma EraseCharges(h: Hub, c: int, id: nat, actor: string, u: int)
    ensures ChargedNoMore(h, EraseMsg(h, c, id, actor), u)
    ensures var h' := EraseMsg(h, c, id, actor);
            h'.lim == h.lim && h'.uploads == h.uploads && h'.uploading == h.uploading
  {
    var ms := h.store.Mem(c);
    if L.CanErase(ms, id) {
      UnrefCharges(h.(store := L.Erase(h.store, c, id, actor)), ms[L.Find(ms, id)].fid, c, u);
    }
  }

  lemma RestartCharges(h: Hub, s: Step, u: int, most: nat)
    requires s.DoRestart? && Enabled(h, s) && A.Accounted(h) && u >= 0
    requires h.lim.maxUploads > 0 && QuotaOk(h, u, most)
    ensures Apply(h, s).lim == h.lim && QuotaOk(Apply(h, s), u, most)
  {
    var h0 := h.(store := L.Load(h.store, s.ok0));
    A.IndexAccounted(h0, s.fids, s.cids);
    A.IndexRefsBooks(h0.(hashes := IndexHashes(h.files, s.fids), used := IndexUsed(h.files, s.fids),
      total := IndexTotal(h.files, s.fids),
                         refs := map[], uploads := map[], uploading := map[], trimmed := multiset{}), s.cids);
    var h1 := Indexed(h0, s.fids, s.cids);
    A.BytesNonNegative(h.files, A.OwnedBy(u));
    assert h1.Used(u) == A.Bytes(h.files, A.OwnedBy(u)) == h.Used(u);
    ExpireCharges(h1, s.order, s.now, u);
    A.ExpireUploads(h1, s.order, s.now);
    assert Apply(h, s).Used(u) == ExpireRefs(h1, s.order, s.now).Used(u);
    assert Apply(h, s).uploads.Keys == {};
  }

  lemma ApplyQuota(h: Hub, s: Step, u: int, most: nat)
    requires A.Accounted(h) && A.UploadersTold(h) && Enabled(h, s)
    requires h.lim.maxUploads > 0 && h.lim.QuotaFor(u) > 0 && FileCap(h.lim, u, most) && u >= 0
    requires QuotaOk(h, u, most)
    ensures Apply(h, s).lim == h.lim && QuotaOk(Apply(h, s), u, most)
  {
    ApplyLimits(h, s);
    var h' := Apply(h, s);
    match s
    case DoErase(c, id, actor) => EraseCharges(h, c, id, actor, u); NoMore(h, h', u, most);
    case DoJanitor(order, now, ok) =>
      ExpireCharges(h, order, now, u); A.ExpireUploads(h, order, now);
      assert h'.Used(u) == ExpireRefs(h, order, now).Used(u);
      NoMore(h, h', u, most);
    case DoDeleteChannel(c, ok) =>
      UnrefAllCharges(h, h.store.Mem(c), c, u); A.UnrefAllUploads(h, h.store.Mem(c), c);
      assert h'.Used(u) == UnrefAll(h, h.store.Mem(c), c).Used(u);
      NoMore(h, h', u, most);
    case DoPrune(fids) => PruneCharges(h, fids, u); A.PruneUploads(h, fids); NoMore(h, h', u, most);
    case DoAdmit(id, v, guest, c, len, allowed, rateOk) =>
      if Admission(h, v, guest, c, len, allowed, rateOk).None? { AdmitOk(h, id, v, guest, c, len, u, most); }
    case DoFail(id) => FailOk(h, id, u, most);
    case DoCommit(id, fid, sum, from, name, now) => CommitOk(h, id, fid, sum, from, name, now, u, most);
    case DoRelease(id) => ReleaseOk(h, id, u, most);
    case DoRestart(_, _, _, _, _, _, _) => RestartCharges(h, s, u, most);
    case DoText(_, _, _, _) => assert h'.Used(u) == h.Used(u); NoMore(h, h', u, most);
    case DoNewChannel(_) => assert h'.Used(u) == h.Used(u); NoMore(h, h', u, most);
    case DoSetExpire(_, _) => assert h'.Used(u) == h.Used(u); NoMore(h, h', u, most);
  }

  lemma ApplyLimits(h: Hub, s: Step)
    requires Enabled(h, s)
    ensures Apply(h, s).lim == h.lim
  {
    match s
    case DoJanitor(order, now, ok) => A.ExpireUploads(h, order, now);
    case DoDeleteChannel(c, ok) => A.UnrefAllUploads(h, h.store.Mem(c), c);
    case DoPrune(fids) => A.PruneUploads(h, fids);
    case DoCommit(id, fid, sum, from, name, now) =>
      if h.uploads[id].cid in h.store.expire { CommitLimits(h, id, fid, sum, from, name, now); }
    case DoRestart(fids, cids, order, now, ok0, ok1, ok2) =>
      var h0 := h.(store := L.Load(h.store, ok0));
      A.IndexRefsBooks(h0.(hashes := IndexHashes(h.files, fids), used := IndexUsed(h.files, fids),
        total := IndexTotal(h.files, fids),
                           refs := map[], uploads := map[], uploading := map[], trimmed := multiset{}), cids);
      A.ExpireUploads(Indexed(h0, fids, cids), order, now);
    case _ =>
  }

  /** Under every interleaving of admissions, receptions, commits, failures, deletions and restarts,
      an account that starts within its quota has at no point more than
      quota + (max_uploads - 1) * min(quota, largest file) bytes stored and in flight together. */
  lemma {:induction false} QuotaBound(h: Hub, steps: seq<Step>, u: int, most: nat)
    requires A.Accounted(h) && A.UploadersTold(h) && Possible(h, steps)
    requires h.lim.maxUploads > 0 && h.lim.QuotaFor(u) > 0 && FileCap(h.lim, u, most) && u >= 0
    requires QuotaOk(h, u, most)
    ensures Run(h, steps).lim == h.lim && QuotaOk(Run(h, steps), u, most)
    decreases |steps|
  {
    if steps != [] {
      A.ApplyAccounted(h, steps[0]);
      ApplyQuota(h, steps[0], u, most);
      QuotaBound(Apply(h, steps[0]), steps[1..], u, most);
    }
  }

  /** The starting point of the bound: no uploads under way and no more used than the quota. */
  lemma WithinQuota(h: Hub, u: int, most: nat)
    requires A.Accounted(h) && u >= 0 && h.lim.maxUploads > 0
    requires h.uploads == map[] && h.uploading == map[] && h.Used(u) <= h.lim.QuotaFor(u)
    ensures QuotaOk(h, u, most)
  {
    A.BytesNonNegative(h.files, A.OwnedBy(u));
    assert h.uploads.Keys == {};
    assert h.Used(u) == A.Bytes(h.files, A.OwnedBy(u));
    SlotsTimesCap(0, h.lim.maxUploads - 1, Min(h.lim.QuotaFor(u), most));
  }

  /** With one upload at a time the quota itself is the bound. */
  lemma OneUploadKeepsQuota(h: Hub, steps: seq<Step>, u: int)
    requires A.Accounted(h) && A.UploadersTold(h) && Possible(h, steps)
    requires h.lim.maxUploads == 1 && h.lim.QuotaFor(u) > 0 && u >= 0
    requires h.uploads == map[] && h.uploading == map[] && h.Used(u) <= h.lim.QuotaFor(u)
    ensures Run(h, steps).Used(u) + InFlight(Run(h, steps).uploads, u) <= h.lim.QuotaFor(u)
  {
    WithinQuota(h, u, h.lim.QuotaFor(u));
    QuotaBound(h, steps, u, h.lim.QuotaFor(u));
  }
}
