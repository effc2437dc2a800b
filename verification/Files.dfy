/** Stored files: reference counts, the content-hash index, byte accounting and the two-phase upload
    (hub.go refFile/unrefFile/deleteFile/indexFiles, files.go upload, cmds.go prune), on top of the
    message store whose steps create and drop the references. */
module Files {
  import opened Util
  import opened MessageLog

  datatype Meta = Meta(sha: string, size: nat, owner: int)

  /** One upload between admission and the deferred slot release. `receiving` ends at commit or failure. */
  datatype Upload = Upload(user: int, guest: bool, cid: int, len: nat, receiving: bool)

  /** Settings that the quota bound holds fixed; 0 means no limit, as in the source. */
  datatype Limits = Limits(quota: map<int, nat>, defQuota: nat, maxFile: map<int, nat>, defMaxFile: nat,
      maxUploads: nat)
  {
    function QuotaFor(u: int): nat { if u in quota && quota[u] > 0 then quota[u] else defQuota }

    function MaxFileFor(c: int): nat { if c in maxFile && maxFile[c] > 0 then maxFile[c] else defMaxFile }
  }

  /** `trimmed` is a history variable: the references held by messages that `post` cut away. */
  datatype Hub = Hub(
    store: Store, lim: Limits,
    files: map<string, Meta>, hashes: map<string, string>,
    refs: map<string, map<int, int>>, used: map<int, int>, total: int,
    uploads: map<int, Upload>, uploading: map<int, int>,
    trimmed: multiset<(string, int)>)
  {
    function RefCount(fid: string, c: int): int {
      if fid in refs && c in refs[fid] then refs[fid][c] else 0
    }

    function Used(u: int): int { if u in used then used[u] else 0 }

    function Uploading(u: int): int { if u in uploading then uploading[u] else 0 }
  }

  // ---- references --------------------------------------------------------------------

  predicate RefersTo(e: Entry, fid: string) { e.kind == File && e.fid != "" && e.fid == fid }

  /** How many messages of a slice refer to the file. */
  function Mentions(ms: seq<Entry>, fid: string): nat {
    if ms == [] then 0 else
      Mentions(ms[..|ms| - 1], fid) + if RefersTo(ms[|ms| - 1], fid) then 1 else 0
  }

  function RefsOf(ms: seq<Entry>, c: int): multiset<(string, int)> {
    if ms == [] then multiset{} else
      var e := ms[|ms| - 1];
      RefsOf(ms[..|ms| - 1], c) + if e.kind == File && e.fid != "" then multiset{(e.fid, c)} else multiset{}
  }

  function Ref(h: Hub, fid: string, c: int): Hub {
    var m := if fid in h.refs then h.refs[fid] else map[];
    h.(refs := h.refs[fid := m[c := (if c in m then m[c] else 0) + 1]])
  }

  /** The uploader's bytes are given back, never below zero. */
  function DeleteFile(h: Hub, fid: string): Hub {
    if fid !in h.files then h else
      var meta := h.files[fid];
      h.(used := h.used[meta.owner := Max(0, h.Used(meta.owner) - meta.size)],
         total := h.total - meta.size,
         hashes := h.hashes - {meta.sha},
         files := h.files - {fid})
  }

  /** One channel's count goes down by one; an entry that reaches zero goes away. */
  function OneLess(m: map<int, int>, c: int): map<int, int> {
    if c in m && m[c] > 1 then m[c := m[c] - 1] else m - {c}
  }

  function RefsLess(refs: map<string, map<int, int>>, fid: string, c: int): map<string, map<int, int>> {
    var m := OneLess(if fid in refs then refs[fid] else map[], c);
    if m != map[] then refs[fid := m] else refs - {fid}
  }

  /** When nothing refers to the file any more it is deleted. */
  function Unref(h: Hub, fid: string, c: int): Hub {
    var h' := h.(refs := RefsLess(h.refs, fid, c));
    if fid in h'.refs then h' else DeleteFile(h', fid)
  }

  /** One reference less for every file message of the sequence. */
  function UnrefAll(h: Hub, ms: seq<Entry>, c: int): Hub {
    if ms == [] then h else
      var h1 := UnrefAll(h, ms[..|ms| - 1], c);
      var e := ms[|ms| - 1];
      if e.kind == File && e.fid != "" then Unref(h1, e.fid, c) else h1
  }

  function StaleOf(ms: seq<Entry>, sec: int, now: int): seq<Entry> {
    if sec <= 0 then [] else ms[..StalePrefix(ms, now - sec * 1000)]
  }

  /** The reference side of an expiry sweep; `order` is the order the channel map yields. */
  function ExpireRefs(h: Hub, order: seq<int>, now: int): Hub {
    if order == [] then h else
      var h1 := ExpireRefs(h, order[..|order| - 1], now);
      var c := order[|order| - 1];
      if c in h.store.expire then UnrefAll(h1, StaleOf(h.store.Mem(c), h.store.expire[c], now), c) else h1
  }

  // ---- messages --------------------------------------------------------------------------

  /** `post`: what the trim cuts off keeps its references. */
  function PostMsg(h: Hub, e: Entry): Hub {
    var all := h.store.Mem(e.cid) + [e];
    h.(store := Post(h.store, e.cid, e),
       trimmed := h.trimmed + RefsOf(all[..|all| - |Trimmed(all, h.store.keep)|], e.cid))
  }

  function EraseMsg(h: Hub, c: int, id: nat, actor: string): Hub {
    var ms := h.store.Mem(c);
    if !CanErase(ms, id) then h else
      var orig := ms[Find(ms, id)];
      var h1 := h.(store := Erase(h.store, c, id, actor));
      if orig.kind == File && orig.fid != "" then Unref(h1, orig.fid, c) else h1
  }

  ghost function Expired(h: Hub, order: seq<int>, now: int, ok: bool): Hub {
    ExpireRefs(h, order, now).(store := Janitor(h.store, now, ok))
  }

  ghost function Deleted(h: Hub, c: int, ok: bool): Hub {
    UnrefAll(h, h.store.Mem(c), c).(store := DeleteChannel(h.store, c, ok))
  }

  function Pruned(h: Hub, order: seq<string>): Hub {
    if order == [] then h else
      var h1 := Pruned(h, order[..|order| - 1]);
      var fid := order[|order| - 1];
      if Unreferenced(h1, fid) then DeleteFile(h1, fid) else h1
  }

  predicate Unreferenced(h: Hub, fid: string) {
    fid in h.refs ==> forall c :: c in h.refs[fid] ==> h.refs[fid][c] == 0
  }

  // ---- uploads ------------------------------------------------------------------------------

  datatype Refusal = NotAllowed | TooLarge | OverQuota | RateLimited | TooMany

  /** Everything decided before the bytes arrive. `allowed` stands for visibility, rank and mute. */
  function Admission(h: Hub, u: int, guest: bool, c: int, len: nat, allowed: bool, rateOk: bool): Option<Refusal> {
    if !allowed then Some(NotAllowed)
    else if len > h.lim.MaxFileFor(c) then Some(TooLarge)
    else if !guest && h.lim.QuotaFor(u) > 0 && h.Used(u) + len > h.lim.QuotaFor(u) then Some(OverQuota)
    else if !rateOk then Some(RateLimited)
    else if h.lim.maxUploads > 0 && h.Uploading(u) >= h.lim.maxUploads then Some(TooMany)
    else None
  }

  function Admit(h: Hub, id: int, u: int, guest: bool, c: int, len: nat): Hub {
    h.(uploads := h.uploads[id := Upload(u, guest, c, len, true)],
       uploading := h.uploading[u := h.Uploading(u) + 1])
  }

  /** Connection lost, short body, or the channel went away while the bytes arrived. */
  function Fail(h: Hub, id: int): Hub
    requires id in h.uploads
  {
    h.(uploads := h.uploads[id := h.uploads[id].(receiving := false)])
  }

  function StoredAs(h: Hub, fid: string, sum: string): string {
    if sum in h.hashes && h.hashes[sum] in h.files then h.hashes[sum] else fid
  }

  /** Identical bytes are stored once and charged to the first uploader only. */
  function Stored(h: Hub, up: Upload, fid: string, sum: string): Hub {
    if sum in h.hashes && h.hashes[sum] in h.files then h else
      h.(hashes := h.hashes[sum := fid],
         files := h.files[fid := Meta(sum, up.len, up.user)],
         used := if up.guest then h.used else h.used[up.user := h.Used(up.user) + up.len],
         total := h.total + up.len)
  }

  function Commit(h: Hub, id: int, fid: string, sum: string, from: string, name: string, now: int): Hub
    requires id in h.uploads
  {
    var up := h.uploads[id];
    if up.cid !in h.store.expire then Fail(h, id) else
      var h1 := Stored(h, up, fid, sum);
      var as1 := StoredAs(h, fid, sum);
      var h2 := PostMsg(h1, Posted(h1.store, up.cid, File, from, name, as1, now));
      Fail(Ref(h2, as1, up.cid), id)
  }

  /** The deferred release of the upload slot. */
  function Release(h: Hub, id: int): Hub
    requires id in h.uploads
  {
    h.(uploads := h.uploads - {id}, uploading := h.uploading[h.uploads[id].user := h.Uploading(h.uploads[id].user) - 1])
  }

  // ---- start-up --------------------------------------------------------------------------------

  function IndexHashes(files: map<string, Meta>, order: seq<string>): map<string, string> {
    if order == [] then map[] else
      var fid := order[|order| - 1];
      var r := IndexHashes(files, order[..|order| - 1]);
      if fid in files then r[files[fid].sha := fid] else r
  }

  function IndexUsed(files: map<string, Meta>, order: seq<string>): map<int, int> {
    if order == [] then map[] else
      var fid := order[|order| - 1];
      var r := IndexUsed(files, order[..|order| - 1]);
      if fid in files
      then r[files[fid].owner := (if files[fid].owner in r then r[files[fid].owner] else 0) + files[fid].size] else r
  }

  function IndexTotal(files: map<string, Meta>, order: seq<string>): int {
    if order == [] then 0 else
      var fid := order[|order| - 1];
      IndexTotal(files, order[..|order| - 1]) + if fid in files then files[fid].size else 0
  }

  function RefAll(h: Hub, ms: seq<Entry>, c: int): Hub {
    if ms == [] then h else
      var h1 := RefAll(h, ms[..|ms| - 1], c);
      var e := ms[|ms| - 1];
      if e.kind == File && e.fid != "" then Ref(h1, e.fid, c) else h1
  }

  function IndexRefs(h: Hub, order: seq<int>): Hub {
    if order == [] then h else
      RefAll(IndexRefs(h, order[..|order| - 1]), h.store.Mem(order[|order| - 1]), order[|order| - 1])
  }

  /** `indexFiles` in a new process: everything but the file table is rebuilt. */
  function Indexed(h: Hub, fids: seq<string>, cids: seq<int>): Hub {
    IndexRefs(h.(hashes := IndexHashes(h.files, fids), used := IndexUsed(h.files, fids),
      total := IndexTotal(h.files, fids),
                 refs := map[], uploads := map[], uploading := map[], trimmed := multiset{}), cids)
  }

  /** Load the log, index the files, sweep. */
  ghost function Restarted(h: Hub, fids: seq<string>, cids: seq<int>, order: seq<int>, now: int, ok0: bool, ok1: bool,
      ok2: bool): Hub {
    var h1 := Indexed(h.(store := Load(h.store, ok0)), fids, cids);
    ExpireRefs(h1, order, now).(store := Sweep(h1.store, now, ok1, ok2))
  }

  // ---- runs -------------------------------------------------------------------------------------

  datatype Step =
    | DoText(c: int, from: string, body: string, now: int)
    | DoErase(c: int, id: nat, actor: string)
    | DoJanitor(order: seq<int>, now: int, ok1: bool)
    | DoNewChannel(sec: int)
    | DoSetExpire(c: int, sec: int)
    | DoDeleteChannel(c: int, ok1: bool)
    | DoPrune(fids: seq<string>)
    | DoAdmit(up: int, user: int, guest: bool, c: int, len: nat, allowed: bool, rateOk: bool)
    | DoFail(up: int)
    | DoCommit(up: int, fid: string, sum: string, from: string, name: string, now: int)
    | DoRelease(up: int)
    | DoRestart(fids: seq<string>, cids: seq<int>, order: seq<int>, now: int, ok0: bool, ok1: bool, ok2: bool)

  ghost predicate Lists<T(!new)>(xs: seq<T>, s: set<T>) {
    NoDup(xs) && forall x :: x in xs <==> x in s
  }

  /** Accounts have ids from 1, guests negative ones, and 0 is nobody. A new file id is fresh: it names
      no stored file and no reference. */
  ghost predicate Enabled(h: Hub, s: Step) {
    match s
    case DoText(c, _, _, now) => c in h.store.expire && now >= h.store.clock
    case DoErase(c, _, _) => c in h.store.expire
    case DoJanitor(order, now, _) => Lists(order, h.store.expire.Keys) && now >= h.store.clock
    case DoNewChannel(_) => true
    case DoSetExpire(c, _) => c in h.store.expire
    case DoDeleteChannel(c, _) => c in h.store.expire
    case DoPrune(fids) => Lists(fids, h.files.Keys)
    case DoAdmit(id, u, guest, c, _, allowed, _) =>
      id !in h.uploads && (guest <==> u < 0) && (allowed ==> c in h.store.expire)
    case DoFail(id) => id in h.uploads && h.uploads[id].receiving
    case DoCommit(id, fid, _, _, _, now) =>
      && id in h.uploads && h.uploads[id].receiving && now >= h.store.clock
      && fid != "" && fid !in h.files && fid !in h.refs && (forall c :: (fid, c) !in h.trimmed)
      && forall c :: Mentions(h.store.Mem(c), fid) == 0
    case DoRelease(id) => id in h.uploads && !h.uploads[id].receiving
    case DoRestart(fids, cids, order, now, ok0, _, _) =>
      && Lists(fids, h.files.Keys) && Lists(cids, Load(h.store, ok0).msgs.Keys)
      && Lists(order, h.store.expire.Keys) && now >= h.store.clock
  }

  ghost function Apply(h: Hub, s: Step): Hub
    requires Enabled(h, s)
  {
    match s
    case DoText(c, from, body, now) => PostMsg(h, Posted(h.store, c, Text, from, body, "", now))
    case DoErase(c, id, actor) => EraseMsg(h, c, id, actor)
    case DoJanitor(order, now, ok) => Expired(h, order, now, ok)
    case DoNewChannel(sec) => h.(store := NewChannel(h.store, sec))
    case DoSetExpire(c, sec) => h.(store := SetExpire(h.store, c, sec))
    case DoDeleteChannel(c, ok) => Deleted(h, c, ok)
    case DoPrune(fids) => Pruned(h, fids)
    case DoAdmit(id, u, guest, c, len, allowed, rateOk) =>
      if Admission(h, u, guest, c, len, allowed, rateOk).None? then Admit(h, id, u, guest, c, len) else h
    case DoFail(id) => Fail(h, id)
    case DoCommit(id, fid, sum, from, name, now) => Commit(h, id, fid, sum, from, name, now)
    case DoRelease(id) => Release(h, id)
    case DoRestart(fids, cids, order, now, ok0, ok1, ok2) => Restarted(h, fids, cids, order, now, ok0, ok1, ok2)
  }

  ghost predicate Possible(h: Hub, steps: seq<Step>)
    decreases |steps|
  {
    steps == [] || (Enabled(h, steps[0]) && Possible(Apply(h, steps[0]), steps[1..]))
  }

  ghost function Run(h: Hub, steps: seq<Step>): Hub
    requires Possible(h, steps)
    decreases |steps|
  {
    if steps == [] then h else Run(Apply(h, steps[0]), steps[1..])
  }

  lemma FirstThen(h: Hub, all: seq<Step>, s: Step, rest: seq<Step>)
    requires all != [] && all[0] == s && all[1..] == rest
    ensures Possible(h, all) <==> Enabled(h, s) && Possible(Apply(h, s), rest)
    ensures Possible(h, all) ==> Run(h, all) == Run(Apply(h, s), rest)
  {
  }

  lemma ThreeSteps(h: Hub, a: Step, b: Step, c: Step, h1: Hub, h2: Hub, h3: Hub)
    requires Enabled(h, a) && Apply(h, a) == h1
    requires Enabled(h1, b) && Apply(h1, b) == h2
    requires Enabled(h2, c) && Apply(h2, c) == h3
    ensures Possible(h, [a, b, c]) && Run(h, [a, b, c]) == h3
  {
    FirstThen(h2, [c], c, []);
    FirstThen(h1, [b, c], b, [c]);
    FirstThen(h, [a, b, c], a, [b, c]);
  }

  lemma {:induction false} RunConcat(h: Hub, a: seq<Step>, b: seq<Step>, all: seq<Step>)
    requires all == a + b && Possible(h, a) && Possible(Run(h, a), b)
    ensures Possible(h, all) && Run(h, all) == Run(Run(h, a), b)
    decreases |a|
  {
    if a == [] {
      assert all == b;
    } else {
      var s, rest := a[0], a[1..];
      FirstOfConcat(a, b, all);
      FirstThen(h, a, s, rest);
      RunConcat(Apply(h, s), rest, b, all[1..]);
      FirstThen(h, all, s, all[1..]);
    }
  }

  function Init(keep: nat, lim: Limits): Hub {
    Hub(MessageLog.Init(keep), lim, map[], map[], map[], map[], 0, map[], map[], multiset{})
  }
}
