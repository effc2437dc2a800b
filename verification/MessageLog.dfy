/** Messages in memory and the append-only log behind them (store.go, hub.go post,
    cmds.go tombstone/deleteChannel, limits.go expireMessages/sweep).

    Each operation is a function from one `Store` to the next; the class in
    MessageStore.dfy runs the source's loops and is proved equal to these functions. */
module MessageLog {
  import opened Util

  // ---- entries ---------------------------------------------------------------

  /** `Del` records exist only in the log; `Deleted` is the tombstone that replaces a message. */
  datatype Kind = Text | File | Deleted | Del

  datatype Entry = Entry(kind: Kind, cid: int, id: nat, ts: int, from: string, actor: string, body: string, fid: string)

  /** What is left of a message once it is deleted: who, when and by whom, but no content. */
  function TombstoneOf(e: Entry, actor: string): Entry {
    Entry(Deleted, e.cid, e.id, e.ts, e.from, actor, "", "")
  }

  function DelRecord(cid: int, id: nat, actor: string): Entry {
    Entry(Del, cid, id, 0, "", actor, "", "")
  }

  // ---- one channel's slice ----------------------------------------------------

  /** The newest position holding `id`, or -1. */
  function Find(ms: seq<Entry>, id: nat): (i: int)
    ensures -1 <= i < |ms|
    ensures i >= 0 ==> ms[i].id == id
    ensures forall j :: i < j < |ms| ==> ms[j].id != id
  {
    if ms == [] then -1
    else if ms[|ms| - 1].id == id then |ms| - 1
    else Find(ms[..|ms| - 1], id)
  }

  predicate CanErase(ms: seq<Entry>, id: nat) {
    Find(ms, id) >= 0 && ms[Find(ms, id)].kind != Deleted
  }

  function Erased(ms: seq<Entry>, id: nat, actor: string): (r: seq<Entry>)
    ensures |r| == |ms|
    ensures forall j :: 0 <= j < |ms| ==> r[j].id == ms[j].id && r[j].ts == ms[j].ts && r[j].cid == ms[j].cid
  {
    if CanErase(ms, id) then ms[Find(ms, id) := TombstoneOf(ms[Find(ms, id)], actor)] else ms
  }

  function LastN(ms: seq<Entry>, n: nat): seq<Entry> {
    if |ms| > n then ms[|ms| - n..] else ms
  }

  /** `post` lets a slice grow a quarter past `keep` before cutting it back to `keep`. */
  function Trimmed(ms: seq<Entry>, keep: nat): seq<Entry> {
    if |ms| > keep + keep / 4 then ms[|ms| - keep..] else ms
  }

  /** Length of the prefix older than `cut`. */
  function StalePrefix(ms: seq<Entry>, cut: int): (n: nat)
    ensures n <= |ms|
    ensures forall i :: 0 <= i < n ==> ms[i].ts < cut
    ensures n < |ms| ==> ms[n].ts >= cut
  {
    if ms == [] || ms[0].ts >= cut then 0 else 1 + StalePrefix(ms[1..], cut)
  }

  /** The slice after an expiry sweep at `now`; sec <= 0 keeps everything. */
  function Fresh(ms: seq<Entry>, sec: int, now: int): seq<Entry> {
    if sec <= 0 then ms else ms[StalePrefix(ms, now - sec * 1000)..]
  }

  /** What reading the log back yields for one channel, before any cut to `keep`. */
  function Replay(log: seq<Entry>, cid: int): seq<Entry> {
    if log == [] then [] else
      var r := Replay(log[..|log| - 1], cid);
      var e := log[|log| - 1];
      if e.cid != cid then r
      else if e.kind == Del then Erased(r, e.id, e.actor)
      else r + [e]
  }

  // ---- order -------------------------------------------------------------------

  ghost predicate Increasing(ms: seq<Entry>) {
    forall i, j :: 0 <= i < j < |ms| ==> ms[i].id < ms[j].id
  }

  ghost predicate DistinctIds(ms: seq<Entry>) {
    forall i, j :: 0 <= i < j < |ms| ==> ms[i].id != ms[j].id
  }

  /** Content records appear in the order they were posted: ids rise, time does not go back. */
  ghost predicate LogOrdered(log: seq<Entry>) {
    forall i, j :: 0 <= i < j < |log| && log[i].kind != Del && log[j].kind != Del
      ==> log[i].id < log[j].id && log[i].ts <= log[j].ts
  }

  function InsertById(ms: seq<Entry>, e: Entry): (r: seq<Entry>)
    ensures |r| == |ms| + 1
    ensures forall x :: x in r <==> x in ms || x == e
  {
    if ms == [] || ms[|ms| - 1].id < e.id then ms + [e]
    else
      var r := InsertById(ms[..|ms| - 1], e);
      assert ms == ms[..|ms| - 1] + [ms[|ms| - 1]];
      r + [ms[|ms| - 1]]
  }

  function SortById(ms: seq<Entry>): (r: seq<Entry>)
    ensures |r| == |ms|
    ensures forall x :: x in r <==> x in ms
  {
    if ms == [] then [] else
      assert ms == ms[..|ms| - 1] + [ms[|ms| - 1]];
      InsertById(SortById(ms[..|ms| - 1]), ms[|ms| - 1])
  }

  lemma {:induction false} InsertKeepsOrder(ms: seq<Entry>, e: Entry)
    requires Increasing(ms)
    requires forall x :: x in ms ==> x.id != e.id
    ensures Increasing(InsertById(ms, e))
  {
    if ms != [] && ms[|ms| - 1].id >= e.id {
      var front := ms[..|ms| - 1];
      InsertKeepsOrder(front, e);
      var r := InsertById(front, e);
      assert forall x :: x in r ==> x.id < ms[|ms| - 1].id;
      assert forall i :: 0 <= i < |r| ==> r[i] in r;
    }
  }

  lemma {:induction false} SortIncreases(ms: seq<Entry>)
    requires DistinctIds(ms)
    ensures Increasing(SortById(ms))
  {
    if ms != [] {
      SortIncreases(ms[..|ms| - 1]);
      InsertKeepsOrder(SortById(ms[..|ms| - 1]), ms[|ms| - 1]);
    }
  }

  /** Two rising sequences with the same entries are the same sequence, so the order in which
      the source's map iteration collects the slices cannot show in the rewritten log. */
  lemma {:induction false} IncreasingUnique(a: seq<Entry>, b: seq<Entry>)
    requires Increasing(a) && Increasing(b)
    requires forall x :: x in a <==> x in b
    ensures a == b
  {
    if a == [] {
      assert forall i :: 0 <= i < |b| ==> b[i] in b;
    } else {
      assert a[0] in b;
      var la, lb := a[|a| - 1], b[|b| - 1];
      assert la in b && lb in a;
      assert la == lb;
      var a', b' := a[..|a| - 1], b[..|b| - 1];
      forall x ensures x in a' <==> x in b' {
        if x in a' { assert x in a && x.id < la.id; }
        if x in b' { assert x in b && x.id < lb.id; }
      }
      IncreasingUnique(a', b');
    }
  }

  // ---- the hub's message state ---------------------------------------------------

  /** `expire` has one entry per live channel. `raised` is a history variable: the channels whose
      expiry was raised or turned off since the log last agreed with memory. */
  datatype Store = Store(
    keep: nat, nextId: nat, nextChan: int, clock: int,
    msgs: map<int, seq<Entry>>, log: seq<Entry>, expire: map<int, int>,
    removed: nat, lastComp: Option<int>, raised: set<int>)
  {
    function Mem(c: int): seq<Entry> {
      if c in msgs then msgs[c] else []
    }
  }

  function Init(keep: nat): Store {
    Store(keep, 0, 1, 0, map[], [], map[], 0, None, {})
  }

  ghost function Total(m: map<int, seq<Entry>>): nat {
    if m.Keys == {} then 0 else
      var c := Pick(m.Keys);
      |m[c]| + Total(m - {c})
  }

  lemma {:induction false} TotalSplit(m: map<int, seq<Entry>>, c: int)
    requires c in m
    ensures Total(m) == |m[c]| + Total(m - {c})
    decreases m.Keys
  {
    var d := Pick(m.Keys);
    if d != c {
      TotalSplit(m - {d}, c);
      TotalSplit(m - {c}, d);
      assert m - {d} - {c} == m - {c} - {d};
    }
  }

  /** Every slice's entries, one slice after another in no particular order. */
  ghost function Gathered(m: map<int, seq<Entry>>): seq<Entry> {
    if m.Keys == {} then [] else
      var c := Pick(m.Keys);
      m[c] + Gathered(m - {c})
  }

  ghost function Merged(m: map<int, seq<Entry>>): seq<Entry> {
    SortById(Gathered(m))
  }

  // ---- operations ------------------------------------------------------------------

  function Posted(st: Store, c: int, kind: Kind, from: string, body: string, fid: string, now: int): Entry {
    Entry(kind, c, st.nextId + 1, now, from, "", body, fid)
  }

  function Post(st: Store, c: int, e: Entry): Store {
    st.(nextId := e.id, clock := e.ts,
        msgs := st.msgs[c := Trimmed(st.Mem(c) + [e], st.keep)],
        log := st.log + [e])
  }

  function Erase(st: Store, c: int, id: nat, actor: string): Store {
    if CanErase(st.Mem(c), id)
    then st.(msgs := st.msgs[c := Erased(st.Mem(c), id, actor)], log := st.log + [DelRecord(c, id, actor)])
    else st
  }

  /** `compactLog`; `ok` is whether the temporary file could be created. */
  ghost function Rewrite(st: Store, ok: bool): Store {
    if ok then st.(log := Merged(st.msgs), raised := {}) else st
  }

  function Swept(st: Store, now: int): map<int, seq<Entry>> {
    map c | c in st.msgs :: if c in st.expire then Fresh(st.msgs[c], st.expire[c], now) else st.msgs[c]
  }

  ghost function ExpireOnly(st: Store, now: int): Store {
    var ms := Swept(st, now);
    st.(msgs := ms, clock := now,
        removed := if Total(st.msgs) >= Total(ms) then st.removed + Total(st.msgs) - Total(ms) else 0)
  }

  predicate CompactionDue(removed: nat, lastComp: Option<int>, now: int) {
    removed > 1000 || (removed > 0 && (lastComp.None? || now - lastComp.value > 10 * 60 * 1000))
  }

  /** `expireMessages`. */
  ghost function Janitor(st: Store, now: int, ok: bool): Store {
    var e := ExpireOnly(st, now);
    if CompactionDue(e.removed, e.lastComp, now)
    then Rewrite(e, ok).(removed := 0, lastComp := Some(now))
    else e
  }

  /** The message part of `sweep`. */
  ghost function Sweep(st: Store, now: int, ok1: bool, ok2: bool): Store {
    var j := Janitor(st, now, ok1);
    if j.removed > 0 then Rewrite(j, ok2).(removed := 0, lastComp := Some(now)) else j
  }

  function NewChannel(st: Store, sec: int): Store {
    st.(expire := st.expire[st.nextChan := sec], nextChan := st.nextChan + 1)
  }

  predicate Raises(was: int, sec: int) { was > 0 && (sec <= 0 || sec > was) }

  function SetExpire(st: Store, c: int, sec: int): Store
    requires c in st.expire
  {
    st.(expire := st.expire[c := sec], raised := if Raises(st.expire[c], sec) then st.raised + {c} else st.raised)
  }

  ghost function DeleteChannel(st: Store, c: int, ok: bool): Store {
    Rewrite(st.(msgs := st.msgs - {c}, expire := st.expire - {c}), ok)
  }

  function MaxId(log: seq<Entry>): (n: nat)
    ensures forall e :: e in log ==> e.id <= n
    ensures log != [] ==> exists e :: e in log && e.id == n
  {
    if log == [] then 0 else
      var n := MaxId(log[..|log| - 1]);
      var e := log[|log| - 1];
      assert log == log[..|log| - 1] + [e];
      if e.id > n then e.id else n
  }

  function Loaded(st: Store): map<int, seq<Entry>> {
    map c | c in st.expire && Replay(st.log, c) != [] :: LastN(Replay(st.log, c), st.keep)
  }

  /** What `loadMessages` has built when it reaches the end of the log: slices and the id counter
      come from the log alone. */
  function Reloaded(st: Store): Store {
    st.(msgs := Loaded(st), nextId := MaxId(st.log), removed := 0, lastComp := None, raised := {})
  }

  /** `loadMessages`: a log grown well past what is kept is rewritten at once. */
  ghost function Load(st: Store, ok: bool): Store {
    var kept := Total(Loaded(st));
    if |st.log| > kept + kept / 2 + 200 then Rewrite(Reloaded(st), ok) else Reloaded(st)
  }

  /** Start-up: load, then one sweep. */
  ghost function Restart(st: Store, now: int, ok0: bool, ok1: bool, ok2: bool): Store {
    Sweep(Load(st, ok0), now, ok1, ok2)
  }

  // ---- runs --------------------------------------------------------------------------

  datatype Step =
    | DoPost(c: int, file: bool, from: string, body: string, fid: string, now: int)
    | DoErase(c: int, id: nat, actor: string)
    | DoJanitor(now: int, ok1: bool)
    | DoSweep(now: int, ok1: bool, ok2: bool)
    | DoNewChannel(sec: int)
    | DoSetExpire(c: int, sec: int)
    | DoDeleteChannel(c: int, ok1: bool)
    | DoRestart(now: int, ok0: bool, ok1: bool, ok2: bool)

  /** A step is possible when its channel is live and the clock does not run backwards. */
  predicate Enabled(st: Store, s: Step) {
    match s
    case DoPost(c, _, _, _, _, now) => c in st.expire && now >= st.clock
    case DoErase(c, _, _) => c in st.expire
    case DoJanitor(now, _) => now >= st.clock
    case DoSweep(now, _, _) => now >= st.clock
    case DoNewChannel(_) => true
    case DoSetExpire(c, _) => c in st.expire
    case DoDeleteChannel(c, _) => c in st.expire
    case DoRestart(now, _, _, _) => now >= st.clock
  }

  ghost function Apply(st: Store, s: Step): Store
    requires Enabled(st, s)
  {
    match s
    case DoPost(c, file, from, body, fid, now) =>
      Post(st, c, Posted(st, c, if file then File else Text, from, body, if file then fid else "", now))
    case DoErase(c, id, actor) => Erase(st, c, id, actor)
    case DoJanitor(now, ok) => Janitor(st, now, ok)
    case DoSweep(now, ok1, ok2) => Sweep(st, now, ok1, ok2)
    case DoNewChannel(sec) => NewChannel(st, sec)
    case DoSetExpire(c, sec) => SetExpire(st, c, sec)
    case DoDeleteChannel(c, ok) => DeleteChannel(st, c, ok)
    case DoRestart(now, ok0, ok1, ok2) => Restart(st, now, ok0, ok1, ok2)
  }

  ghost predicate Possible(st: Store, steps: seq<Step>)
    decreases |steps|
  {
    steps == [] || (Enabled(st, steps[0]) && Possible(Apply(st, steps[0]), steps[1..]))
  }

  ghost function Run(st: Store, steps: seq<Step>): Store
    requires Possible(st, steps)
    decreases |steps|
  {
    if steps == [] then st else Run(Apply(st, steps[0]), steps[1..])
  }

  // ---- the invariant -------------------------------------------------------------------

  predicate Stale(e: Entry, sec: int, now: int) { sec > 0 && e.ts < now - sec * 1000 }

  /** Whatever memory no longer holds of the last `keep` replayed entries has passed its expiry. */
  ghost predicate DroppedAreStale(r: seq<Entry>, k: nat, keep: nat, sec: int, now: int) {
    forall i :: 0 <= i < k && |r| - keep <= i < |r| ==> Stale(r[i], sec, now)
  }

  ghost predicate IsSuffix(ms: seq<Entry>, r: seq<Entry>) {
    |ms| <= |r| && ms == r[|r| - |ms|..]
  }

  ghost predicate Follows(ms: seq<Entry>, r: seq<Entry>, raised: bool, keep: nat, sec: int, now: int) {
    IsSuffix(ms, r) && (!raised ==> DroppedAreStale(r, |r| - |ms|, keep, sec, now))
  }

  ghost predicate Tracks(st: Store, c: int)
    requires c in st.expire
  {
    Follows(st.Mem(c), Replay(st.log, c), c in st.raised, st.keep, st.expire[c], st.clock)
  }

  ghost predicate LogBounded(st: Store) {
    forall e :: e in st.log ==> 1 <= e.id <= st.nextId && e.cid < st.nextChan && (e.kind != Del ==> e.ts <= st.clock)
  }

  ghost predicate Valid(st: Store) {
    && st.keep >= 1
    && LogOrdered(st.log)
    && LogBounded(st)
    && st.msgs.Keys <= st.expire.Keys
    && (forall c :: c in st.expire ==> c < st.nextChan)
    && (forall c :: c in st.expire ==> Tracks(st, c))
  }
}
