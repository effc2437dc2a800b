/** Subscriptions, replay and presence (hub.go subscribe, unsub, unsubUser, handleSub, post, toChan,
    teardown; cmds.go deleteChannel). A session's outgoing queue is an unbounded sequence. */
module Delivery {
  import opened Util
  import opened MessageLog

  const REPLAY_CAP := 400

  datatype Frame =
    | Content(cid: int, e: Entry, hist: bool)   // msg, file, or a replayed tombstone
    | Synced(cid: int, last: nat)
    | Join(cid: int, user: int)
    | Part(cid: int, user: int)
    | Gone(cid: int, ids: seq<nat>)             // deleted, purged, expired
    | Removed(cid: int, why: string)            // kicked, banned, left, channel deleted

  datatype Session = Session(user: int, subs: set<int>, out: seq<Frame>)

  datatype Hub = Hub(
    keep: nat, nextId: nat, clock: int,
    msgs: map<int, seq<Entry>>, expire: map<int, int>,
    sessions: map<int, Session>, presence: map<int, map<int, int>>)
  {
    function Mem(c: int): seq<Entry> { if c in msgs then msgs[c] else [] }

    function LastId(c: int): nat {
      if Mem(c) == [] then 0 else Mem(c)[|Mem(c)| - 1].id
    }

    function Counter(c: int, u: int): int {
      if c in presence && u in presence[c] then presence[c][u] else 0
    }

    predicate Subscribed(s: int, c: int) { s in sessions && c in sessions[s].subs }
  }

  // ---- what a subscription replays -----------------------------------------------------

  /** The first position with an id beyond `since` (sort.Search). */
  function FirstAfter(ms: seq<Entry>, since: int): (i: nat)
    ensures i <= |ms|
    ensures forall j :: 0 <= j < i ==> ms[j].id <= since
    ensures i < |ms| ==> ms[i].id > since
  {
    if ms == [] || ms[0].id > since then 0 else 1 + FirstAfter(ms[1..], since)
  }

  function ReplayStart(ms: seq<Entry>, since: int): (i: nat)
    ensures i <= |ms|
  {
    var i := FirstAfter(ms, since);
    if |ms| - i > REPLAY_CAP then |ms| - REPLAY_CAP else i
  }

  function NotBefore(ms: seq<Entry>, cut: int): seq<Entry> {
    if ms == [] then [] else
      var r := NotBefore(ms[..|ms| - 1], cut);
      if ms[|ms| - 1].ts < cut then r else r + [ms[|ms| - 1]]
  }

  function Cut(sec: int, now: int): int { if sec > 0 then now - sec * 1000 else 0 }

  function Window(ms: seq<Entry>, since: int, sec: int, now: int): seq<Entry> {
    NotBefore(ms[ReplayStart(ms, since)..], Cut(sec, now))
  }

  function AsHist(c: int, ms: seq<Entry>): (r: seq<Frame>)
    ensures |r| == |ms|
  {
    if ms == [] then [] else AsHist(c, ms[..|ms| - 1]) + [Content(c, ms[|ms| - 1], true)]
  }

  // ---- operations ---------------------------------------------------------------------------

  function Fanned(ss: map<int, Session>, c: int, f: Frame): map<int, Session> {
    map s | s in ss :: if c in ss[s].subs then ss[s].(out := ss[s].out + [f]) else ss[s]
  }

  function ToChan(h: Hub, c: int, f: Frame): Hub { h.(sessions := Fanned(h.sessions, c, f)) }

  /** Presence counters are adjusted one session at a time; an absent entry counts as zero. */
  function Bump(p: map<int, map<int, int>>, c: int, u: int, step: int): map<int, map<int, int>> {
    var inner := if c in p then p[c] else map[];
    p[c := inner[u := (if u in inner then inner[u] else 0) + step]]
  }

  function Drop(p: map<int, map<int, int>>, c: int, u: int): map<int, map<int, int>> {
    if c in p then p[c := p[c] - {u}] else p
  }

  function Subscribe(h: Hub, s: int, c: int, since: int, now: int): Hub
    requires s in h.sessions
  {
    var me := h.sessions[s];
    var sec := if c in h.expire then h.expire[c] else 0;
    var replay := AsHist(c, Window(h.Mem(c), since, sec, now)) + [Synced(c, h.LastId(c))];
    var me' := me.(subs := me.subs + {c}, out := me.out + replay);
    var h' := h.(clock := now, sessions := h.sessions[s := me'], presence := Bump(h.presence, c, me.user, 1));
    if h'.Counter(c, me.user) == 1 then ToChan(h', c, Join(c, me.user)) else h'
  }

  /** A second `sub` first takes the old subscription back, without telling anyone. */
  function HandleSub(h: Hub, s: int, c: int, since: int, now: int): Hub
    requires s in h.sessions
  {
    var me := h.sessions[s];
    if c in me.subs then
      Subscribe(h.(sessions := h.sessions[s := me.(subs := me.subs - {c})],
                   presence := Bump(h.presence, c, me.user, -1)), s, c, since, now)
    else Subscribe(h, s, c, since, now)
  }

  function Unsub(h: Hub, s: int, c: int, quiet: bool): Hub
    requires s in h.sessions
  {
    var me := h.sessions[s];
    if c !in me.subs then h else
      var h1 := h.(sessions := h.sessions[s := me.(subs := me.subs - {c})]);
      if c !in h.presence then h1 else
        var n := h.Counter(c, me.user) - 1;
        if n > 0 then h1.(presence := Bump(h.presence, c, me.user, -1)) else
          var h2 := h1.(presence := Drop(h.presence, c, me.user));
          if c in h.expire && !quiet then ToChan(h2, c, Part(c, me.user)) else h2
  }

  function UnsubTold(h: Hub, s: int, c: int, why: string, quiet: bool): (h': Hub)
    requires s in h.sessions
    ensures h'.sessions.Keys == h.sessions.Keys
  {
    var h1 := Unsub(h, s, c, quiet);
    h1.(sessions := h1.sessions[s := h1.sessions[s].(out := h1.sessions[s].out + [Removed(c, why)])])
  }

  /** Every session of the user is detached, each in turn, and told why. */
  function UnsubAll(h: Hub, order: seq<int>, c: int, why: string, quiet: bool): (h': Hub)
    requires forall s :: s in order ==> s in h.sessions
    ensures h'.sessions.Keys == h.sessions.Keys
    decreases |order|
  {
    if order == [] then h else
      var s := order[|order| - 1];
      assert s in order;
      assert forall x :: x in order[..|order| - 1] ==> x in order;
      UnsubTold(UnsubAll(h, order[..|order| - 1], c, why, quiet), s, c, why, quiet)
  }

  function PostOut(h: Hub, c: int, e: Entry): Hub {
    ToChan(h.(nextId := e.id, clock := e.ts, msgs := h.msgs[c := Trimmed(h.Mem(c) + [e], h.keep)]), c,
      Content(c, e, false))
  }

  function EraseOut(h: Hub, c: int, id: nat, actor: string): Hub {
    if CanErase(h.Mem(c), id)
    then ToChan(h.(msgs := h.msgs[c := Erased(h.Mem(c), id, actor)]), c, Gone(c, [id]))
    else h
  }

  function Ids(ms: seq<Entry>): (r: seq<nat>)
    ensures |r| == |ms|
    ensures forall i :: 0 <= i < |ms| ==> r[i] == ms[i].id
  {
    seq(|ms|, i requires 0 <= i < |ms| => ms[i].id)
  }

  /** One channel's share of an expiry sweep. */
  function Expire(h: Hub, c: int, now: int): Hub
    requires c in h.expire
  {
    var ms := h.Mem(c);
    var kept := Fresh(ms, h.expire[c], now);
    var h' := h.(clock := now);
    if |kept| == |ms| then h'
    else ToChan(h'.(msgs := h.msgs[c := kept]), c, Gone(c, Ids(ms[..|ms| - |kept|])))
  }

  function DeleteChannel(h: Hub, c: int): Hub {
    h.(msgs := h.msgs - {c}, expire := h.expire - {c}, presence := h.presence - {c},
       sessions := map s | s in h.sessions ::
         if c in h.sessions[s].subs
         then h.sessions[s].(subs := h.sessions[s].subs - {c},
           out := h.sessions[s].out + [Removed(c, "channel deleted")])
         else h.sessions[s])
  }

  function Open(h: Hub, s: int, user: int): Hub {
    h.(sessions := h.sessions[s := Session(user, {}, [])])
  }

  /** Teardown unsubscribes channel by channel, in the order the map yields them. */
  function Leave(h: Hub, s: int, order: seq<int>): Hub
    requires s in h.sessions
    ensures Leave(h, s, order).sessions.Keys == h.sessions.Keys
    decreases |order|
  {
    if order == [] then h else Unsub(Leave(h, s, order[..|order| - 1]), s, order[|order| - 1], false)
  }

  function Close(h: Hub, s: int, order: seq<int>): Hub
    requires s in h.sessions
  {
    var h' := Leave(h, s, order);
    h'.(sessions := h'.sessions - {s})
  }

  // ---- steps -----------------------------------------------------------------------------------

  datatype Step =
    | DoOpen(s: int, user: int)
    | DoClose(s: int, order: seq<int>)
    | DoSub(s: int, c: int, since: int, now: int)
    | DoUnsub(s: int, c: int)
    | DoUnsubUser(user: int, order: seq<int>, c: int, why: string, quiet: bool)
    | DoPost(c: int, file: bool, from: string, body: string, fid: string, now: int)
    | DoErase(c: int, id: nat, actor: string)
    | DoExpire(c: int, now: int)
    | DoNewChannel(c: int, sec: int)
    | DoSetExpire(c: int, sec: int)
    | DoDeleteChannel(c: int)

  ghost function Elems(xs: seq<int>): set<int> { set x | x in xs }

  ghost function SessionsOf(h: Hub, user: int): set<int> {
    set s | s in h.sessions && h.sessions[s].user == user
  }

  ghost predicate Enabled(h: Hub, st: Step) {
    match st
    case DoOpen(s, _) => s !in h.sessions
    case DoClose(s, order) => s in h.sessions && NoDup(order) && Elems(order) == h.sessions[s].subs
    case DoSub(s, c, _, now) => s in h.sessions && c in h.expire && now >= h.clock
    case DoUnsub(s, c) => s in h.sessions
    case DoUnsubUser(user, order, c, _, _) => NoDup(order) && Elems(order) == SessionsOf(h, user)
    case DoPost(c, _, _, _, _, now) => c in h.expire && now >= h.clock
    case DoErase(c, _, _) => c in h.expire
    case DoExpire(c, now) => c in h.expire && now >= h.clock
    case DoNewChannel(c, _) => c !in h.expire
    case DoSetExpire(c, _) => c in h.expire
    case DoDeleteChannel(c) => c in h.expire
  }

  function Announced(h: Hub, c: int, file: bool, from: string, body: string, fid: string, now: int): Entry {
    Entry(if file then File else Text, c, h.nextId + 1, now, from, "", body, fid)
  }

  function Apply(h: Hub, st: Step): Hub
    requires Enabled(h, st)
  {
    match st
    case DoOpen(s, user) => Open(h, s, user)
    case DoClose(s, order) => Close(h, s, order)
    case DoSub(s, c, since, now) => HandleSub(h, s, c, since, now)
    case DoUnsub(s, c) => Unsub(h, s, c, false)
    case DoUnsubUser(user, order, c, why, quiet) =>
      assert forall x :: x in order ==> x in Elems(order);
      UnsubAll(h, order, c, why, quiet)
    case DoPost(c, file, from, body, fid, now) => PostOut(h, c, Announced(h, c, file, from, body, fid, now))
    case DoErase(c, id, actor) => EraseOut(h, c, id, actor)
    case DoExpire(c, now) => Expire(h, c, now)
    case DoNewChannel(c, sec) => h.(expire := h.expire[c := sec])
    case DoSetExpire(c, sec) => h.(expire := h.expire[c := sec])
    case DoDeleteChannel(c) => DeleteChannel(h, c)
  }

  ghost predicate Possible(h: Hub, steps: seq<Step>)
    decreases |steps|
  {
    steps == [] || (Enabled(h, steps[0]) && Possible(Apply(h, steps[0]), steps[1..]))
  }

  function Run(h: Hub, steps: seq<Step>): Hub
    requires Possible(h, steps)
    decreases |steps|
  {
    if steps == [] then h else Run(Apply(h, steps[0]), steps[1..])
  }

  /** The hub right after its first start. */
  function Init(keep: nat): Hub {
    Hub(keep, 0, 0, map[], map[], map[], map[])
  }
}
