/** What a subscribed session is sent: the replay, then every later post, each once and in order. */
module DeliveryProof {
  import opened Util
  import opened MessageLog
  import opened RestartProof
  import D = Delivery

  // ---- the replay window -----------------------------------------------------------------

  /** What a subscriber is owed: everything retained beyond `since` that has not expired. */
  function Wanted(ms: seq<Entry>, since: int, sec: int, now: int): (r: seq<Entry>)
    ensures forall e :: e in r ==> e in ms && e.id > since && !Stale(e, sec, now)
  {
    if ms == [] then [] else
      var r := Wanted(ms[..|ms| - 1], since, sec, now);
      var e := ms[|ms| - 1];
      assert ms == ms[..|ms| - 1] + [e];
      if e.id > since && !Stale(e, sec, now) then r + [e] else r
  }

  lemma {:induction false} NotBeforeSuffix(ms: seq<Entry>, cut: int, j: nat, p: nat)
    requires j <= |ms| && p <= |ms|
    requires forall k :: 0 <= k < |ms| ==> (ms[k].ts < cut <==> k < p)
    ensures D.NotBefore(ms[j..], cut) == ms[Max(j, p)..]
  {
    if j < |ms| {
      var front, last := ms[..|ms| - 1], ms[|ms| - 1];
      assert ms[j..][..|ms[j..]| - 1] == front[j..];
      if p < |ms| {
        NotBeforeSuffix(front, cut, j, p);
        assert front[Max(j, p)..] + [last] == ms[Max(j, p)..];
      } else {
        NotBeforeSuffix(front, cut, j, p - 1);
        assert front[Max(j, p - 1)..] == [];
      }
    }
  }

  lemma {:induction false} WantedSuffix(ms: seq<Entry>, since: int, sec: int, now: int, i: nat)
    requires i <= |ms|
    requires forall j :: 0 <= j < i ==> ms[j].id <= since || Stale(ms[j], sec, now)
    requires forall j :: i <= j < |ms| ==> ms[j].id > since && !Stale(ms[j], sec, now)
    ensures Wanted(ms, since, sec, now) == ms[i..]
  {
    if ms != [] {
      var front := ms[..|ms| - 1];
      if i < |ms| {
        WantedSuffix(front, since, sec, now, i);
        assert front[i..] + [ms[|ms| - 1]] == ms[i..];
      } else {
        WantedSuffix(front, since, sec, now, i - 1);
      }
    }
  }

  lemma BeyondSwitches(ms: seq<Entry>, since: int)
    requires Ordered(ms)
    ensures forall j :: 0 <= j < |ms| ==> (ms[j].id > since <==> j >= D.FirstAfter(ms, since))
  {
  }

  lemma StaleSwitches(ms: seq<Entry>, cut: int)
    requires Ordered(ms)
    ensures forall j :: 0 <= j < |ms| ==> (ms[j].ts < cut <==> j < StalePrefix(ms, cut))
  {
  }

  lemma WindowSuffix(ms: seq<Entry>, since: int, sec: int, now: int)
    requires Ordered(ms)
    ensures D.Window(ms, since, sec, now) == ms[Max(D.ReplayStart(ms, since), StalePrefix(ms, D.Cut(sec, now)))..]
  {
    var cut := D.Cut(sec, now);
    StaleSwitches(ms, cut);
    NotBeforeSuffix(ms, cut, D.ReplayStart(ms, since), StalePrefix(ms, cut));
  }

  lemma WantedTail(ms: seq<Entry>, since: int, sec: int, now: int)
    requires Ordered(ms) && forall e :: e in ms ==> e.ts >= 0
    ensures Wanted(ms, since, sec, now) == ms[Max(D.FirstAfter(ms, since), StalePrefix(ms, D.Cut(sec, now)))..]
  {
    BeyondSwitches(ms, since);
    StaleSwitches(ms, D.Cut(sec, now));
    assert forall k :: 0 <= k < |ms| ==> ms[k] in ms;
    WantedSuffix(ms, since, sec, now, Max(D.FirstAfter(ms, since), StalePrefix(ms, D.Cut(sec, now))));
  }

  lemma LastOfTail(ms: seq<Entry>, i: nat, p: nat)
    requires i <= |ms| && p <= |ms|
    ensures LastN(ms[Max(i, p)..], D.REPLAY_CAP) ==
            ms[Max(if |ms| - i > D.REPLAY_CAP then |ms| - D.REPLAY_CAP else i, p)..]
  {
  }

  /** The binary search, the cap and the skip together replay exactly the last 400 or fewer of the
      entries the subscriber is owed. */
  lemma WindowExact(ms: seq<Entry>, since: int, sec: int, now: int)
    requires Ordered(ms) && forall e :: e in ms ==> e.ts >= 0
    ensures D.Window(ms, since, sec, now) == LastN(Wanted(ms, since, sec, now), D.REPLAY_CAP)
  {
    WindowSuffix(ms, since, sec, now);
    WantedTail(ms, since, sec, now);
    LastOfTail(ms, D.FirstAfter(ms, since), StalePrefix(ms, D.Cut(sec, now)));
  }

  // ---- one session's stream on one channel ----------------------------------------------------

  /** The content frames of channel `c` in a queue, in order. */
  function Stream(out: seq<D.Frame>, c: int): seq<Entry> {
    if out == [] then [] else
      var r := Stream(out[..|out| - 1], c);
      var f := out[|out| - 1];
      if f.Content? && f.cid == c then r + [f.e] else r
  }

  lemma {:induction false} StreamConcat(a: seq<D.Frame>, b: seq<D.Frame>, c: int)
    ensures Stream(a + b, c) == Stream(a, c) + Stream(b, c)
  {
    if b == [] {
      assert a + b == a;
    } else {
      var front := b[..|b| - 1];
      StreamConcat(a, front, c);
      assert (a + b)[..|a + b| - 1] == a + front;
    }
  }

  lemma {:induction false} StreamHist(d: int, ms: seq<Entry>, c: int)
    ensures Stream(D.AsHist(d, ms), c) == if c == d then ms else []
  {
    if ms != [] {
      var front := ms[..|ms| - 1];
      StreamHist(d, front, c);
      StreamConcat(D.AsHist(d, front), [D.Content(d, ms[|ms| - 1], true)], c);
      assert front + [ms[|ms| - 1]] == ms;
    }
  }

  ghost function Got(h: D.Hub, s: int, c: int): seq<Entry>
    requires s in h.sessions
  {
    Stream(h.sessions[s].out, c)
  }

  lemma FannedStream(h: D.Hub, d: int, f: D.Frame, s: int, c: int)
    requires s in h.sessions
    ensures s in D.ToChan(h, d, f).sessions
    ensures D.ToChan(h, d, f).sessions[s].subs == h.sessions[s].subs
    ensures Got(D.ToChan(h, d, f), s, c) ==
            Got(h, s, c) + if f.Content? && f.cid == c && d in h.sessions[s].subs then [f.e] else []
  {
    StreamConcat(h.sessions[s].out, [f], c);
  }

  lemma ReplayStream(out: seq<D.Frame>, d: int, w: seq<Entry>, last: nat, c: int)
    ensures Stream(out + (D.AsHist(d, w) + [D.Synced(d, last)]), c) == Stream(out, c) + if c == d then w else []
  {
    StreamHist(d, w, c);
    StreamConcat(D.AsHist(d, w), [D.Synced(d, last)], c);
    StreamConcat(out, D.AsHist(d, w) + [D.Synced(d, last)], c);
  }

  lemma SubscribeStream(h: D.Hub, t: int, d: int, since: int, now: int, s: int, c: int)
    requires t in h.sessions && s in h.sessions && d in h.expire
    ensures s in D.Subscribe(h, t, d, since, now).sessions
    ensures Got(D.Subscribe(h, t, d, since, now), s, c) ==
            Got(h, s, c) + if s == t && c == d then D.Window(h.Mem(c), since, h.expire[c], now) else []
  {
    var me := h.sessions[t];
    var w := D.Window(h.Mem(d), since, h.expire[d], now);
    ReplayStream(me.out, d, w, h.LastId(d), c);
    var me' := me.(subs := me.subs + {d}, out := me.out + (D.AsHist(d, w) + [D.Synced(d, h.LastId(d))]));
    var h' := h.(clock := now, sessions := h.sessions[t := me'], presence := D.Bump(h.presence, d, me.user, 1));
    FannedStream(h', d, D.Join(d, me.user), s, c);
  }

  lemma UnsubStream(h: D.Hub, t: int, d: int, quiet: bool, s: int, c: int)
    requires t in h.sessions && s in h.sessions
    ensures s in D.Unsub(h, t, d, quiet).sessions
    ensures Got(D.Unsub(h, t, d, quiet), s, c) == Got(h, s, c)
  {
    var me := h.sessions[t];
    var h1 := h.(sessions := h.sessions[t := me.(subs := me.subs - {d})]);
    var h2 := h1.(presence := D.Drop(h.presence, d, me.user));
    FannedStream(h2, d, D.Part(d, me.user), s, c);
  }

  lemma {:induction false} UnsubAllStream(h: D.Hub, order: seq<int>, d: int, why: string, quiet: bool, s: int, c: int)
    requires s in h.sessions && forall x :: x in order ==> x in h.sessions
    ensures Got(D.UnsubAll(h, order, d, why, quiet), s, c) == Got(h, s, c)
  {
    if order != [] {
      var front, t := order[..|order| - 1], order[|order| - 1];
      assert t in order && forall x :: x in front ==> x in order;
      UnsubAllStream(h, front, d, why, quiet, s, c);
      var h0 := D.UnsubAll(h, front, d, why, quiet);
      UnsubStream(h0, t, d, quiet, s, c);
      var h1 := D.Unsub(h0, t, d, quiet);
      StreamConcat(h1.sessions[t].out, [D.Removed(d, why)], c);
    }
  }

  lemma {:induction false} LeaveStream(h: D.Hub, t: int, order: seq<int>, s: int, c: int)
    requires t in h.sessions && s in h.sessions
    ensures Got(D.Leave(h, t, order), s, c) == Got(h, s, c)
  {
    if order != [] {
      LeaveStream(h, t, order[..|order| - 1], s, c);
      UnsubStream(D.Leave(h, t, order[..|order| - 1]), t, order[|order| - 1], false, s, c);
    }
  }

  function PostedBy(h: D.Hub, st: D.Step, c: int): seq<Entry> {
    if st.DoPost? && st.c == c then [Said(st, h.nextId + 1)] else []
  }

  /** What a post says: the step's own words under a new id. */
  function Said(st: D.Step, id: nat): Entry
    requires st.DoPost?
  {
    Entry(if st.file then File else Text, st.c, id, st.now, st.from, "", st.body, st.fid)
  }

  /** Who, what, where and when, with nothing lost on the way. */
  ghost predicate Carries(e: Entry, c: int, file: bool, from: string, body: string, fid: string, now: int, id: nat) {
    && (e.kind == File <==> file) && (e.kind == Text <==> !file)
    && e.cid == c && e.id == id && e.ts == now && e.from == from && e.body == body && e.fid == fid && e.actor == ""
  }

  /** The post is stored last in its channel and is the next content frame of every subscriber; nobody else
      hears of it. */
  ghost predicate Reached(was: D.Hub, h: D.Hub, c: int, e: Entry) {
    && (was.keep >= 1 ==> h.Mem(c) != [] && h.Mem(c)[|h.Mem(c)| - 1] == e)
    && h.nextId == e.id && (forall d :: d != c ==> h.Mem(d) == was.Mem(d))
    && (forall s :: s in h.sessions <==> s in was.sessions)
    && forall s :: s in was.sessions ==>
         if was.Subscribed(s, c) then h.sessions[s] ==
           was.sessions[s].(out := was.sessions[s].out + [D.Content(c, e, false)])
         else h.sessions[s] == was.sessions[s]
  }

  lemma PostReaches(h: D.Hub, c: int, file: bool, from: string, body: string, fid: string, now: int) returns (e: Entry)
    requires D.Enabled(h, D.DoPost(c, file, from, body, fid, now))
    ensures Carries(e, c, file, from, body, fid, now, h.nextId + 1)
    ensures Reached(h, D.Apply(h, D.DoPost(c, file, from, body, fid, now)), c, e)
  {
    e := Entry(if file then File else Text, c, h.nextId + 1, now, from, "", body, fid);
    assert D.Announced(h, c, file, from, body, fid, now) == e;
  }

  /** A step sends a subscribed session exactly the channel's new posts and no other content. */
  lemma StepStream(h: D.Hub, st: D.Step, s: int, c: int)
    requires D.Enabled(h, st) && h.Subscribed(s, c)
    requires !(st.DoSub? && st.s == s && st.c == c)
    requires s in D.Apply(h, st).sessions
    ensures Got(D.Apply(h, st), s, c) == Got(h, s, c) + PostedBy(h, st, c)
  {
    match st
    case DoOpen(_, _) =>
    case DoClose(t, order) => LeaveStream(h, t, order, s, c);
    case DoSub(t, d, since, now) =>
      var me := h.sessions[t];
      var back := h.(sessions := h.sessions[t := me.(subs := me.subs - {d})],
        presence := D.Bump(h.presence, d, me.user, -1));
      SubscribeStream(if d in me.subs then back else h, t, d, since, now, s, c);
    case DoUnsub(t, d) => UnsubStream(h, t, d, false, s, c);
    case DoUnsubUser(user, order, d, why, quiet) =>
      assert forall x :: x in order ==> x in D.Elems(order);
      UnsubAllStream(h, order, d, why, quiet, s, c);
    case DoPost(d, file, from, body, fid, now) =>
      var e := D.Announced(h, d, file, from, body, fid, now);
      var h' := h.(nextId := e.id, clock := e.ts, msgs := h.msgs[d := Trimmed(h.Mem(d) + [e], h.keep)]);
      FannedStream(h', d, D.Content(d, e, false), s, c);
    case DoErase(d, id, actor) =>
      FannedStream(h.(msgs := h.msgs[d := Erased(h.Mem(d), id, actor)]), d, D.Gone(d, [id]), s, c);
    case DoExpire(d, now) => ExpireStream(h, d, now, s, c);
    case DoNewChannel(_, _) =>
    case DoSetExpire(_, _) =>
    case DoDeleteChannel(d) =>
      StreamConcat(h.sessions[s].out, [D.Removed(d, "channel deleted")], c);
  }

  lemma ExpireStream(h: D.Hub, d: int, now: int, s: int, c: int)
    requires d in h.expire && s in h.sessions
    ensures s in D.Expire(h, d, now).sessions
    ensures Got(D.Expire(h, d, now), s, c) == Got(h, s, c)
  {
    var kept := Fresh(h.Mem(d), h.expire[d], now);
    var h' := h.(clock := now).(msgs := h.msgs[d := kept]);
    FannedStream(h', d, D.Gone(d, D.Ids(h.Mem(d)[..|h.Mem(d)| - |kept|])), s, c);
  }

  /** The session stays subscribed to `c` through the whole run and does not subscribe again. */
  ghost predicate Stays(h: D.Hub, steps: seq<D.Step>, s: int, c: int)
    requires D.Possible(h, steps)
    decreases |steps|
  {
    && h.Subscribed(s, c)
    && (steps == [] ||
        (&& !(steps[0].DoSub? && steps[0].s == s && steps[0].c == c)
         && Stays(D.Apply(h, steps[0]), steps[1..], s, c)))
  }

  function PostedIn(h: D.Hub, steps: seq<D.Step>, c: int): seq<Entry>
    requires D.Possible(h, steps)
    decreases |steps|
  {
    if steps == [] then [] else PostedBy(h, steps[0], c) + PostedIn(D.Apply(h, steps[0]), steps[1..], c)
  }

  lemma Reassociate(a: seq<Entry>, b: seq<Entry>, c: seq<Entry>)
    ensures a + b + c == a + (b + c)
  {
  }

  lemma {:induction false} StreamRun(h: D.Hub, steps: seq<D.Step>, s: int, c: int)
    requires D.Possible(h, steps) && Stays(h, steps, s, c)
    ensures s in D.Run(h, steps).sessions
    ensures Got(D.Run(h, steps), s, c) == Got(h, s, c) + PostedIn(h, steps, c)
    decreases |steps|
  {
    if steps != [] {
      var h' := D.Apply(h, steps[0]);
      StepStream(h, steps[0], s, c);
      StreamRun(h', steps[1..], s, c);
      Reassociate(Got(h, s, c), PostedBy(h, steps[0], c), PostedIn(h', steps[1..], c));
    }
  }
}
