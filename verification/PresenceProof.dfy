/** The presence counters are exactly the numbers of live subscribed sessions, in every run. */
module PresenceProof {
  import opened Util
  import opened MessageLog
  import D = Delivery

  /** The definition the counters stand for. */
  ghost function Online(ss: map<int, D.Session>, c: int, u: int): set<int> {
    set s | s in ss && ss[s].user == u && c in ss[s].subs
  }

  ghost predicate CountsExact(h: D.Hub) {
    forall c, u :: h.Counter(c, u) == |Online(h.sessions, c, u)|
  }

  ghost predicate NoZeroes(h: D.Hub) {
    forall c, u :: c in h.presence && u in h.presence[c] ==> h.presence[c][u] > 0
  }

  ghost predicate LiveOnly(h: D.Hub) {
    && h.presence.Keys <= h.expire.Keys
    && forall s :: s in h.sessions ==> h.sessions[s].subs <= h.expire.Keys
  }

  ghost predicate PresenceOk(h: D.Hub) {
    CountsExact(h) && NoZeroes(h) && LiveOnly(h)
  }

  // ---- frames do not matter ------------------------------------------------------------

  /** Same sessions, users and subscriptions; only queues may differ. */
  ghost predicate SameSubs(a: map<int, D.Session>, b: map<int, D.Session>) {
    a.Keys == b.Keys && forall s :: s in a ==> a[s].user == b[s].user && a[s].subs == b[s].subs
  }

  lemma SameSubsOnline(a: map<int, D.Session>, b: map<int, D.Session>)
    requires SameSubs(a, b)
    ensures forall c, u :: Online(a, c, u) == Online(b, c, u)
  {
    forall c, u ensures Online(a, c, u) == Online(b, c, u) {
      assert forall s :: s in Online(a, c, u) <==> s in Online(b, c, u);
    }
  }

  lemma QueuesDoNotMatter(h: D.Hub, h': D.Hub)
    requires PresenceOk(h)
    requires SameSubs(h.sessions, h'.sessions) && h'.presence == h.presence && h'.expire.Keys >= h.expire.Keys
    ensures PresenceOk(h')
  {
    SameSubsOnline(h.sessions, h'.sessions);
    forall c, u ensures h'.Counter(c, u) == |Online(h'.sessions, c, u)| {
      assert h'.Counter(c, u) == h.Counter(c, u);
    }
  }

  // ---- one session joins or leaves one channel --------------------------------------------

  lemma OnlineAfter(ss: map<int, D.Session>, s: int, me: D.Session, c: int)
    requires s in ss && me.user == ss[s].user
    requires me.subs == ss[s].subs + {c} || me.subs == ss[s].subs - {c}
    ensures forall d, u :: Online(ss[s := me], d, u) ==
                           (if d == c && u == me.user
                            then if c in me.subs then Online(ss, c, u) + {s} else Online(ss, c, u) - {s}
                            else Online(ss, d, u))
  {
  }

  lemma BumpCounter(h: D.Hub, h': D.Hub, c: int, u: int, step: int)
    requires h'.presence == D.Bump(h.presence, c, u, step)
    ensures forall d, v :: h'.Counter(d, v) == h.Counter(d, v) + if d == c && v == u then step else 0
  {
  }

  lemma DropCounter(h: D.Hub, h': D.Hub, c: int, u: int)
    requires h'.presence == D.Drop(h.presence, c, u)
    ensures forall d, v :: h'.Counter(d, v) == if d == c && v == u then 0 else h.Counter(d, v)
  {
  }

  lemma JoinExact(h: D.Hub, h': D.Hub, s: int, me: D.Session, c: int)
    requires CountsExact(h) && NoZeroes(h)
    requires s in h.sessions && c !in h.sessions[s].subs
    requires me.user == h.sessions[s].user && me.subs == h.sessions[s].subs + {c}
    requires h'.sessions == h.sessions[s := me] && h'.presence == D.Bump(h.presence, c, me.user, 1)
    ensures CountsExact(h') && NoZeroes(h')
  {
    OnlineAfter(h.sessions, s, me, c);
    BumpCounter(h, h', c, me.user, 1);
    forall d, u ensures h'.Counter(d, u) == |Online(h'.sessions, d, u)| {
      assert h.Counter(d, u) == |Online(h.sessions, d, u)|;
    }
    forall d, u | d in h'.presence && u in h'.presence[d] ensures h'.presence[d][u] > 0 {
      assert h'.Counter(d, u) == h'.presence[d][u];
      assert d in h.presence && u in h.presence[d] ==> h.presence[d][u] > 0;
    }
  }

  lemma PartExact(h: D.Hub, s: int, c: int, quiet: bool)
    requires PresenceOk(h) && s in h.sessions
    ensures PresenceOk(D.Unsub(h, s, c, quiet))
  {
    var me := h.sessions[s];
    if c in me.subs {
      var me' := me.(subs := me.subs - {c});
      OnlineAfter(h.sessions, s, me', c);
      assert h.Counter(c, me.user) == |Online(h.sessions, c, me.user)|;
      assert s in Online(h.sessions, c, me.user);
      var n := h.Counter(c, me.user) - 1;
      var h1 := h.(sessions := h.sessions[s := me']);
      var h2 := h1.(presence := if n > 0 then D.Bump(h.presence, c, me.user, -1) else D.Drop(h.presence, c, me.user));
      if n > 0 {
        BumpCounter(h, h2, c, me.user, -1);
      } else {
        DropCounter(h, h2, c, me.user);
      }
      forall d, u ensures h2.Counter(d, u) == |Online(h2.sessions, d, u)| {
        assert h.Counter(d, u) == |Online(h.sessions, d, u)|;
      }
      PartNoZeroes(h, h2, c, me.user, n);
      QueuesDoNotMatter(h2, D.Unsub(h, s, c, quiet));
    }
  }

  lemma PartNoZeroes(h: D.Hub, h2: D.Hub, c: int, u: int, n: int)
    requires NoZeroes(h) && c in h.presence && n == h.Counter(c, u) - 1
    requires h2.presence == if n > 0 then D.Bump(h.presence, c, u, -1) else D.Drop(h.presence, c, u)
    ensures NoZeroes(h2)
  {
  }

  // ---- every step --------------------------------------------------------------------------

  lemma SubscribeExact(h: D.Hub, s: int, c: int, since: int, now: int)
    requires CountsExact(h) && NoZeroes(h) && LiveOnly(h)
    requires s in h.sessions && c !in h.sessions[s].subs && c in h.expire
    ensures PresenceOk(D.Subscribe(h, s, c, since, now))
  {
    var me := h.sessions[s];
    var replay := D.AsHist(c, D.Window(h.Mem(c), since, h.expire[c], now)) + [D.Synced(c, h.LastId(c))];
    var me' := me.(subs := me.subs + {c}, out := me.out + replay);
    var h' := h.(clock := now, sessions := h.sessions[s := me'], presence := D.Bump(h.presence, c, me.user, 1));
    JoinExact(h, h', s, me', c);
    QueuesDoNotMatter(h', D.Subscribe(h, s, c, since, now));
  }

  lemma BumpBack(p: map<int, map<int, int>>, c: int, u: int)
    requires c in p && u in p[c]
    ensures D.Bump(D.Bump(p, c, u, -1), c, u, 1) == p
  {
    var down := D.Bump(p, c, u, -1);
    assert down[c][u := down[c][u] + 1] == p[c];
  }

  /** The take-back in `handleSub` can leave a zero entry; the subscription that follows it in the
      same critical section raises it again, so the two together are exact. */
  lemma ResubExact(h: D.Hub, s: int, c: int, since: int, now: int)
    requires PresenceOk(h) && s in h.sessions && c in h.sessions[s].subs && c in h.expire
    ensures PresenceOk(D.HandleSub(h, s, c, since, now))
  {
    var me := h.sessions[s];
    var h' := D.HandleSub(h, s, c, since, now);
    assert h.Counter(c, me.user) == |Online(h.sessions, c, me.user)|;
    assert s in Online(h.sessions, c, me.user);
    BumpBack(h.presence, c, me.user);
    assert SameSubs(h.sessions, h'.sessions);
    QueuesDoNotMatter(h, h');
  }

  lemma {:induction false} UnsubAllExact(h: D.Hub, order: seq<int>, c: int, why: string, quiet: bool)
    requires PresenceOk(h) && forall s :: s in order ==> s in h.sessions
    ensures PresenceOk(D.UnsubAll(h, order, c, why, quiet))
  {
    if order != [] {
      var front, s := order[..|order| - 1], order[|order| - 1];
      assert s in order && forall x :: x in front ==> x in order;
      UnsubAllExact(h, front, c, why, quiet);
      var h1 := D.UnsubAll(h, front, c, why, quiet);
      PartExact(h1, s, c, quiet);
      QueuesDoNotMatter(D.Unsub(h1, s, c, quiet), D.UnsubAll(h, order, c, why, quiet));
    }
  }

  lemma {:induction false} LeaveExact(h: D.Hub, s: int, order: seq<int>)
    requires PresenceOk(h) && s in h.sessions
    ensures PresenceOk(D.Leave(h, s, order))
    ensures D.Leave(h, s, order).sessions[s].subs == h.sessions[s].subs - D.Elems(order)
    ensures D.Leave(h, s, order).sessions[s].user == h.sessions[s].user
  {
    if order != [] {
      var front, c := order[..|order| - 1], order[|order| - 1];
      assert order == front + [c];
      assert D.Elems(order) == D.Elems(front) + {c};
      LeaveExact(h, s, front);
      PartExact(D.Leave(h, s, front), s, c, false);
    }
  }

  lemma CloseExact(h: D.Hub, s: int, order: seq<int>)
    requires PresenceOk(h) && s in h.sessions && D.Elems(order) == h.sessions[s].subs
    ensures PresenceOk(D.Close(h, s, order))
  {
    LeaveExact(h, s, order);
    var h1, h' := D.Leave(h, s, order), D.Close(h, s, order);
    forall c, u ensures h'.Counter(c, u) == |Online(h'.sessions, c, u)| {
      assert Online(h'.sessions, c, u) == Online(h1.sessions, c, u);
      assert h1.Counter(c, u) == |Online(h1.sessions, c, u)|;
    }
  }

  lemma OpenExact(h: D.Hub, s: int, user: int)
    requires PresenceOk(h) && s !in h.sessions
    ensures PresenceOk(D.Open(h, s, user))
  {
    var h' := D.Open(h, s, user);
    forall c, u ensures h'.Counter(c, u) == |Online(h'.sessions, c, u)| {
      assert Online(h'.sessions, c, u) == Online(h.sessions, c, u);
      assert h.Counter(c, u) == |Online(h.sessions, c, u)|;
    }
  }

  lemma DeleteExact(h: D.Hub, c: int)
    requires PresenceOk(h)
    ensures PresenceOk(D.DeleteChannel(h, c))
  {
    var h' := D.DeleteChannel(h, c);
    forall d, u ensures h'.Counter(d, u) == |Online(h'.sessions, d, u)| {
      assert h.Counter(d, u) == |Online(h.sessions, d, u)|;
      assert Online(h'.sessions, d, u) == if d == c then {} else Online(h.sessions, d, u);
    }
  }

  lemma ApplyExact(h: D.Hub, st: D.Step)
    requires PresenceOk(h) && D.Enabled(h, st)
    ensures PresenceOk(D.Apply(h, st))
  {
    match st
    case DoOpen(s, user) => OpenExact(h, s, user);
    case DoClose(s, order) => CloseExact(h, s, order);
    case DoSub(s, c, since, now) =>
      if c in h.sessions[s].subs {
        ResubExact(h, s, c, since, now);
      } else {
        SubscribeExact(h, s, c, since, now);
      }
    case DoUnsub(s, c) => PartExact(h, s, c, false);
    case DoUnsubUser(user, order, c, why, quiet) =>
      assert forall x :: x in order ==> x in D.Elems(order);
      UnsubAllExact(h, order, c, why, quiet);
    case DoDeleteChannel(c) => DeleteExact(h, c);
    case DoPost(_, _, _, _, _, _) => QueuesDoNotMatter(h, D.Apply(h, st));
    case DoErase(_, _, _) => QueuesDoNotMatter(h, D.Apply(h, st));
    case DoExpire(_, _) => QueuesDoNotMatter(h, D.Apply(h, st));
    case DoNewChannel(_, _) => QueuesDoNotMatter(h, D.Apply(h, st));
    case DoSetExpire(_, _) => QueuesDoNotMatter(h, D.Apply(h, st));
  }

  /** In every run, each counter is the number of live sessions of that user subscribed there, and
      no zero entry is left behind. */
  lemma {:induction false} PresenceInRuns(h: D.Hub, steps: seq<D.Step>)
    requires PresenceOk(h) && D.Possible(h, steps)
    ensures PresenceOk(D.Run(h, steps))
    decreases |steps|
  {
    if steps != [] {
      ApplyExact(h, steps[0]);
      PresenceInRuns(D.Apply(h, steps[0]), steps[1..]);
    }
  }

  /** `onlineIn` walks the presence entries of a channel, so it lists exactly the users with a
      subscribed session. */
  lemma OnlineInExact(h: D.Hub, c: int, u: int)
    requires PresenceOk(h)
    ensures (c in h.presence && u in h.presence[c]) <==> exists s :: h.Subscribed(s, c) && h.sessions[s].user == u
  {
    assert h.Counter(c, u) == |Online(h.sessions, c, u)|;
    if c in h.presence && u in h.presence[c] {
      var s := Pick(Online(h.sessions, c, u));
      assert h.Subscribed(s, c);
    }
    if s :| h.Subscribed(s, c) && h.sessions[s].user == u {
      assert s in Online(h.sessions, c, u);
    }
  }

  lemma EmptyExact(keep: nat)
    ensures PresenceOk(D.Init(keep))
  {
    forall c, u ensures D.Init(keep).Counter(c, u) == |Online(D.Init(keep).sessions, c, u)| {
      assert Online(D.Init(keep).sessions, c, u) == {};
    }
  }

  /** From the first start on, every counter is the number of the user's live sessions subscribed there,
      and there are no other entries. */
  lemma PresenceFromStart(keep: nat, steps: seq<D.Step>, c: int, u: int)
    requires D.Possible(D.Init(keep), steps)
    ensures var h := D.Run(D.Init(keep), steps);
            && h.Counter(c, u) == |Online(h.sessions, c, u)|
            && ((c in h.presence && u in h.presence[c]) <==> exists s :: h.Subscribed(s, c) && h.sessions[s].user == u)
  {
    EmptyExact(keep);
    PresenceInRuns(D.Init(keep), steps);
    OnlineInExact(D.Run(D.Init(keep), steps), c, u);
  }
}
