/** The hub's session, presence and message fields with the source's loops over them; each method is
    proved to make the step that Delivery defines. */
module SessionHubClass {
  import opened Util
  import opened MessageLog
  import opened RestartProof
  import opened DeliveryProof
  import opened PresenceProof
  import opened StreamProof
  import D = Delivery

  ghost function FannedBut(ss: map<int, D.Session>, c: int, f: D.Frame, todo: set<int>): map<int, D.Session> {
    map s | s in ss :: if s !in todo && c in ss[s].subs then ss[s].(out := ss[s].out + [f]) else ss[s]
  }

  lemma FannedStep(ss: map<int, D.Session>, c: int, f: D.Frame, todo: set<int>, s: int)
    requires s in todo && s in ss
    ensures FannedBut(ss, c, f, todo - {s}) ==
            if c in ss[s].subs then FannedBut(ss, c, f, todo)[s := ss[s].(out := ss[s].out + [f])]
            else FannedBut(ss, c, f, todo)
  {
  }

  ghost function ClearedBut(ss: map<int, D.Session>, c: int, f: D.Frame, todo: set<int>): map<int, D.Session> {
    map s | s in ss ::
      if s !in todo && c in ss[s].subs then ss[s].(subs := ss[s].subs - {c}, out := ss[s].out + [f]) else ss[s]
  }

  lemma ClearedStep(ss: map<int, D.Session>, c: int, f: D.Frame, todo: set<int>, s: int)
    requires s in todo && s in ss
    ensures ClearedBut(ss, c, f, todo - {s}) ==
            if c in ss[s].subs
            then ClearedBut(ss, c, f, todo)[s := ss[s].(subs := ss[s].subs - {c}, out := ss[s].out + [f])]
            else ClearedBut(ss, c, f, todo)
  {
  }

  lemma NotBeforeSnoc(ms: seq<Entry>, e: Entry, cut: int)
    ensures D.NotBefore(ms + [e], cut) == if e.ts < cut then D.NotBefore(ms, cut) else D.NotBefore(ms, cut) + [e]
  {
    assert (ms + [e])[..|ms + [e]| - 1] == ms;
  }

  lemma AsHistSnoc(c: int, ms: seq<Entry>, e: Entry)
    ensures D.AsHist(c, ms + [e]) == D.AsHist(c, ms) + [D.Content(c, e, true)]
  {
    assert (ms + [e])[..|ms + [e]| - 1] == ms;
  }

  lemma OrderSnoc(order: seq<int>, x: int)
    requires NoDup(order) && x !in D.Elems(order)
    ensures NoDup(order + [x]) && D.Elems(order + [x]) == D.Elems(order) + {x}
    ensures (order + [x])[..|order + [x]| - 1] == order
  {
    assert forall i :: 0 <= i < |order| ==> order[i] in D.Elems(order);
  }

  // ---- what every run keeps ------------------------------------------------------------------

  ghost predicate HubOk(h: D.Hub) { PresenceOk(h) && OrderOk(h) }

  lemma StepOk(h: D.Hub, st: D.Step)
    requires HubOk(h) && D.Enabled(h, st)
    ensures HubOk(D.Apply(h, st))
  {
    ApplyExact(h, st);
    ApplyOrder(h, st);
  }

  /** What a session has received on the channel, and what `sub` adds to it. */
  ghost predicate CaughtUpFrom(was: D.Hub, h: D.Hub, s: int, c: int, since: int, now: int)
    requires s in was.sessions && c in was.expire
  {
    && h.Subscribed(s, c)
    && Got(h, s, c) == Got(was, s, c) + LastN(Wanted(was.Mem(c), since, was.expire[c], now), D.REPLAY_CAP)
  }

  lemma SubDone(h: D.Hub, s: int, c: int, since: int, now: int)
    requires HubOk(h) && D.Enabled(h, D.DoSub(s, c, since, now))
    ensures HubOk(D.HandleSub(h, s, c, since, now)) &&
            CaughtUpFrom(h, D.HandleSub(h, s, c, since, now), s, c, since, now)
  {
    StepOk(h, D.DoSub(s, c, since, now));
    SubbedFacts(h, s, c, since, now);
    MemOk(h, c);
    WindowExact(h.Mem(c), since, h.expire[c], now);
  }

  lemma UnsubDone(h: D.Hub, s: int, c: int, quiet: bool)
    requires HubOk(h) && s in h.sessions
    ensures HubOk(D.Unsub(h, s, c, quiet)) && !D.Unsub(h, s, c, quiet).Subscribed(s, c)
  {
    PartExact(h, s, c, quiet);
    UnsubUntouched(h, s, c, quiet);
  }

  class SessionHub {
    const keep: nat
    var nextId: nat
    var msgs: map<int, seq<Entry>>
    var expire: map<int, int>
    var sessions: map<int, D.Session>
    var presence: map<int, map<int, int>>
    ghost var clock: int

    ghost function Snap(): D.Hub
      reads this
    {
      D.Hub(keep, nextId, clock, msgs, expire, sessions, presence)
    }

    /** Every counter is the number of live subscriptions, and slices are in order. */
    ghost predicate Valid()
      reads this
    {
      HubOk(Snap())
    }

    constructor (keep: nat)
      ensures Snap() == D.Init(keep) && Valid()
    {
      this.keep := keep;
      nextId, clock, msgs, expire, sessions, presence := 0, 0, map[], map[], map[], map[];
      new;
      PresenceInRuns(D.Init(keep), []);
    }

    function Slice(c: int): seq<Entry>
      reads this
    {
      if c in msgs then msgs[c] else []
    }

    function Counter(c: int, u: int): int
      reads this
    {
      if c in presence && u in presence[c] then presence[c][u] else 0
    }

    method ToChan(c: int, f: D.Frame)
      modifies this`sessions
      ensures Snap() == D.ToChan(old(Snap()), c, f)
    {
      ghost var was := sessions;
      var todo := sessions.Keys;
      assert sessions == FannedBut(was, c, f, todo);
      while todo != {}
        invariant todo <= was.Keys
        invariant sessions == FannedBut(was, c, f, todo)
        invariant Snap() == old(Snap()).(sessions := sessions)
        decreases todo
      {
        var s := Any(todo);
        FannedStep(was, c, f, todo, s);
        todo := todo - {s};
        if c in sessions[s].subs {
          sessions := sessions[s := sessions[s].(out := sessions[s].out + [f])];
        }
      }
      assert sessions == D.Fanned(was, c, f);
    }

    method Bump(c: int, u: int, step: int)
      modifies this`presence
      ensures presence == D.Bump(old(presence), c, u, step)
    {
      var inner := if c in presence then presence[c] else map[];
      presence := presence[c := inner[u := Counter(c, u) + step]];
    }

    /** sort.Search: the first position whose id is beyond `since`. */
    static method Search(ms: seq<Entry>, since: int) returns (i: nat)
      requires Ordered(ms)
      ensures i == D.FirstAfter(ms, since)
    {
      var lo, hi := 0, |ms|;
      while lo < hi
        invariant 0 <= lo <= hi <= |ms|
        invariant lo > 0 ==> ms[lo - 1].id <= since
        invariant hi < |ms| ==> ms[hi].id > since
      {
        var mid := (lo + hi) / 2;
        if ms[mid].id > since {
          hi := mid;
        } else {
          lo := mid + 1;
        }
      }
      i := lo;
    }

    /** Replay the gap, capped and without what has expired, as history frames. */
    static method Replay(c: int, ms: seq<Entry>, since: int, sec: int, now: int) returns (frames: seq<D.Frame>)
      requires Ordered(ms)
      ensures frames == D.AsHist(c, D.Window(ms, since, sec, now))
    {
      var i := Search(ms, since);
      if |ms| - i > D.REPLAY_CAP {
        i := |ms| - D.REPLAY_CAP;
      }
      var cut := 0;
      if sec > 0 {
        cut := now - sec * 1000;
      }
      frames := ReplayFrom(c, ms[i..], cut);
    }

    static method ReplayFrom(c: int, ms: seq<Entry>, cut: int) returns (frames: seq<D.Frame>)
      ensures frames == D.AsHist(c, D.NotBefore(ms, cut))
    {
      frames := [];
      var i := 0;
      while i < |ms|
        invariant 0 <= i <= |ms|
        invariant frames == D.AsHist(c, D.NotBefore(ms[..i], cut))
      {
        var m := ms[i];
        assert ms[..i + 1] == ms[..i] + [m];
        NotBeforeSnoc(ms[..i], m, cut);
        AsHistSnoc(c, D.NotBefore(ms[..i], cut), m);
        if m.ts >= cut {
          frames := frames + [D.Content(c, m, true)];
        }
        i := i + 1;
      }
      assert ms[..|ms|] == ms;
    }

    method Subscribe(s: int, c: int, since: int, now: int)
      requires s in sessions && c in expire && Ordered(Slice(c))
      modifies this
      ensures Snap() == D.Subscribe(old(Snap()), s, c, since, now)
    {
      var me := sessions[s];
      var frames := Replay(c, Slice(c), since, expire[c], now);
      var last := if Slice(c) == [] then 0 else Slice(c)[|Slice(c)| - 1].id;
      sessions := sessions[s := me.(subs := me.subs + {c}, out := me.out + (frames + [D.Synced(c, last)]))];
      clock := now;
      Bump(c, me.user, 1);
      if Counter(c, me.user) == 1 {
        ToChan(c, D.Join(c, me.user));
      }
    }

    method HandleSub(s: int, c: int, since: int, now: int)
      requires Valid() && s in sessions && c in expire && now >= clock
      modifies this
      ensures Snap() == D.HandleSub(old(Snap()), s, c, since, now)
      ensures Valid() && CaughtUpFrom(old(Snap()), Snap(), s, c, since, now)
    {
      SubDone(Snap(), s, c, since, now);
      MemOk(Snap(), c);
      Resubscribe(s, c, since, now);
    }

    /** A repeated `sub` takes the old subscription back first, without telling anyone. */
    method Resubscribe(s: int, c: int, since: int, now: int)
      requires s in sessions && c in expire && Ordered(Slice(c))
      modifies this
      ensures Snap() == D.HandleSub(old(Snap()), s, c, since, now)
    {
      var me := sessions[s];
      if c in me.subs {
        sessions := sessions[s := me.(subs := me.subs - {c})];
        Bump(c, me.user, -1);
      }
      Subscribe(s, c, since, now);
    }

    method Unsub(s: int, c: int, quiet: bool)
      requires s in sessions
      modifies this
      ensures Snap() == D.Unsub(old(Snap()), s, c, quiet)
      ensures old(Valid()) ==> Valid() && !Snap().Subscribed(s, c)
    {
      if Valid() { UnsubDone(Snap(), s, c, quiet); }
      var me := sessions[s];
      if c !in me.subs {
        return;
      }
      sessions := sessions[s := me.(subs := me.subs - {c})];
      if c !in presence {
        return;
      }
      var n := Counter(c, me.user) - 1;
      if n <= 0 {
        presence := presence[c := presence[c] - {me.user}];
        if c in expire && !quiet {
          ToChan(c, D.Part(c, me.user));
        }
      } else {
        Bump(c, me.user, -1);
      }
    }

    method UnsubTold(s: int, c: int, why: string, quiet: bool)
      requires s in sessions
      modifies this
      ensures Snap() == D.UnsubTold(old(Snap()), s, c, why, quiet)
    {
      Unsub(s, c, quiet);
      sessions := sessions[s := sessions[s].(out := sessions[s].out + [D.Removed(c, why)])];
    }

    /** Visits the user's sessions in whatever order the map yields them; `order` records which. */
    method UnsubUser(user: int, c: int, why: string, quiet: bool) returns (ghost order: seq<int>)
      requires Valid()
      modifies this
      ensures D.Enabled(old(Snap()), D.DoUnsubUser(user, order, c, why, quiet))
      ensures Snap() == D.Apply(old(Snap()), D.DoUnsubUser(user, order, c, why, quiet))
      ensures Valid()
    {
      ghost var was := Snap();
      order := [];
      var todo := set s | s in sessions && sessions[s].user == user;
      while todo != {}
        invariant todo <= D.SessionsOf(was, user)
        invariant NoDup(order) && D.Elems(order) == D.SessionsOf(was, user) - todo
        invariant forall s :: s in order ==> s in was.sessions
        invariant Snap() == D.UnsubAll(was, order, c, why, quiet)
        decreases todo
      {
        var s := Any(todo);
        todo := todo - {s};
        OrderSnoc(order, s);
        UnsubTold(s, c, why, quiet);
        order := order + [s];
      }
      assert forall x :: x in order ==> x in D.Elems(order);
      StepOk(was, D.DoUnsubUser(user, order, c, why, quiet));
    }

    method Post(c: int, file: bool, from: string, body: string, fid: string, now: int)
      requires Valid() && c in expire && now >= clock
      modifies this
      ensures Snap() == D.Apply(old(Snap()), D.DoPost(c, file, from, body, fid, now))
      ensures Valid()
      ensures exists m ::
                Carries(m, c, file, from, body, fid, now, old(nextId) + 1) && Reached(old(Snap()), Snap(), c, m)
    {
      StepOk(Snap(), D.DoPost(c, file, from, body, fid, now));
      ghost var said := PostReaches(Snap(), c, file, from, body, fid, now);
      Store(c, file, from, body, fid, now);
    }

    method Store(c: int, file: bool, from: string, body: string, fid: string, now: int)
      requires c in expire && now >= clock
      modifies this
      ensures Snap() == D.Apply(old(Snap()), D.DoPost(c, file, from, body, fid, now))
    {
      nextId := nextId + 1;
      var m := Entry(if file then File else Text, c, nextId, now, from, "", body, fid);
      var ms := Slice(c) + [m];
      if |ms| > keep + keep / 4 {
        ms := ms[|ms| - keep..];
      }
      msgs := msgs[c := ms];
      clock := now;
      ToChan(c, D.Content(c, m, false));
    }

    method DeleteChannel(c: int)
      requires Valid() && c in expire
      modifies this
      ensures Snap() == D.DeleteChannel(old(Snap()), c)
      ensures Valid()
    {
      StepOk(Snap(), D.DoDeleteChannel(c));
      ghost var was := sessions;
      msgs := msgs - {c};
      var ev := D.Removed(c, "channel deleted");
      var todo := sessions.Keys;
      assert sessions == ClearedBut(was, c, ev, todo);
      while todo != {}
        invariant todo <= was.Keys
        invariant sessions == ClearedBut(was, c, ev, todo)
        invariant Snap() == old(Snap()).(sessions := sessions, msgs := old(msgs) - {c})
        decreases todo
      {
        var s := Any(todo);
        ClearedStep(was, c, ev, todo, s);
        todo := todo - {s};
        if c in sessions[s].subs {
          sessions := sessions[s := sessions[s].(subs := sessions[s].subs - {c}, out := sessions[s].out + [ev])];
        }
      }
      presence := presence - {c};
      expire := expire - {c};
    }

    /** Teardown at the end of `handleConn`; `order` records the order of the map walk. */
    method Teardown(s: int) returns (ghost order: seq<int>)
      requires Valid() && s in sessions
      modifies this
      ensures D.Enabled(old(Snap()), D.DoClose(s, order))
      ensures Snap() == D.Close(old(Snap()), s, order)
      ensures Valid()
    {
      ghost var was := Snap();
      order := [];
      var todo := sessions[s].subs;
      while todo != {}
        invariant sessions.Keys == was.sessions.Keys
        invariant todo <= was.sessions[s].subs
        invariant NoDup(order) && D.Elems(order) == was.sessions[s].subs - todo
        invariant Snap() == D.Leave(was, s, order)
        decreases todo
      {
        var c := Any(todo);
        todo := todo - {c};
        OrderSnoc(order, c);
        Unsub(s, c, false);
        order := order + [c];
      }
      sessions := sessions - {s};
      StepOk(was, D.DoClose(s, order));
    }
  }
}
