/** Who is told what besides the content itself: joins and departures, the end of a replay, deletions,
    expiries, removals. */
module AnnounceProof {
  import opened Util
  import opened MessageLog
  import opened RestartProof
  import opened DeliveryProof
  import opened PresenceProof
  import D = Delivery

  /** Every subscriber of `c` hears the frame, last of all, and nobody else does. */
  ghost predicate Told(was: map<int, D.Session>, now: map<int, D.Session>, c: int, f: D.Frame) {
    && (forall s :: s in now <==> s in was)
    && forall s :: s in was ==> now[s] == Hearing(was[s], c in was[s].subs, f)
  }

  function Hearing(me: D.Session, hears: bool, f: D.Frame): D.Session {
    if hears then me.(out := me.out + [f]) else me
  }

  // ---- subscribing and leaving ---------------------------------------------------------------------

  /** No other session of the same user is subscribed there. */
  ghost predicate Alone(ss: map<int, D.Session>, s: int, c: int)
    requires s in ss
  {
    forall t :: t in ss && t != s && ss[t].user == ss[s].user ==> c !in ss[t].subs
  }

  ghost function Newest(ms: seq<Entry>): nat { if ms == [] then 0 else ms[|ms| - 1].id }

  lemma AloneCounts(ss: map<int, D.Session>, s: int, c: int)
    requires s in ss
    ensures Alone(ss, s, c) <==> Online(ss, c, ss[s].user) - {s} == {}
  {
    if !Alone(ss, s, c) {
      var t :| t in ss && t != s && ss[t].user == ss[s].user && c in ss[t].subs;
      assert t in Online(ss, c, ss[s].user) - {s};
    } else {
      forall t ensures t !in Online(ss, c, ss[s].user) - {s} {}
    }
  }

  /** What the subscriber is sent: the replay as history, then how far it reaches, then, when this is the
      first session of the account there, the news that it has joined, which all the others get too. */
  lemma SubTold(h: D.Hub, s: int, c: int, since: int, now: int)
    requires PresenceOk(h) && D.Enabled(h, D.DoSub(s, c, since, now)) && c !in h.sessions[s].subs
    ensures var h', me := D.Apply(h, D.DoSub(s, c, since, now)), h.sessions[s];
            var replay := D.AsHist(c, D.Window(h.Mem(c), since, h.expire[c], now)) + [D.Synced(c, Newest(h.Mem(c)))];
            var mid := h.sessions[s := me.(subs := me.subs + {c}, out := me.out + replay)];
            if Alone(h.sessions, s, c) then Told(mid, h'.sessions, c, D.Join(c, me.user)) else h'.sessions == mid
  {
    var u := h.sessions[s].user;
    AloneCounts(h.sessions, s, c);
    assert h.Counter(c, u) == |Online(h.sessions, c, u)|;
    assert Online(h.sessions, c, u) - {s} == Online(h.sessions, c, u);
  }

  /** The last session of an account to leave is announced to everybody still there. */
  lemma UnsubTold(h: D.Hub, s: int, c: int, quiet: bool)
    requires PresenceOk(h) && s in h.sessions && c in h.sessions[s].subs
    ensures var h', me := D.Unsub(h, s, c, quiet), h.sessions[s];
            var mid := h.sessions[s := me.(subs := me.subs - {c})];
            if Alone(h.sessions, s, c) && !quiet then Told(mid, h'.sessions, c, D.Part(c, me.user))
              else h'.sessions == mid
  {
    var u := h.sessions[s].user;
    AloneCounts(h.sessions, s, c);
    assert h.Counter(c, u) == |Online(h.sessions, c, u)|;
    assert s in Online(h.sessions, c, u);
    if Alone(h.sessions, s, c) {
      assert Online(h.sessions, c, u) == {s};
    } else {
      var t := Pick(Online(h.sessions, c, u) - {s});
      assert {s, t} <= Online(h.sessions, c, u);
      Fewer({s, t}, Online(h.sessions, c, u));
    }
  }

  lemma Fewer(a: set<int>, b: set<int>)
    requires a <= b
    ensures |a| <= |b|
  {
    if a != {} {
      var x := Pick(a);
      Fewer(a - {x}, b - {x});
    }
  }

  /** Sessions of the account: those in `done` are out and know why, the others are as they were. */
  ghost predicate OutSoFar(was: map<int, D.Session>, now: map<int, D.Session>, done: seq<int>, c: int, why: string,
      u: int) {
    && now.Keys == was.Keys
    && forall s :: s in was && was[s].user == u ==> now[s] == if s in done then Out(was[s], c, why) else was[s]
  }

  function Out(me: D.Session, c: int, why: string): D.Session {
    me.(subs := me.subs - {c}, out := me.out + [D.Removed(c, why)])
  }

  /** Each session of the account is told why, whether it was subscribed or not, and hears nothing else. */
  lemma {:induction false} DetachedTold(h: D.Hub, order: seq<int>, c: int, why: string, quiet: bool, u: int)
    requires PresenceOk(h) && NoDup(order) && forall s :: s in order ==> s in h.sessions && h.sessions[s].user == u
    ensures OutSoFar(h.sessions, D.UnsubAll(h, order, c, why, quiet).sessions, order, c, why, u)
  {
    if order != [] {
      var front, s := order[..|order| - 1], order[|order| - 1];
      assert order == front + [s];
      assert forall x :: x in front ==> x in order;
      DetachedTold(h, front, c, why, quiet, u);
      UnsubAllExact(h, front, c, why, quiet);
      OneMoreOut(h.sessions, D.UnsubAll(h, front, c, why, quiet), front, s, c, why, quiet, u);
    }
  }

  lemma OneMoreOut(was: map<int, D.Session>, h: D.Hub, front: seq<int>, s: int, c: int, why: string, quiet: bool,
      u: int)
    requires PresenceOk(h) && s in was && was[s].user == u && s !in front && OutSoFar(was, h.sessions, front, c, why, u)
    ensures OutSoFar(was, D.UnsubTold(h, s, c, why, quiet).sessions, front + [s], c, why, u)
  {
    if c in h.sessions[s].subs {
      UnsubTold(h, s, c, quiet);
    }
    assert c !in h.sessions[s].subs ==> h.sessions[s].subs - {c} == h.sessions[s].subs;
  }

  /** A replay is marked as history, entry by entry. */
  lemma {:induction false} ReplayIsHistory(c: int, ms: seq<Entry>)
    ensures forall i :: 0 <= i < |ms| ==> D.AsHist(c, ms)[i] == D.Content(c, ms[i], true)
  {
    if ms != [] { ReplayIsHistory(c, ms[..|ms| - 1]); }
  }

  // ---- deletions, expiries, removals --------------------------------------------------------------

  /** Subscribers are told which message is gone, when one is. */
  lemma EraseTold(h: D.Hub, c: int, id: nat, actor: string)
    requires c in h.expire
    ensures var h' := D.Apply(h, D.DoErase(c, id, actor));
            if CanErase(h.Mem(c), id) then Told(h.sessions, h'.sessions, c, D.Gone(c, [id])) else h' == h
  {
  }

  /** Subscribers are told the ids of exactly the entries that expired, oldest first. */
  lemma ExpireTold(h: D.Hub, c: int, now: int)
    requires D.Enabled(h, D.DoExpire(c, now))
    ensures var h', ms := D.Apply(h, D.DoExpire(c, now)), h.Mem(c);
            var n := |ms| - |h'.Mem(c)|;
            && 0 <= n && h'.Mem(c) == ms[n..] && h'.clock == now
            && (forall i :: 0 <= i < n ==> Stale(ms[i], h.expire[c], now))
            && (n < |ms| ==> !Stale(ms[n], h.expire[c], now))
            && if n == 0 then h'.sessions == h.sessions
               else exists ids: seq<nat> ::
                 Told(h.sessions, h'.sessions, c, D.Gone(c, ids)) && |ids| == n && forall i :: 0 <= i < n ==>
                   ids[i] == ms[i].id
  {
    var h', ms := D.Apply(h, D.DoExpire(c, now)), h.Mem(c);
    var n := |ms| - |h'.Mem(c)|;
    if n > 0 {
      assert Told(h.sessions, h'.sessions, c, D.Gone(c, D.Ids(ms[..n])));
    }
  }

  /** Subscribers of a deleted channel are told so and detached; nobody else notices. */
  lemma DeleteTold(h: D.Hub, c: int)
    requires c in h.expire
    ensures var h' := D.Apply(h, D.DoDeleteChannel(c));
            && h'.msgs == h.msgs - {c} && h'.expire == h.expire - {c} && h'.presence == h.presence - {c}
            && (forall s :: s in h'.sessions <==> s in h.sessions)
            && forall s :: s in h.sessions ==>
                 h'.sessions[s] == if c in h.sessions[s].subs then Out(h.sessions[s], c, "channel deleted")
                   else h.sessions[s]
  {
  }

  /** A new session listens to nothing and has been sent nothing; settings touch no session. */
  lemma QuietSteps(h: D.Hub, s: int, user: int, c: int, sec: int)
    ensures D.Enabled(h, D.DoOpen(s, user)) ==>
            D.Apply(h, D.DoOpen(s, user)) == h.(sessions := h.sessions[s := D.Session(user, {}, [])])
    ensures D.Enabled(h, D.DoNewChannel(c, sec)) ==>
            D.Apply(h, D.DoNewChannel(c, sec)) == h.(expire := h.expire[c := sec])
    ensures D.Enabled(h, D.DoSetExpire(c, sec)) ==>
            D.Apply(h, D.DoSetExpire(c, sec)) == h.(expire := h.expire[c := sec])
  {
  }

  /** A closed session is gone; the others still listen to what they listened to, and what they were sent in
      between is news of departures. */
  lemma CloseGone(h: D.Hub, s: int, order: seq<int>)
    requires PresenceOk(h) && D.Enabled(h, D.DoClose(s, order))
    ensures var h' := D.Apply(h, D.DoClose(s, order));
            && h'.sessions.Keys == h.sessions.Keys - {s}
            && forall t :: t in h'.sessions ==>
                 h'.sessions[t].user == h.sessions[t].user && h'.sessions[t].subs == h.sessions[t].subs &&
                 OnlyParts(h.sessions[t].out, h'.sessions[t].out, h.sessions[s].user)
  {
    LeaveParts(h, s, order);
  }

  ghost predicate OnlyParts(was: seq<D.Frame>, out: seq<D.Frame>, u: int) {
    && |was| <= |out| && out[..|was|] == was
    && forall i :: |was| <= i < |out| ==> out[i].Part? && out[i].user == u
  }

  lemma {:induction false} LeaveParts(h: D.Hub, s: int, order: seq<int>)
    requires PresenceOk(h) && s in h.sessions
    ensures var h' := D.Leave(h, s, order);
            && h'.sessions.Keys == h.sessions.Keys && h'.sessions[s].user == h.sessions[s].user
            && forall t :: t in h.sessions && t != s ==>
                 h'.sessions[t].user == h.sessions[t].user && h'.sessions[t].subs == h.sessions[t].subs &&
                 OnlyParts(h.sessions[t].out, h'.sessions[t].out, h.sessions[s].user)
  {
    if order != [] {
      var front, c := order[..|order| - 1], order[|order| - 1];
      LeaveParts(h, s, front);
      LeaveExact(h, s, front);
      if c in D.Leave(h, s, front).sessions[s].subs {
        UnsubTold(D.Leave(h, s, front), s, c, false);
      }
    }
  }
}
