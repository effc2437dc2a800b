/** To somebody who cannot see it, a channel answers like one that does not exist: nothing that account
    asks, and nothing that goes on inside, tells the two apart. */
module HiddenProof {
  import opened Util
  import opened Perms
  import opened Access

  /** Two hubs that differ in nothing but the channel `c`, its invites and who is subscribed to it. */
  ghost predicate AlikeChans(a: map<int, Chan>, b: map<int, Chan>, c: int) {
    forall x :: x != c ==> (x in a <==> x in b) && (x in a ==> a[x] == b[x])
  }

  ghost predicate AlikeInvites(a: map<int, Invite>, b: map<int, Invite>, c: int) {
    && (forall k :: k in a && a[k].cid != c ==> k in b && b[k] == a[k])
    && forall k :: k in b && b[k].cid != c ==> k in a && a[k] == b[k]
  }

  ghost predicate AlikeSession(a: Session, b: Session, c: int) {
    a.user == b.user && a.guest == b.guest && a.token == b.token && a.subs - {c} == b.subs - {c}
  }

  ghost predicate AlikeSessions(a: map<int, Session>, b: map<int, Session>, c: int) {
    (forall s :: s in a <==> s in b) && forall s :: s in a ==> AlikeSession(a[s], b[s], c)
  }

  ghost predicate Alike(h1: Hub, h2: Hub, c: int) {
    && h1.users == h2.users && h1.saved == h2.saved && h1.def == h2.def
    && h1.openChannels == h2.openChannels && h1.registration == h2.registration
    && AlikeChans(h1.chans, h2.chans, c) && AlikeInvites(h1.invites, h2.invites, c) &&
      AlikeSessions(h1.sessions, h2.sessions, c)
  }

  function Without(h: Hub, c: int): Hub {
    h.(chans := h.chans - {c},
       invites := map k | k in h.invites && h.invites[k].cid != c :: h.invites[k],
       sessions := map s | s in h.sessions :: h.sessions[s].(subs := h.sessions[s].subs - {c}))
  }

  lemma WithoutAlike(h: Hub, c: int)
    ensures Alike(h, Without(h, c), c)
  {
  }

  /** `u` is no server staff and has no rank in `c`. */
  predicate HiddenFrom(h: Hub, u: int, c: int) { !h.Staff(u) && !h.Sees(u, c) }

  // ---- what the account itself asks --------------------------------------------------------------

  lemma SightAlike(h1: Hub, h2: Hub, c: int, u: int, x: int)
    requires Alike(h1, h2, c) && x != c
    ensures h1.Sees(u, x) <==> h2.Sees(u, x)
    ensures x in h1.chans ==> x in h2.chans && h1.Rank(u, x) == h2.Rank(u, x)
  {
  }

  lemma ListsAlike(h1: Hub, h2: Hub, c: int, u: int)
    requires Alike(h1, h2, c) && HiddenFrom(h1, u, c) && HiddenFrom(h2, u, c)
    ensures ChannelsFor(h1, u) == ChannelsFor(h2, u) && c !in ChannelsFor(h1, u)
  {
    forall x ensures x in ChannelsFor(h1, u) <==> x in ChannelsFor(h2, u) {
      if x != c {
        SightAlike(h1, h2, c, u, x);
      }
    }
  }

  ghost predicate SameOutcome(o1: Outcome, o2: Outcome, c: int) {
    o1.reply == o2.reply && Alike(o1.hub, o2.hub, c)
  }

  lemma ChanSet(h1: Hub, h2: Hub, c: int, x: int, ch: Chan)
    requires Alike(h1, h2, c)
    ensures Alike(h1.(chans := h1.chans[x := ch]), h2.(chans := h2.chans[x := ch]), c)
  {
  }

  lemma UnsubSet(h1: Hub, h2: Hub, c: int, u: int, x: int)
    requires Alike(h1, h2, c)
    ensures Alike(h1.(sessions := UnsubUser(h1.sessions, u, x)), h2.(sessions := UnsubUser(h2.sessions, u, x)), c)
  {
    forall s | s in h1.sessions
      ensures AlikeSession(UnsubUser(h1.sessions, u, x)[s], UnsubUser(h2.sessions, u, x)[s], c)
    {
      assert AlikeSession(h1.sessions[s], h2.sessions[s], c);
      assert h1.sessions[s].subs - {x} - {c} == h1.sessions[s].subs - {c} - {x};
      assert h2.sessions[s].subs - {x} - {c} == h2.sessions[s].subs - {c} - {x};
    }
  }

  lemma DeleteAlike(h1: Hub, h2: Hub, c: int, x: int)
    requires Alike(h1, h2, c)
    ensures Alike(DeleteChannel(h1, x), DeleteChannel(h2, x), c)
  {
    var a, b := DeleteChannel(h1, x), DeleteChannel(h2, x);
    forall s | s in h1.sessions ensures AlikeSession(a.sessions[s], b.sessions[s], c) {
      assert AlikeSession(h1.sessions[s], h2.sessions[s], c);
      assert h1.sessions[s].subs - {x} - {c} == h1.sessions[s].subs - {c} - {x};
      assert h2.sessions[s].subs - {x} - {c} == h2.sessions[s].subs - {c} - {x};
    }
  }

  lemma ExpelAlike(h1: Hub, h2: Hub, c: int, u: int, x: int, t: int, ban: Option<int>)
    requires Alike(h1, h2, c) && x != c && x in h1.chans
    ensures SameOutcome(Expel(h1, u, x, t, ban), Expel(h2, u, x, t, ban), c)
  {
    SightAlike(h1, h2, c, u, x);
    SightAlike(h1, h2, c, t, x);
    if TargetRefusal(h1, u, x, t).None? {
      var ch := Expel(h1, u, x, t, ban).hub.chans[x];
      ChanSet(h1, h2, c, x, ch);
      UnsubSet(h1.(chans := h1.chans[x := ch]), h2.(chans := h2.chans[x := ch]), c, t, x);
    }
  }

  lemma LeaveAlike(h1: Hub, h2: Hub, c: int, u: int, x: int)
    requires Alike(h1, h2, c) && x != c && x in h1.chans
    ensures SameOutcome(LeaveChan(h1, u, x), LeaveChan(h2, u, x), c)
  {
    if LeaveChan(h1, u, x).reply == Done {
      var ch := LeaveChan(h1, u, x).hub.chans[x];
      ChanSet(h1, h2, c, x, ch);
      UnsubSet(WithoutMember(h1, x, u), WithoutMember(h2, x, u), c, u, x);
    }
  }

  lemma RoleAlike(h1: Hub, h2: Hub, c: int, u: int, x: int, t: int, role: Option<Role>)
    requires Alike(h1, h2, c) && x != c && x in h1.chans
    ensures SameOutcome(ChangeRole(h1, u, x, t, role), ChangeRole(h2, u, x, t, role), c)
  {
    SightAlike(h1, h2, c, u, x);
    SightAlike(h1, h2, c, t, x);
    if ChangeRole(h1, u, x, t, role).reply == Done {
      ChanSet(h1, h2, c, x, ChangeRole(h1, u, x, t, role).hub.chans[x]);
    }
  }

  lemma TransferAlike(h1: Hub, h2: Hub, c: int, u: int, x: int, t: int)
    requires Alike(h1, h2, c) && x != c && x in h1.chans
    ensures SameOutcome(TransferTo(h1, u, x, t), TransferTo(h2, u, x, t), c)
  {
    if TransferTo(h1, u, x, t).reply == Done {
      ChanSet(h1, h2, c, x, TransferTo(h1, u, x, t).hub.chans[x]);
    }
  }

  lemma AddAlike(h1: Hub, h2: Hub, c: int, x: int, t: int)
    requires Alike(h1, h2, c) && x != c && x in h1.chans
    ensures SameOutcome(AddTo(h1, x, t), AddTo(h2, x, t), c)
  {
    ChanSet(h1, h2, c, x, h1.chans[x].(members := h1.chans[x].members[t := Member]));
  }

  lemma InviteAlike(h1: Hub, h2: Hub, c: int, u: int, x: int, k: ChanCmd)
    requires Alike(h1, h2, c) && x != c && x in h1.chans && k.NewInvite?
    ensures SameOutcome(MakeInviteFor(h1, u, x, k), MakeInviteFor(h2, u, x, k), c)
  {
    SightAlike(h1, h2, c, u, x);
  }

  lemma RevokeAlike(h1: Hub, h2: Hub, c: int, u: int, x: int, code: int)
    requires Alike(h1, h2, c) && x != c && x in h1.chans
    ensures SameOutcome(RevokeInvite(h1, u, x, code), RevokeInvite(h2, u, x, code), c)
  {
    SightAlike(h1, h2, c, u, x);
  }

  /** A command on another channel is answered the same and changes the same. */
  lemma OtherChannelAlike(h1: Hub, h2: Hub, c: int, u: int, x: int, k: ChanCmd)
    requires Alike(h1, h2, c) && x != c
    ensures SameOutcome(OnChan(h1, u, x, k), OnChan(h2, u, x, k), c)
  {
    SightAlike(h1, h2, c, u, x);
    if ChanRefusal(h1, u, x, ActionOf(k)).None? {
      match k
      case Delete(_) => DeleteAlike(h1, h2, c, x);
      case NewInvite(_, _, _, _, _, _) => InviteAlike(h1, h2, c, u, x, k);
      case Revoke(code) => RevokeAlike(h1, h2, c, u, x, code);
      case Leave => LeaveAlike(h1, h2, c, u, x);
      case Add(t) => AddAlike(h1, h2, c, x, t);
      case Kick(t) => ExpelAlike(h1, h2, c, u, x, t, None);
      case Ban(t, until) => ExpelAlike(h1, h2, c, u, x, t, Some(until));
      case Unban(t) => ChanSet(h1, h2, c, x, h1.chans[x].(bans := h1.chans[x].bans - {t}));
      case GiveRole(t, role) => RoleAlike(h1, h2, c, u, x, t, role);
      case Transfer(t) => TransferAlike(h1, h2, c, u, x, t);
      case _ =>
    }
  }

  lemma FramesAlike(h1: Hub, h2: Hub, c: int, u: int, f: Frame)
    requires Alike(h1, h2, c) && HiddenFrom(h1, u, c) && HiddenFrom(h2, u, c)
    ensures AnswerTo(h1, u, f) == AnswerTo(h2, u, f)
    ensures f.c == c ==> AnswerTo(h1, u, f) == if f.MsgTo? || f.Who? then Some(Refused(NoChan)) else None
  {
    if f.c != c {
      SightAlike(h1, h2, c, u, f.c);
      forall s | s in h1.sessions ensures f.c in h1.sessions[s].subs <==> f.c in h2.sessions[s].subs {
        assert AlikeSession(h1.sessions[s], h2.sessions[s], c);
        assert f.c in h1.sessions[s].subs - {c} <==> f.c in h2.sessions[s].subs - {c};
      }
      OnlineAlike(h1, h2, f.c);
    }
  }

  lemma OnlineAlike(h1: Hub, h2: Hub, x: int)
    requires forall s :: s in h1.sessions <==> s in h2.sessions
    requires forall s :: s in h1.sessions ==>
             h1.sessions[s].user == h2.sessions[s].user && (x in h1.sessions[s].subs <==> x in h2.sessions[s].subs)
    ensures OnlineIn(h1, x) == OnlineIn(h2, x)
  {
    forall v ensures v in OnlineIn(h1, x) <==> v in OnlineIn(h2, x) {
      if v in OnlineIn(h1, x) {
        var s :| s in h1.sessions && x in h1.sessions[s].subs && h1.sessions[s].user == v;
        assert s in h2.sessions;
      }
      if v in OnlineIn(h2, x) {
        var s :| s in h2.sessions && x in h2.sessions[s].subs && h2.sessions[s].user == v;
        assert s in h1.sessions;
      }
    }
  }

  lemma SubAlike(h1: Hub, h2: Hub, c: int, s: int, x: int)
    requires Alike(h1, h2, c) && s in h1.sessions && HiddenFrom(h1, h1.sessions[s].user, c) &&
             HiddenFrom(h2, h1.sessions[s].user, c)
    ensures AlikeSession(h1.sessions[s], h2.sessions[s], c)
    ensures SameOutcome(Sub(h1, s, x), Sub(h2, s, x), c)
    ensures x == c ==> Sub(h1, s, x) == Outcome(h1, Refused(NoChan))
  {
    assert AlikeSession(h1.sessions[s], h2.sessions[s], c);
    if x != c {
      SightAlike(h1, h2, c, h1.sessions[s].user, x);
      assert h1.sessions[s].subs + {x} - {c} == h1.sessions[s].subs - {c} + {x};
      assert h2.sessions[s].subs + {x} - {c} == h2.sessions[s].subs - {c} + {x};
    }
  }

  /** Everything the account can send except `create` and `join`, whose answers do depend on every channel. */
  predicate Asks(k: Cmd) { !k.Create? && !k.Join? }

  predicate AboutMe(k: Cmd) { k.Passwd? || k.Logout? }

  lemma LogOutAlike(h1: Hub, h2: Hub, c: int, s: int, all: bool)
    requires Alike(h1, h2, c) && s in h1.sessions && s in h2.sessions
    ensures Alike(LogOut(h1, s, all), LogOut(h2, s, all), c)
  {
    assert AlikeSession(h1.sessions[s], h2.sessions[s], c);
    assert LogOut(h1, s, all).saved == LogOut(h2, s, all).saved;
  }

  lemma PasswdAlike(h1: Hub, h2: Hub, c: int, users: map<int, Account>)
    requires Alike(h1, h2, c)
    ensures Alike(h1.(users := users), h2.(users := users), c)
  {
  }

  lemma AboutMeAlike(h1: Hub, h2: Hub, c: int, s: int, k: Cmd, now: int)
    requires Alike(h1, h2, c) && Attached(h1, s) && Attached(h2, s) && AboutMe(k)
    ensures SameOutcome(HandleCmd(h1, s, k, now), HandleCmd(h2, s, k, now), c)
  {
    assert AlikeSession(h1.sessions[s], h2.sessions[s], c);
    var u := h1.sessions[s].user;
    if !h1.sessions[s].guest {
      if k.Logout? {
        LogOutAlike(h1, h2, c, s, k.all);
      } else if k.oldOk {
        PasswdAlike(h1, h2, c, h1.users[u := h1.users[u].(pass := k.pass)]);
      }
    }
  }

  /** Everything else is for server staff. */
  lemma StaffOnly(h: Hub, s: int, k: Cmd, now: int)
    requires Attached(h, s) && !h.Staff(h.sessions[s].user) && Asks(k) && !k.OnChannel? && !k.Channels? && !AboutMe(k)
    ensures HandleCmd(h, s, k, now) == No(h, if h.sessions[s].guest then GuestsCannot else Perm)
  {
  }

  lemma OwnAccountAlike(h1: Hub, h2: Hub, c: int, s: int, k: Cmd, now: int)
    requires Alike(h1, h2, c) && Attached(h1, s) && Attached(h2, s)
    requires !h1.Staff(h1.sessions[s].user) && Asks(k) && !k.OnChannel? && !k.Channels?
    ensures SameOutcome(HandleCmd(h1, s, k, now), HandleCmd(h2, s, k, now), c)
  {
    assert AlikeSession(h1.sessions[s], h2.sessions[s], c);
    if AboutMe(k) {
      AboutMeAlike(h1, h2, c, s, k, now);
    } else {
      StaffOnly(h1, s, k, now);
      StaffOnly(h2, s, k, now);
    }
  }

  lemma CmdAlike(h1: Hub, h2: Hub, c: int, s: int, k: Cmd, now: int)
    requires Alike(h1, h2, c) && Attached(h1, s) && Attached(h2, s)
    requires HiddenFrom(h1, h1.sessions[s].user, c) && HiddenFrom(h2, h1.sessions[s].user, c) && Asks(k)
    ensures SameOutcome(HandleCmd(h1, s, k, now), HandleCmd(h2, s, k, now), c)
  {
    var u := h1.sessions[s].user;
    assert AlikeSession(h1.sessions[s], h2.sessions[s], c);
    if k.OnChannel? {
      if k.c == c {
        assert OnChan(h1, u, c, k.k) == Outcome(h1, Refused(NoChan));
        assert OnChan(h2, u, c, k.k) == Outcome(h2, Refused(NoChan));
      } else {
        OtherChannelAlike(h1, h2, c, u, k.c, k.k);
      }
    } else if k.Channels? {
      ListsAlike(h1, h2, c, u);
    } else {
      OwnAccountAlike(h1, h2, c, s, k, now);
    }
  }

  // ---- what others do inside ----------------------------------------------------------------------------

  lemma InsideChan(h: Hub, c: int, ch: Chan)
    ensures Alike(h, h.(chans := h.chans[c := ch]), c)
  {
  }

  lemma InsideUnsub(h: Hub, c: int, ch: Chan, u: int)
    ensures Alike(h, h.(chans := h.chans[c := ch], sessions := UnsubUser(h.sessions, u, c)), c)
  {
    forall s | s in h.sessions ensures AlikeSession(h.sessions[s], UnsubUser(h.sessions, u, c)[s], c) {
      assert h.sessions[s].subs - {c} - {c} == h.sessions[s].subs - {c};
    }
  }

  lemma InsideDelete(h: Hub, c: int)
    ensures Alike(h, DeleteChannel(h, c), c)
  {
    forall s | s in h.sessions ensures AlikeSession(h.sessions[s], DeleteChannel(h, c).sessions[s], c) {
      assert h.sessions[s].subs - {c} - {c} == h.sessions[s].subs - {c};
    }
  }

  lemma InsideInvite(h: Hub, a: int, c: int, k: ChanCmd)
    requires c in h.chans && k.NewInvite? && k.code !in h.invites
    ensures Alike(h, MakeInviteFor(h, a, c, k).hub, c)
  {
  }

  lemma InsideRevoke(h: Hub, a: int, c: int, code: int)
    requires c in h.chans
    ensures Alike(h, RevokeInvite(h, a, c, code).hub, c)
  {
  }

  lemma InsideExpel(h: Hub, a: int, c: int, t: int, ban: Option<int>)
    requires c in h.chans
    ensures Alike(h, Expel(h, a, c, t, ban).hub, c)
  {
    if TargetRefusal(h, a, c, t).None? {
      InsideUnsub(h, c, Expel(h, a, c, t, ban).hub.chans[c], t);
    }
  }

  lemma InsideLeave(h: Hub, a: int, c: int)
    requires c in h.chans
    ensures Alike(h, LeaveChan(h, a, c).hub, c)
  {
    InsideUnsub(h, c, h.chans[c].(members := h.chans[c].members - {a}), a);
  }

  lemma InsideRoles(h: Hub, a: int, c: int, t: int, role: Option<Role>)
    requires c in h.chans
    ensures Alike(h, AddTo(h, c, t).hub, c) && Alike(h, ChangeRole(h, a, c, t, role).hub, c)
  {
    InsideChan(h, c, h.chans[c].(members := h.chans[c].members[t := Member]));
    if role.Some? {
      InsideChan(h, c, h.chans[c].(members := h.chans[c].members[t := role.value]));
    }
  }

  lemma InsideTransfer(h: Hub, a: int, c: int, t: int)
    requires c in h.chans
    ensures Alike(h, TransferTo(h, a, c, t).hub, c)
  {
    InsideChan(h, c, TransferTo(h, a, c, t).hub.chans[c]);
  }

  /** Whatever anybody does in a channel stays in it. */
  lemma InsideStaysInside(h: Hub, a: int, c: int, k: ChanCmd)
    requires k.NewInvite? ==> k.code !in h.invites
    ensures Alike(h, OnChan(h, a, c, k).hub, c)
  {
    if ChanRefusal(h, a, c, ActionOf(k)).None? {
      match k
      case Delete(_) => InsideDelete(h, c);
      case NewInvite(_, _, _, _, _, _) => InsideInvite(h, a, c, k);
      case Revoke(code) => InsideRevoke(h, a, c, code);
      case Leave => InsideLeave(h, a, c);
      case Add(t) => InsideRoles(h, a, c, t, None);
      case Kick(t) => InsideExpel(h, a, c, t, None);
      case Ban(t, until) => InsideExpel(h, a, c, t, Some(until));
      case Unban(t) => InsideChan(h, c, h.chans[c].(bans := h.chans[c].bans - {t}));
      case GiveRole(t, role) => InsideRoles(h, a, c, t, role);
      case Transfer(t) => InsideTransfer(h, a, c, t);
      case _ => assert OnChan(h, a, c, k).hub == h;
    }
  }

  // ---- whole conversations -------------------------------------------------------------------------------

  datatype Talk =
    | Cmds(k: Cmd, now: int)
    | Frames(f: Frame)
    | Subs(x: int)
    | Unsubs(x: int)
    | Inside(a: int, ck: ChanCmd)            // somebody does something in the hidden channel
    | Outside(a: int, y: int, ok: ChanCmd)   // or in any other one

  function Unsubbed(h: Hub, s: int, x: int): Hub
    requires s in h.sessions
  {
    h.(sessions := h.sessions[s := h.sessions[s].(subs := h.sessions[s].subs - {x})])
  }

  /** One exchange of session `s`. Where the channel does not exist nothing happens inside it. */
  function Next(h: Hub, s: int, c: int, t: Talk): Hub
    requires Attached(h, s)
  {
    match t
    case Cmds(k, now) => HandleCmd(h, s, k, now).hub
    case Frames(_) => h
    case Subs(x) => Sub(h, s, x).hub
    case Unsubs(x) => Unsubbed(h, s, x)
    case Inside(a, ck) => if c in h.chans then OnChan(h, a, c, ck).hub else h
    case Outside(a, y, ck) => if y != c then OnChan(h, a, y, ck).hub else h
  }

  function Hears(h: Hub, s: int, t: Talk): Option<Reply>
    requires Attached(h, s)
  {
    match t
    case Cmds(k, now) => Some(HandleCmd(h, s, k, now).reply)
    case Frames(f) => AnswerTo(h, h.sessions[s].user, f)
    case Subs(x) => Some(Sub(h, s, x).reply)
    case _ => None
  }

  /** The channel is hidden from the session's account at every point of the conversation. */
  ghost predicate StaysHidden(h: Hub, s: int, c: int, ts: seq<Talk>)
    decreases |ts|
  {
    && Attached(h, s) && HiddenFrom(h, h.sessions[s].user, c)
    && (ts != [] ==>
      && (ts[0].Cmds? ==> Asks(ts[0].k))
      && (ts[0].Inside? && ts[0].ck.NewInvite? && c in h.chans ==> ts[0].ck.code !in h.invites)
      && StaysHidden(Next(h, s, c, ts[0]), s, c, ts[1..]))
  }

  function Conversation(h: Hub, s: int, c: int, ts: seq<Talk>): seq<Option<Reply>>
    requires StaysHidden(h, s, c, ts)
    decreases |ts|
  {
    if ts == [] then [] else [Hears(h, s, ts[0])] + Conversation(Next(h, s, c, ts[0]), s, c, ts[1..])
  }

  lemma AlikeTrans(h1: Hub, h2: Hub, h3: Hub, c: int)
    requires Alike(h2, h1, c) && Alike(h2, h3, c)
    ensures Alike(h1, h3, c)
  {
  }

  lemma UnsubAlike(h1: Hub, h2: Hub, c: int, s: int, x: int)
    requires Alike(h1, h2, c) && s in h1.sessions
    ensures Alike(Unsubbed(h1, s, x), Unsubbed(h2, s, x), c)
  {
    assert AlikeSession(h1.sessions[s], h2.sessions[s], c);
    assert h1.sessions[s].subs - {x} - {c} == h1.sessions[s].subs - {c} - {x};
    assert h2.sessions[s].subs - {x} - {c} == h2.sessions[s].subs - {c} - {x};
  }

  lemma TalkAlike(h1: Hub, h2: Hub, s: int, c: int, t: Talk)
    requires Alike(h1, h2, c) && Attached(h1, s) && Attached(h2, s) && c !in h2.chans
    requires HiddenFrom(h1, h1.sessions[s].user, c) && HiddenFrom(h2, h1.sessions[s].user, c)
    requires (t.Cmds? ==> Asks(t.k)) && (t.Inside? && t.ck.NewInvite? && c in h1.chans ==> t.ck.code !in h1.invites)
    ensures Hears(h1, s, t) == Hears(h2, s, t) && Alike(Next(h1, s, c, t), Next(h2, s, c, t), c)
  {
    assert AlikeSession(h1.sessions[s], h2.sessions[s], c);
    match t
    case Cmds(k, now) => CmdAlike(h1, h2, c, s, k, now);
    case Frames(f) => FramesAlike(h1, h2, c, h1.sessions[s].user, f);
    case Subs(x) => SubAlike(h1, h2, c, s, x);
    case Unsubs(x) => UnsubAlike(h1, h2, c, s, x);
    case Inside(a, ck) =>
      if c in h1.chans {
        InsideStaysInside(h1, a, c, ck);
      }
      AlikeTrans(Next(h1, s, c, t), h1, h2, c);
    case Outside(a, y, ck) => if y != c { OtherChannelAlike(h1, h2, c, a, y, ck); }
  }

  lemma NothingCreated(h: Hub, s: int, c: int, t: Talk)
    requires Attached(h, s) && c !in h.chans && !h.Staff(h.sessions[s].user) && (t.Cmds? ==> Asks(t.k))
    ensures c !in Next(h, s, c, t).chans
  {
    if t.Cmds? && t.k.OnChannel? {
      NotCreatedBy(h, h.sessions[s].user, t.k.c, t.k.k, c);
    } else if t.Outside? {
      NotCreatedBy(h, t.a, t.y, t.ok, c);
    }
  }

  lemma NotCreatedBy(h: Hub, u: int, x: int, k: ChanCmd, c: int)
    requires c !in h.chans
    ensures c !in OnChan(h, u, x, k).hub.chans
  {
    match k
    case Leave =>
    case Add(_) =>
    case Kick(_) =>
    case Ban(_, _) =>
    case GiveRole(_, _) =>
    case Transfer(_) =>
    case _ =>
  }

  /** An account that cannot see `c` gets, in every conversation, the answers it would get if `c` did not
      exist, whatever the others do in `c` and in every other channel meanwhile. */
  lemma {:induction false} HiddenEqualsAbsent(h1: Hub, h2: Hub, s: int, c: int, ts: seq<Talk>)
    requires Alike(h1, h2, c) && c !in h2.chans && Attached(h2, s) && StaysHidden(h1, s, c, ts)
    ensures StaysHidden(h2, s, c, ts) && Conversation(h1, s, c, ts) == Conversation(h2, s, c, ts)
    decreases |ts|
  {
    assert AlikeSession(h1.sessions[s], h2.sessions[s], c);
    if ts != [] {
      var t := ts[0];
      TalkAlike(h1, h2, s, c, t);
      NothingCreated(h2, s, c, t);
      StaysAttached(h2, s, c, t);
      HiddenEqualsAbsent(Next(h1, s, c, t), Next(h2, s, c, t), s, c, ts[1..]);
    }
  }

  lemma StaysAttached(h: Hub, s: int, c: int, t: Talk)
    requires Attached(h, s) && !h.Staff(h.sessions[s].user) && c !in h.chans && (t.Cmds? ==> Asks(t.k))
    ensures Attached(Next(h, s, c, t), s)
  {
    if t.Cmds? && t.k.OnChannel? {
      OnChanAttached(h, h.sessions[s].user, t.k.c, t.k.k, s);
    } else if t.Outside? {
      OnChanAttached(h, t.a, t.y, t.ok, s);
    }
  }

  lemma OnChanAttached(h: Hub, u: int, x: int, k: ChanCmd, s: int)
    requires Attached(h, s)
    ensures Attached(OnChan(h, u, x, k).hub, s)
  {
    match k
    case Delete(_) =>
    case Leave =>
    case Kick(_) =>
    case Ban(_, _) =>
    case _ =>
  }

  /** In the state with the channel removed, its invites and its subscriptions with it, every conversation
      of an account that cannot see the channel goes the same way. */
  lemma HiddenEqualsRemoved(h: Hub, s: int, c: int, ts: seq<Talk>)
    requires StaysHidden(h, s, c, ts)
    ensures StaysHidden(Without(h, c), s, c, ts) && Conversation(h, s, c, ts) == Conversation(Without(h, c), s, c, ts)
  {
    WithoutAlike(h, c);
    HiddenEqualsAbsent(h, Without(h, c), s, c, ts);
  }
}
