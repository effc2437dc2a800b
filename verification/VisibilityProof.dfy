/** Who is subscribed sees the channel, and a hidden channel might as well not exist. */
module VisibilityProof {
  import opened Util
  import opened Perms
  import opened Access
  import opened MembershipProof

  // ---- subscribed implies visible -----------------------------------------------------------------

  ghost predicate SeesAll(h: Hub, s: int)
    requires s in h.sessions
  {
    forall c :: c in h.sessions[s].subs ==> h.Sees(h.sessions[s].user, c)
  }

  /** Every session sees every channel it is subscribed to. */
  ghost predicate Visible(h: Hub) {
    forall s :: s in h.sessions ==> SeesAll(h, s)
  }

  /** Nobody who saw a channel in `h` has lost sight of it in `h'`. */
  ghost predicate KeepsSight(h: Hub, h': Hub) {
    forall u, c :: h.Sees(u, c) ==> h'.Sees(u, c)
  }

  lemma SightKept(h: Hub, h': Hub)
    requires Visible(h) && KeepsSight(h, h')
    requires forall s :: s in h'.sessions ==>
             s in h.sessions && h'.sessions[s].user == h.sessions[s].user && h'.sessions[s].subs <= h.sessions[s].subs
    ensures Visible(h')
  {
    forall s, c | s in h'.sessions && c in h'.sessions[s].subs ensures h'.Sees(h'.sessions[s].user, c) {
      assert SeesAll(h, s);
    }
  }

  /** `u` leaves `c`; everybody else keeps sight of everything. */
  lemma GoneVisible(h: Hub, h': Hub, u: int, c: int)
    requires Visible(h) && h'.sessions == UnsubUser(h.sessions, u, c)
    requires forall v, x :: h.Sees(v, x) && (v != u || x != c) ==> h'.Sees(v, x)
    ensures Visible(h')
  {
    forall s, x | s in h'.sessions && x in h'.sessions[s].subs ensures h'.Sees(h'.sessions[s].user, x) {
      assert SeesAll(h, s);
    }
  }

  lemma ExpelVisible(h: Hub, u: int, c: int, t: int, ban: Option<int>)
    requires Sane(h) && Visible(h) && c in h.chans
    ensures Visible(Expel(h, u, c, t, ban).hub)
  {
    if TargetRefusal(h, u, c, t).None? {
      GoneVisible(h, Expel(h, u, c, t, ban).hub, t, c);
    }
  }

  lemma LeaveVisible(h: Hub, u: int, c: int)
    requires Sane(h) && Visible(h) && c in h.chans
    ensures Visible(LeaveChan(h, u, c).hub)
  {
    if LeaveChan(h, u, c).reply == Done {
      GoneVisible(h, LeaveChan(h, u, c).hub, u, c);
    }
  }

  lemma DeleteVisible(h: Hub, c: int)
    requires Visible(h)
    ensures Visible(DeleteChannel(h, c))
  {
    var h' := DeleteChannel(h, c);
    forall s, x | s in h'.sessions && x in h'.sessions[s].subs ensures h'.Sees(h'.sessions[s].user, x) {
      assert SeesAll(h, s);
    }
  }

  lemma MemberSight(h: Hub, c: int, ms: map<int, Role>)
    requires c in h.chans && h.chans[c].members.Keys <= ms.Keys
    ensures KeepsSight(h, h.(chans := h.chans[c := h.chans[c].(members := ms)]))
  {
    forall u, x | h.Sees(u, x) ensures h.(chans := h.chans[c := h.chans[c].(members := ms)]).Sees(u, x) {
      assert u in h.chans[c].members ==> u in h.chans[c].members.Keys;
    }
  }

  lemma MemberVisible(h: Hub, c: int, ms: map<int, Role>)
    requires Visible(h) && c in h.chans && h.chans[c].members.Keys <= ms.Keys
    ensures Visible(h.(chans := h.chans[c := h.chans[c].(members := ms)]))
  {
    MemberSight(h, c, ms);
    SightKept(h, h.(chans := h.chans[c := h.chans[c].(members := ms)]));
  }

  lemma TransferVisible(h: Hub, u: int, c: int, t: int)
    requires Visible(h) && c in h.chans
    ensures Visible(TransferTo(h, u, c, t).hub)
  {
    if TransferTo(h, u, c, t).reply == Done {
      MemberVisible(h, c, TransferTo(h, u, c, t).hub.chans[c].members);
    }
  }

  lemma SameSight(h: Hub, h': Hub)
    requires Visible(h) && h'.users == h.users && h'.sessions == h.sessions
    requires forall c :: c in h.chans ==>
             c in h'.chans && h'.chans[c].members == h.chans[c].members && h'.chans[c].isDefault == h.chans[c].isDefault
    ensures Visible(h')
  {
    SightKept(h, h');
  }

  predicate NoSightLost(k: ChanCmd) { k.Topic? || k.NewInvite? || k.Invites? || k.Revoke? || k.MemberList? }

  lemma QuietSame(h: Hub, u: int, c: int, k: ChanCmd)
    requires NoSightLost(k)
    ensures var h' := OnChan(h, u, c, k).hub;
            h'.chans == h.chans && h'.users == h.users && h'.sessions == h.sessions
  {
    match k
    case NewInvite(_, _, _, _, _, _) =>
    case Revoke(_) =>
    case _ =>
  }

  lemma UnbanVisible(h: Hub, c: int, t: int)
    requires Visible(h) && c in h.chans
    ensures Visible(h.(chans := h.chans[c := h.chans[c].(bans := h.chans[c].bans - {t})]))
  {
    SameSight(h, h.(chans := h.chans[c := h.chans[c].(bans := h.chans[c].bans - {t})]));
  }

  lemma OnChanVisible(h: Hub, u: int, c: int, k: ChanCmd)
    requires Sane(h) && Visible(h)
    ensures Visible(OnChan(h, u, c, k).hub)
  {
    if NoSightLost(k) {
      QuietSame(h, u, c, k);
      SameSight(h, OnChan(h, u, c, k).hub);
    } else if ChanRefusal(h, u, c, ActionOf(k)).None? {
      match k
      case Delete(_) => DeleteVisible(h, c);
      case Leave => LeaveVisible(h, u, c);
      case Add(t) => MemberVisible(h, c, h.chans[c].members[t := Member]);
      case Kick(t) => ExpelVisible(h, u, c, t, None);
      case Ban(t, until) => ExpelVisible(h, u, c, t, Some(until));
      case GiveRole(t, role) => if role.Some? { MemberVisible(h, c, h.chans[c].members[t := role.value]); }
      case Transfer(t) => TransferVisible(h, u, c, t);
      case Unban(t) => UnbanVisible(h, c, t);
    }
  }

  // ---- the three ways out, and exactly when they are ----------------------------------------------------

  /** A hello puts a client below version 2 into the default channel unasked. It is the one subscription
      that is not checked: the session sees what it subscribes to exactly when the account does. */
  lemma GreetedVisible(h: Hub, s: int, v1: bool)
    requires Sane(h) && Visible(h) && s in h.sessions
    ensures Visible(Greeted(h, s, v1)) <==> !(v1 && !h.Sees(h.sessions[s].user, h.def))
  {
    var h' := Greeted(h, s, v1);
    if v1 {
      assert h.def in h'.sessions[s].subs;
      forall x, c | x in h'.sessions && c in h'.sessions[x].subs && (x != s || c != h.def)
        ensures h'.Sees(h'.sessions[x].user, c)
      {
        assert SeesAll(h, x);
      }
      assert h'.Sees(h'.sessions[s].user, h.def) <==> h.Sees(h.sessions[s].user, h.def);
    }
  }

  /** Moving the default channel takes it from the guests who are in another channel, and from them only. */
  lemma DefaultMoveVisible(h: Hub, c: int)
    requires Sane(h) && Visible(h) && c in h.chans
    ensures Visible(MoveDefault(h, c)) <==>
            forall s :: s in h.sessions && h.sessions[s].guest ==> h.sessions[s].subs <= {c}
  {
    var h' := MoveDefault(h, c);
    forall s, x | s in h.sessions && x in h.sessions[s].subs
      ensures h'.Sees(h.sessions[s].user, x) <==> (h.sessions[s].guest ==> x == c)
    {
      MovedSight(h, c, s, x);
    }
    if forall s :: s in h.sessions && h.sessions[s].guest ==> h.sessions[s].subs <= {c} {
      forall s, x | s in h'.sessions && x in h'.sessions[s].subs ensures h'.Sees(h'.sessions[s].user, x) {
        assert s in h.sessions;
      }
    } else {
      var s :| s in h.sessions && h.sessions[s].guest && !(h.sessions[s].subs <= {c});
      var x := Pick(h.sessions[s].subs - {c});
      assert !h'.Sees(h'.sessions[s].user, x);
      assert !SeesAll(h', s);
    }
  }

  lemma MovedSight(h: Hub, c: int, s: int, x: int)
    requires Sane(h) && Visible(h) && c in h.chans && s in h.sessions && x in h.sessions[s].subs
    ensures MoveDefault(h, c).Sees(h.sessions[s].user, x) <==> (h.sessions[s].guest ==> x == c)
  {
    assert SeesAll(h, s);
    assert h.Sees(h.sessions[s].user, x);
    assert h.sessions[s].guest <==> h.sessions[s].user !in h.users;
  }

  /** A server admin who becomes an ordinary account keeps the subscriptions to channels it is no member
      of, and nothing else goes wrong. */
  lemma DemotionVisible(h: Hub, t: int)
    requires Sane(h) && Visible(h) && t in h.users && h.users[t].role == ServerAdmin
    ensures Visible(h.(users := h.users[t := h.users[t].(role := User)])) <==>
            forall s, c :: s in h.sessions && h.sessions[s].user == t && c in h.sessions[s].subs ==>
              t in h.chans[c].members
  {
    var h' := h.(users := h.users[t := h.users[t].(role := User)]);
    forall s, c | s in h.sessions && c in h.sessions[s].subs
      ensures c in h.chans && (h'.Sees(h'.sessions[s].user, c) <==>
              (h.sessions[s].user == t ==> t in h.chans[c].members))
    {
      assert SeesAll(h, s);
    }
  }

  // ---- over runs ---------------------------------------------------------------------------------------------

  /** What the theorem asks of a step: clients below version 2 are guests, no server role is taken away and
      the default channel stays. */
  predicate Proper(h: Hub, st: Step) {
    match st
    case DoSignUp(_, _, _, _, _, v1, _) => !v1
    case DoLogin(_, _, _, v1, _) => !v1
    case DoCmd(_, k, _) => !k.SetDefault? && (k.UserMod? ==> RoleArg(Some(User)) !in k.args)
    case _ => true
  }

  /** An account that sees everything goes on seeing everything, and roles in channels are not touched. */
  lemma UsersVisible(h: Hub, users: map<int, Account>, saved: map<int, int>)
    requires Sane(h) && Visible(h) && users.Keys == h.users.Keys
    requires forall u :: u in users ==>
             users[u].role != Guest && (ServerRank(h.users[u].role) >= 2 ==> ServerRank(users[u].role) >= 2)
    ensures Visible(h.(users := users, saved := saved))
  {
    var h' := h.(users := users, saved := saved);
    forall u, c | h.Sees(u, c) ensures h'.Sees(u, c) {
      assert u in users <==> u in h.users;
    }
    SightKept(h, h');
  }

  ghost predicate StaffStays(m: Modified, m': Modified) {
    && (forall u :: u in m'.users <==> u in m.users)
    && (forall u :: u in m.users && ServerRank(m.users[u].role) >= 2 ==> ServerRank(m'.users[u].role) >= 2)
    && (NoGuests(m.users) ==> NoGuests(m'.users))
  }

  lemma ModOneStays(m: Modified, u: int, t: int, a: Arg)
    requires u in m.users && t in m.users && a != RoleArg(Some(User))
    ensures StaffStays(m, ModOne(m, u, t, a))
  {
  }

  lemma {:induction false} ModAllStays(m: Modified, u: int, t: int, args: seq<Arg>)
    requires u in m.users && t in m.users && RoleArg(Some(User)) !in args
    ensures StaffStays(m, ModAll(m, u, t, args))
  {
    if args != [] {
      var n := |args| - 1;
      assert args[n] in args && forall a :: a in args[..n] ==> a in args;
      ModAllStays(m, u, t, args[..n]);
      if ModAll(m, u, t, args[..n]).reply == Done {
        ModOneStays(ModAll(m, u, t, args[..n]), u, t, args[n]);
      }
    }
  }

  lemma ModUserVisible(h: Hub, u: int, t: int, args: seq<Arg>)
    requires Sane(h) && Visible(h) && u in h.users && RoleArg(Some(User)) !in args
    ensures Visible(ModUser(h, u, t, args).hub)
  {
    if h.Staff(u) && t in h.users && args != [] {
      var m := ModAll(Modified(h.users, h.saved, Done), u, t, args);
      ModAllStays(Modified(h.users, h.saved, Done), u, t, args);
      assert NoGuests(h.users);
      assert m.users.Keys == h.users.Keys;
      UsersVisible(h, m.users, m.saved);
    }
  }

  lemma RedeemVisible(h: Hub, u: int, code: int)
    requires Visible(h) && code in h.invites && h.invites[code].cid in h.chans
    ensures Visible(Redeem(h, u, code))
  {
    var inv := h.invites[code];
    MemberVisible(h, inv.cid, h.chans[inv.cid].members[u := inv.role]);
    SameSight(WithMember(h, inv.cid, u, inv.role), Redeem(h, u, code));
  }

  lemma JoinVisible(h: Hub, u: int, code: int, now: int)
    requires Sane(h) && Visible(h)
    ensures Visible(JoinWith(h, u, code, now).hub)
  {
    SameSight(h, Pruned(h, code, now));
    var h1 := Pruned(h, code, now);
    if code in h1.invites && h1.invites[code].cid in h1.chans {
      RedeemVisible(h1, u, code);
    }
  }

  lemma NewUserVisible(h: Hub, pass: int)
    requires Sane(h) && Visible(h)
    ensures Visible(NewUser(h, pass))
  {
    var h' := NewUser(h, pass);
    forall s, c | s in h'.sessions && c in h'.sessions[s].subs ensures h'.Sees(h'.sessions[s].user, c) {
      assert SeesAll(h, s);
      assert h.sessions[s].user != h.nextUser;
    }
  }

  lemma InvitedVisible(h: Hub, code: int, pass: int, now: int)
    requires Sane(h) && Visible(h)
    ensures Visible(Invited(h, code, pass, now).hub)
  {
    SameSight(h, Pruned(h, code, now));
    if Invited(h, code, pass, now).reply == Done {
      PrunedSane(h, code, now);
      NewUserVisible(h, pass);
      RedeemVisible(NewUser(h, pass), h.nextUser, code);
    }
  }

  lemma RegisteredVisible(h: Hub, pass: int)
    requires Sane(h) && Visible(h)
    ensures Visible(Registered(h, pass).hub)
  {
    NewUserVisible(h, pass);
    MemberVisible(NewUser(h, pass), h.def, h.chans[h.def].members[h.nextUser := Member]);
  }

  lemma EnrolledVisible(h: Hub, code: Option<int>, taken: bool, pass: int, now: int)
    requires Sane(h) && Visible(h)
    ensures Visible(Enrolled(h, code, taken, pass, now).hub)
  {
    if code.Some? {
      InvitedVisible(h, code.value, pass, now);
    } else {
      RegisteredVisible(h, pass);
    }
  }

  lemma AddUserVisible(h: Hub, u: int, k: Cmd)
    requires Sane(h) && Visible(h) && k.UserAdd?
    ensures Visible(AddUser(h, u, k.goodName, k.taken, k.pass).hub)
  {
    NewUserVisible(h, k.pass);
    MemberVisible(NewUser(h, k.pass), h.def, h.chans[h.def].members[h.nextUser := Member]);
  }

  lemma StatusVisible(h: Hub, t: int, status: Status, saved: map<int, int>, pass: int)
    requires Sane(h) && Visible(h) && t in h.users
    ensures Visible(h.(users := h.users[t := h.users[t].(status := status, pass := pass)], saved := saved))
  {
    var users := h.users[t := h.users[t].(status := status, pass := pass)];
    assert forall u :: u in users <==> u in h.users;
    UsersVisible(h, users, saved);
  }

  predicate OnAccounts(k: Cmd) { k.UserAdd? || k.UserMod? || k.UserBan? || k.UserUnban? || k.Passwd? }

  lemma AccountCmdVisible(h: Hub, s: int, k: Cmd, now: int)
    requires Sane(h) && Visible(h) && Enabled(h, DoCmd(s, k, now)) && Proper(h, DoCmd(s, k, now)) && OnAccounts(k)
    ensures Visible(HandleCmd(h, s, k, now).hub)
  {
    var u := h.sessions[s].user;
    if !h.sessions[s].guest {
      match k
      case UserAdd(_, _, _) => AddUserVisible(h, u, k);
      case UserMod(t, args) => ModUserVisible(h, u, t, args);
      case UserBan(t, until) => if t in h.users { StatusVisible(h, t, Banned(until), h.saved, h.users[t].pass); }
      case UserUnban(t) => if t in h.users { StatusVisible(h, t, Active, h.saved, h.users[t].pass); }
      case Passwd(_, pass) => StatusVisible(h, u, h.users[u].status, h.saved, pass);
    }
  }

  lemma CmdVisible(h: Hub, s: int, k: Cmd, now: int)
    requires Sane(h) && Visible(h) && Enabled(h, DoCmd(s, k, now)) && Proper(h, DoCmd(s, k, now))
    ensures Visible(HandleCmd(h, s, k, now).hub)
  {
    var u := h.sessions[s].user;
    if OnAccounts(k) {
      AccountCmdVisible(h, s, k, now);
    } else if k.OnChannel? {
      OnChanVisible(h, u, k.c, k.k);
    } else if k.Join? {
      JoinVisible(h, u, k.code, now);
    } else if k.Create? {
      CreateVisible(h, u, k);
    } else if k.Logout? {
      SameSight(h, LogOut(h, s, k.all));
    } else {
      SameSight(h, HandleCmd(h, s, k, now).hub);
    }
  }

  lemma CreateVisible(h: Hub, u: int, k: Cmd)
    requires Sane(h) && Visible(h) && k.Create?
    ensures Visible(CreateChannel(h, u, k.name, k.goodName, k.goodExpire).hub)
  {
    SameSight(h, CreateChannel(h, u, k.name, k.goodName, k.goodExpire).hub);
  }

  lemma OpenedVisible(h: Hub, s: int, x: Session, saved: map<int, int>)
    requires Visible(h) && s !in h.sessions && x.subs == {}
    ensures Visible(h.(sessions := h.sessions[s := x], saved := saved))
  {
    var h' := h.(sessions := h.sessions[s := x], saved := saved);
    forall y, c | y in h'.sessions && c in h'.sessions[y].subs ensures h'.Sees(h'.sessions[y].user, c) {
      assert SeesAll(h, y);
    }
  }

  lemma HelloVisible(h: Hub, st: Step)
    requires Sane(h) && Visible(h) && Enabled(h, st) && Proper(h, st) && (st.DoSignUp? || st.DoLogin? || st.DoGuest?)
    ensures Visible(Apply(h, st))
  {
    match st
    case DoSignUp(s, code, taken, pass, token, _, now) =>
      EnrolledVisible(h, code, taken, pass, now);
      var o := Enrolled(h, code, taken, pass, now);
      EnrolledSameSessions(h, code, taken, pass, now);
      if o.reply == Done {
        OpenedVisible(o.hub, s, Session(h.nextUser, false, {}, token), o.hub.saved[token := h.nextUser]);
      }
    case DoLogin(s, u, token, _, now) =>
      StatusVisible(h, u, SweptAccount(h.users[u], now).status, h.saved, h.users[u].pass);
      var h1 := h.(users := h.users[u := SweptAccount(h.users[u], now)]);
      assert h1 == h.(users := h.users[u :=
        h.users[u].(status := SweptAccount(h.users[u], now).status, pass := h.users[u].pass)], saved := h.saved);
      OpenedVisible(h1, s, Session(u, false, {}, token), h.saved[token := u]);
    case DoGuest(s, nick, v1) =>
      OpenedVisible(h, s, Session(nick, true, {}, 0), h.saved);
      var h1 := h.(sessions := h.sessions[s := Session(nick, true, {}, 0)]);
      SessionAdded(h, s, Session(nick, true, {}, 0), h.saved);
      assert h1.Sees(nick, h.def);
      GreetedVisible(h1, s, v1);
  }

  lemma InvitedSameSessions(h: Hub, code: int, pass: int, now: int)
    ensures Invited(h, code, pass, now).hub.sessions == h.sessions
  {
    assert Pruned(h, code, now).sessions == h.sessions;
  }

  lemma EnrolledSameSessions(h: Hub, code: Option<int>, taken: bool, pass: int, now: int)
    ensures Enrolled(h, code, taken, pass, now).hub.sessions == h.sessions
  {
    if code.Some? {
      InvitedSameSessions(h, code.value, pass, now);
    } else {
      assert Registered(h, pass).hub.sessions == h.sessions;
    }
  }

  lemma SweepVisible(h: Hub, now: int)
    requires Sane(h) && Visible(h)
    ensures Visible(Sweep(h, now))
  {
    SightKept(h, Sweep(h, now));
  }

  lemma SubVisible(h: Hub, s: int, c: int)
    requires Visible(h) && s in h.sessions
    ensures Visible(Sub(h, s, c).hub)
  {
    var h' := Sub(h, s, c).hub;
    forall y, x | y in h'.sessions && x in h'.sessions[y].subs ensures h'.Sees(h'.sessions[y].user, x) {
      assert SeesAll(h, y);
    }
  }

  lemma StepVisible(h: Hub, st: Step)
    requires Sane(h) && Visible(h) && Enabled(h, st) && Proper(h, st)
    ensures Visible(Apply(h, st))
  {
    match st
    case DoCmd(s, k, now) => CmdVisible(h, s, k, now);
    case DoSub(s, c) => SubVisible(h, s, c);
    case DoSweep(now) => SweepVisible(h, now);
    case DoBye(s) => SightKept(h, h.(sessions := h.sessions - {s}));
    case DoUnsub(s, c) => SightKept(h,
      h.(sessions := h.sessions[s := h.sessions[s].(subs := h.sessions[s].subs - {c})]));
    case DoEvict(token) => SameSight(h, h.(saved := h.saved - {token}));
    case _ => HelloVisible(h, st);
  }

  ghost predicate RunProper(h: Hub, steps: seq<Step>)
    requires Possible(h, steps)
    decreases |steps|
  {
    steps == [] || (Proper(h, steps[0]) && RunProper(Apply(h, steps[0]), steps[1..]))
  }

  lemma {:induction false} RunVisible(h: Hub, steps: seq<Step>)
    requires Sane(h) && Visible(h) && Possible(h, steps) && RunProper(h, steps)
    ensures Visible(Run(h, steps))
    decreases |steps|
  {
    if steps != [] {
      ApplySane(h, steps[0]);
      StepVisible(h, steps[0]);
      RunVisible(Apply(h, steps[0]), steps[1..]);
    }
  }

  lemma SubscribedSees(h: Hub, s: int, c: int)
    requires Visible(h) && s in h.sessions && c in h.sessions[s].subs
    ensures c in h.chans && h.Rank(h.sessions[s].user, c) >= 1
  {
    assert SeesAll(h, s);
  }

  lemma FirstVisible(pass: int, maxUsers: nat, maxChannels: nat)
    ensures Sane(Init(pass, maxUsers, maxChannels)) && Visible(Init(pass, maxUsers, maxChannels))
  {
  }

  /** Fan-out reaches only sessions that can find the channel. */
  lemma SubscribedImpliesVisible(pass: int, maxUsers: nat, maxChannels: nat, steps: seq<Step>, s: int, c: int)
    requires Possible(Init(pass, maxUsers, maxChannels), steps) && RunProper(Init(pass, maxUsers, maxChannels), steps)
    requires var h := Run(Init(pass, maxUsers, maxChannels), steps); s in h.sessions && c in h.sessions[s].subs
    ensures var h := Run(Init(pass, maxUsers, maxChannels), steps);
            c in h.chans && h.Rank(h.sessions[s].user, c) >= 1
  {
    FirstVisible(pass, maxUsers, maxChannels);
    RunVisible(Init(pass, maxUsers, maxChannels), steps);
    SubscribedSees(Run(Init(pass, maxUsers, maxChannels), steps), s, c);
  }
}
