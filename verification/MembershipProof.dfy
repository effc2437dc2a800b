/** Membership over whole runs: nobody is both member and banned, invites are spent exactly once per
    membership they create, and ranks are granted downwards only. */
module MembershipProof {
  import opened Util
  import opened Perms
  import opened Access

  // ---- the invariant -------------------------------------------------------------------------------

  /** Members and banned accounts exist, and no account is both. */
  ghost predicate ChanOk(ch: Chan, nextUser: int) {
    && (forall u :: u in ch.members ==> 1 <= u < nextUser)
    && (forall u :: u in ch.bans ==> 1 <= u < nextUser)
    && forall u :: u in ch.members ==> u !in ch.bans
  }

  ghost predicate ChansOk(chans: map<int, Chan>, nextUser: int, nextChan: int, def: int) {
    && def in chans
    && (forall c :: c in chans ==> c < nextChan && ChanOk(chans[c], nextUser))
    && forall c :: c in chans ==> (chans[c].isDefault <==> c == def)
  }

  ghost predicate UsersOk(users: map<int, Account>, nextUser: int) {
    && (forall u :: u in users <==> 1 <= u < nextUser)
    && forall u :: u in users ==> users[u].role != Guest
  }

  ghost predicate SessionsOk(ss: map<int, Session>, nextUser: int) {
    forall s :: s in ss ==> if ss[s].guest then ss[s].user < 0 else 1 <= ss[s].user < nextUser
  }

  /** A code that is still open was made by somebody above the role it gives, and what is left of it plus
      the memberships it created is what it began with. */
  ghost predicate InviteOk(inv: Invite, l: Ledger) {
    && inv.role != Owner && RoleRank(inv.role) < l.rank
    && (if l.first < 0 then inv.uses < 0 else inv.uses >= 0 && inv.uses + l.joined == l.first)
  }

  ghost predicate InvitesOk(invites: map<int, Invite>, ledger: map<int, Ledger>) {
    && (forall code :: code in invites ==> code in ledger && InviteOk(invites[code], ledger[code]))
    && forall code :: code in ledger && ledger[code].first >= 0 ==> ledger[code].joined <= ledger[code].first
  }

  ghost predicate Sane(h: Hub) {
    && h.nextUser >= 1 && UsersOk(h.users, h.nextUser) && ChansOk(h.chans, h.nextUser, h.nextChan, h.def)
    && SessionsOk(h.sessions, h.nextUser) && InvitesOk(h.invites, h.ledger)
  }

  // ---- pieces ------------------------------------------------------------------------------------------

  lemma ChanChange(h: Hub, c: int, ch: Chan)
    requires Sane(h) && c in h.chans && ChanOk(ch, h.nextUser) && ch.isDefault == h.chans[c].isDefault
    ensures Sane(h.(chans := h.chans[c := ch]))
  {
  }

  lemma MemberChange(h: Hub, c: int, u: int, r: Role)
    requires Sane(h) && c in h.chans && u in h.users && u !in h.chans[c].bans
    ensures Sane(WithMember(h, c, u, r))
  {
    ChanChange(h, c, h.chans[c].(members := h.chans[c].members[u := r]));
  }

  lemma SessionsChange(h: Hub, ss: map<int, Session>)
    requires Sane(h) && forall s :: s in ss ==>
             s in h.sessions && ss[s].user == h.sessions[s].user && ss[s].guest == h.sessions[s].guest
    ensures Sane(h.(sessions := ss))
  {
  }

  lemma UsersChange(h: Hub, users: map<int, Account>)
    requires Sane(h) && users.Keys == h.users.Keys && forall u :: u in users ==> users[u].role != Guest
    ensures Sane(h.(users := users))
  {
    assert forall u :: u in users <==> u in h.users;
  }

  lemma NewUserSane(h: Hub, pass: int)
    requires Sane(h)
    ensures Sane(NewUser(h, pass))
    ensures forall c :: c in h.chans ==> h.nextUser !in h.chans[c].bans && h.nextUser !in h.chans[c].members
  {
    forall c | c in h.chans ensures h.nextUser !in h.chans[c].bans && h.nextUser !in h.chans[c].members &&
      ChanOk(h.chans[c], h.nextUser + 1) {
      assert ChanOk(h.chans[c], h.nextUser);
    }
  }

  lemma PrunedSane(h: Hub, code: int, now: int)
    requires Sane(h)
    ensures Sane(Pruned(h, code, now))
    ensures code in Pruned(h, code, now).invites ==> Pruned(h, code, now) == h && h.invites[code].uses != 0
  {
  }

  lemma ConsumedSane(h: Hub, code: int)
    requires Sane(h) && code in h.invites && h.invites[code].uses != 0
    ensures Sane(Consumed(h, code))
    ensures code in h.ledger &&
            Consumed(h, code).ledger == h.ledger[code := h.ledger[code].(joined := h.ledger[code].joined + 1)]
  {
    assert InviteOk(h.invites[code], h.ledger[code]);
  }

  // ---- commands on a channel ---------------------------------------------------------------------------

  lemma ExpelSane(h: Hub, u: int, c: int, t: int, ban: Option<int>)
    requires Sane(h) && c in h.chans
    ensures Sane(Expel(h, u, c, t, ban).hub)
  {
    var ch := h.chans[c].(bans := if ban.Some? then h.chans[c].bans[t := ban.value] else h.chans[c].bans,
                          members := h.chans[c].members - {t});
    if TargetRefusal(h, u, c, t).None? {
      assert ChanOk(h.chans[c], h.nextUser);
      ChanChange(h, c, ch);
      SessionsChange(h.(chans := h.chans[c := ch]), UnsubUser(h.sessions, t, c));
    }
  }

  lemma LeaveSane(h: Hub, u: int, c: int)
    requires Sane(h) && c in h.chans
    ensures Sane(LeaveChan(h, u, c).hub)
  {
    ChanChange(h, c, h.chans[c].(members := h.chans[c].members - {u}));
    SessionsChange(WithoutMember(h, c, u), UnsubUser(h.sessions, u, c));
  }

  lemma TransferSane(h: Hub, u: int, c: int, t: int)
    requires Sane(h) && c in h.chans
    ensures Sane(TransferTo(h, u, c, t).hub)
  {
    assert ChanOk(h.chans[c], h.nextUser);
    if TransferTo(h, u, c, t).reply == Done {
      ChanChange(h, c, TransferTo(h, u, c, t).hub.chans[c]);
    }
  }

  lemma RoleSane(h: Hub, u: int, c: int, t: int, role: Option<Role>)
    requires Sane(h) && c in h.chans
    ensures Sane(ChangeRole(h, u, c, t, role).hub)
  {
    assert ChanOk(h.chans[c], h.nextUser);
    if ChangeRole(h, u, c, t, role).reply == Done {
      MemberChange(h, c, t, role.value);
    }
  }

  lemma InviteSane(h: Hub, u: int, c: int, k: ChanCmd)
    requires Sane(h) && c in h.chans && k.NewInvite? && Can(h.Rank(u, c), MakeInvite) && k.code !in h.ledger &&
             k.code !in h.invites
    ensures Sane(MakeInviteFor(h, u, c, k).hub)
  {
  }

  lemma DeleteSane(h: Hub, c: int)
    requires Sane(h) && c in h.chans && !h.chans[c].isDefault
    ensures Sane(DeleteChannel(h, c))
  {
  }

  lemma OnChanSane(h: Hub, u: int, c: int, k: ChanCmd)
    requires Sane(h) && (k.NewInvite? ==> k.code !in h.ledger && k.code !in h.invites)
    ensures Sane(OnChan(h, u, c, k).hub)
  {
    if ChanRefusal(h, u, c, ActionOf(k)).None? {
      match k
      case Delete(confirmed) => if confirmed && !h.chans[c].isDefault { DeleteSane(h, c); }
      case NewInvite(_, _, _, _, _, _) => InviteSane(h, u, c, k);
      case Revoke(code) =>
      case Leave => LeaveSane(h, u, c);
      case Add(t) => if AddTo(h, c, t).hub != h { MemberChange(h, c, t, Member); }
      case Kick(t) => ExpelSane(h, u, c, t, None);
      case Ban(t, until) => ExpelSane(h, u, c, t, Some(until));
      case Unban(t) => ChanChange(h, c, h.chans[c].(bans := h.chans[c].bans - {t}));
      case GiveRole(t, role) => RoleSane(h, u, c, t, role);
      case Transfer(t) => TransferSane(h, u, c, t);
      case _ =>
    }
  }

  // ---- other commands --------------------------------------------------------------------------------------

  lemma RedeemSane(h: Hub, u: int, code: int)
    requires Sane(h) && code in h.invites && h.invites[code].uses != 0 && u in h.users
    requires h.invites[code].cid in h.chans && u !in h.chans[h.invites[code].cid].bans
    ensures Sane(Redeem(h, u, code))
  {
    var inv := h.invites[code];
    MemberChange(h, inv.cid, u, inv.role);
    ConsumedSane(WithMember(h, inv.cid, u, inv.role), code);
  }

  lemma JoinSane(h: Hub, u: int, code: int, now: int)
    requires Sane(h) && u in h.users
    ensures Sane(JoinWith(h, u, code, now).hub)
  {
    PrunedSane(h, code, now);
    if JoinWith(h, u, code, now).hub != Pruned(h, code, now) {
      RedeemSane(h, u, code);
    }
  }

  lemma CreateSane(h: Hub, u: int, name: string, goodName: bool, goodExpire: bool)
    requires Sane(h) && u in h.users
    ensures Sane(CreateChannel(h, u, name, goodName, goodExpire).hub)
  {
    assert ChanOk(Chan(name, map[u := Owner], map[], false), h.nextUser);
  }

  lemma AddUserSane(h: Hub, u: int, goodName: bool, taken: bool, pass: int)
    requires Sane(h)
    ensures Sane(AddUser(h, u, goodName, taken, pass).hub)
  {
    NewUserSane(h, pass);
    MemberChange(NewUser(h, pass), h.def, h.nextUser, Member);
  }

  lemma AccountChange(h: Hub, t: int, a: Account, saved: map<int, int>)
    requires Sane(h) && t in h.users && a.role != Guest
    ensures Sane(h.(users := h.users[t := a], saved := saved))
  {
    UsersChange(h, h.users[t := a]);
  }

  ghost predicate NoGuests(users: map<int, Account>) {
    forall u :: u in users ==> users[u].role != Guest
  }

  lemma {:induction false} ModAllAccounts(m: Modified, u: int, t: int, args: seq<Arg>)
    requires NoGuests(m.users) && u in m.users && t in m.users
    ensures NoGuests(ModAll(m, u, t, args).users)
  {
    if args != [] {
      ModAllAccounts(m, u, t, args[..|args| - 1]);
      ModOneAccounts(ModAll(m, u, t, args[..|args| - 1]), u, t, args[|args| - 1]);
    }
  }

  lemma ModOneAccounts(m: Modified, u: int, t: int, a: Arg)
    requires NoGuests(m.users) && u in m.users && t in m.users
    ensures NoGuests(ModOne(m, u, t, a).users)
  {
  }

  lemma ModUserSane(h: Hub, u: int, t: int, args: seq<Arg>)
    requires Sane(h) && u in h.users && t in h.users
    ensures Sane(ModUser(h, u, t, args).hub)
  {
    ModAllAccounts(Modified(h.users, h.saved, Done), u, t, args);
    var h' := ModUser(h, u, t, args).hub;
    assert forall x :: x in h'.users <==> x in h.users;
    UsersChange(h, h'.users);
  }

  lemma DefaultSane(h: Hub, c: int)
    requires Sane(h) && c in h.chans
    ensures Sane(MoveDefault(h, c))
  {
    forall x | x in h.chans ensures ChanOk(MoveDefault(h, c).chans[x], h.nextUser) {
      assert ChanOk(h.chans[x], h.nextUser);
    }
  }

  lemma StatusSane(h: Hub, u: int, t: int, status: Status)
    requires Sane(h)
    ensures Sane(SetStatus(h, u, t, status).hub)
  {
    if t in h.users {
      AccountChange(h, t, h.users[t].(status := status), h.saved);
    }
  }

  predicate OnHub(k: Cmd) {
    k.UserAdd? || k.UserBan? || k.UserUnban? || k.UserMod? || k.SetDefault? || k.SetOpenChannels? || k.SetRegistration?
  }

  lemma OnHubSane(h: Hub, s: int, k: Cmd, now: int)
    requires Sane(h) && Enabled(h, DoCmd(s, k, now)) && OnHub(k)
    ensures Sane(HandleCmd(h, s, k, now).hub)
  {
    var u := h.sessions[s].user;
    match k
    case UserAdd(goodName, taken, pass) => AddUserSane(h, u, goodName, taken, pass);
    case UserBan(t, until) => StatusSane(h, u, t, Banned(until));
    case UserUnban(t) => StatusSane(h, u, t, Active);
    case UserMod(t, args) => if u in h.users && t in h.users { ModUserSane(h, u, t, args); }
    case SetDefault(c) => if c in h.chans { DefaultSane(h, c); }
    case _ =>
  }

  lemma HandleCmdSane(h: Hub, s: int, k: Cmd, now: int)
    requires Sane(h) && Enabled(h, DoCmd(s, k, now))
    ensures Sane(HandleCmd(h, s, k, now).hub)
  {
    var u := h.sessions[s].user;
    if OnHub(k) {
      OnHubSane(h, s, k, now);
    } else if !h.sessions[s].guest {
      match k
      case Create(name, goodName, goodExpire) => CreateSane(h, u, name, goodName, goodExpire);
      case Join(code) => JoinSane(h, u, code, now);
      case OnChannel(c, kk) => OnChanSane(h, u, c, kk);
      case Passwd(oldOk, pass) => AccountChange(h, u, h.users[u].(pass := pass), h.saved);
      case _ =>
    }
  }

  // ---- hellos and housekeeping ------------------------------------------------------------------------------

  lemma SessionAdded(h: Hub, s: int, x: Session, saved: map<int, int>)
    requires Sane(h) && (if x.guest then x.user < 0 else x.user in h.users)
    ensures Sane(h.(sessions := h.sessions[s := x], saved := saved))
  {
  }

  lemma GreetedSane(h: Hub, s: int, v1: bool)
    requires Sane(h) && s in h.sessions
    ensures Sane(Greeted(h, s, v1))
  {
  }

  lemma InvitedSane(h: Hub, code: int, pass: int, now: int)
    requires Sane(h)
    ensures Sane(Invited(h, code, pass, now).hub)
    ensures Invited(h, code, pass, now).reply == Done ==> h.nextUser in Invited(h, code, pass, now).hub.users
  {
    PrunedSane(h, code, now);
    if Invited(h, code, pass, now).reply == Done {
      NewUserSane(h, pass);
      RedeemSane(NewUser(h, pass), h.nextUser, code);
    }
  }

  lemma RegisteredSane(h: Hub, pass: int)
    requires Sane(h)
    ensures Sane(Registered(h, pass).hub)
    ensures Registered(h, pass).reply == Done ==> h.nextUser in Registered(h, pass).hub.users
  {
    NewUserSane(h, pass);
    MemberChange(NewUser(h, pass), h.def, h.nextUser, Member);
  }

  lemma EnrolledSane(h: Hub, code: Option<int>, taken: bool, pass: int, now: int)
    requires Sane(h)
    ensures Sane(Enrolled(h, code, taken, pass, now).hub)
    ensures Enrolled(h, code, taken, pass, now).reply == Done ==>
            h.nextUser in Enrolled(h, code, taken, pass, now).hub.users
  {
    if code.Some? {
      InvitedSane(h, code.value, pass, now);
    } else {
      RegisteredSane(h, pass);
    }
  }

  lemma SignUpSane(h: Hub, s: int, code: Option<int>, taken: bool, pass: int, token: int, now: int)
    requires Sane(h)
    ensures Sane(SignUp(h, s, code, taken, pass, token, now).hub)
  {
    EnrolledSane(h, code, taken, pass, now);
    var o := Enrolled(h, code, taken, pass, now);
    if o.reply == Done {
      SessionAdded(o.hub, s, Session(h.nextUser, false, {}, token), o.hub.saved[token := h.nextUser]);
    }
  }

  lemma LogInSane(h: Hub, s: int, u: int, token: int, now: int)
    requires Sane(h) && u in h.users
    ensures Sane(LogIn(h, s, u, token, now).hub)
  {
    var h1 := h.(users := h.users[u := SweptAccount(h.users[u], now)]);
    UsersChange(h, h1.users);
    SessionAdded(h1, s, Session(u, false, {}, token), h.saved[token := u]);
  }

  lemma SweepSane(h: Hub, now: int)
    requires Sane(h)
    ensures Sane(Sweep(h, now))
  {
    UsersChange(h, Sweep(h, now).users);
    forall c | c in h.chans ensures ChanOk(SweptChan(h.chans[c], now), h.nextUser) {
      assert ChanOk(h.chans[c], h.nextUser);
    }
  }

  lemma HelloSane(h: Hub, st: Step)
    requires Sane(h) && Enabled(h, st) && (st.DoSignUp? || st.DoLogin? || st.DoGuest?)
    ensures Sane(Apply(h, st))
  {
    match st
    case DoSignUp(s, code, taken, pass, token, v1, now) =>
      SignUpSane(h, s, code, taken, pass, token, now);
      if SignUp(h, s, code, taken, pass, token, now).reply == Done {
        GreetedSane(SignUp(h, s, code, taken, pass, token, now).hub, s, v1);
      }
    case DoLogin(s, u, token, v1, now) =>
      LogInSane(h, s, u, token, now);
      if LogIn(h, s, u, token, now).reply == Done {
        GreetedSane(LogIn(h, s, u, token, now).hub, s, v1);
      }
    case DoGuest(s, nick, v1) =>
      SessionAdded(h, s, Session(nick, true, {}, 0), h.saved);
      GreetedSane(h.(sessions := h.sessions[s := Session(nick, true, {}, 0)]), s, v1);
  }

  lemma ApplySane(h: Hub, st: Step)
    requires Sane(h) && Enabled(h, st)
    ensures Sane(Apply(h, st))
  {
    match st
    case DoCmd(s, k, now) => HandleCmdSane(h, s, k, now);
    case DoSweep(now) => SweepSane(h, now);
    case DoBye(s) => SessionsChange(h, h.sessions - {s});
    case DoSub(s, c) => SessionsChange(h, Sub(h, s, c).hub.sessions);
    case DoUnsub(s, c) => SessionsChange(h, h.sessions[s := h.sessions[s].(subs := h.sessions[s].subs - {c})]);
    case DoEvict(token) =>
    case _ => HelloSane(h, st);
  }

  lemma {:induction false} RunSane(h: Hub, steps: seq<Step>)
    requires Sane(h) && Possible(h, steps)
    ensures Sane(Run(h, steps))
    decreases |steps|
  {
    if steps != [] {
      ApplySane(h, steps[0]);
      RunSane(Apply(h, steps[0]), steps[1..]);
    }
  }

  // ---- bans and invites over whole runs -----------------------------------------------------------------------

  /** No account is ever both member and banned. */
  lemma NeverMemberAndBanned(pass: int, maxUsers: nat, maxChannels: nat, steps: seq<Step>, c: int, u: int)
    requires Possible(Init(pass, maxUsers, maxChannels), steps)
    requires c in Run(Init(pass, maxUsers, maxChannels), steps).chans
    ensures var ch := Run(Init(pass, maxUsers, maxChannels), steps).chans[c];
            !(u in ch.members && u in ch.bans)
  {
    RunSane(Init(pass, maxUsers, maxChannels), steps);
    assert ChanOk(Run(Init(pass, maxUsers, maxChannels), steps).chans[c],
      Run(Init(pass, maxUsers, maxChannels), steps).nextUser);
  }

  /** An open invite with a limit has exactly as many uses left as it has not yet turned into memberships;
      a code never creates more memberships than it was made for. */
  lemma InvitesConserved(pass: int, maxUsers: nat, maxChannels: nat, steps: seq<Step>, code: int)
    requires Possible(Init(pass, maxUsers, maxChannels), steps)
    ensures var h := Run(Init(pass, maxUsers, maxChannels), steps);
            && (code in h.invites ==> code in h.ledger)
            && (code in h.invites && h.ledger[code].first >= 0 ==>
              h.invites[code].uses + h.ledger[code].joined == h.ledger[code].first)
            && (code in h.ledger && h.ledger[code].first >= 0 ==> h.ledger[code].joined <= h.ledger[code].first)
  {
    RunSane(Init(pass, maxUsers, maxChannels), steps);
    var h := Run(Init(pass, maxUsers, maxChannels), steps);
    if code in h.invites {
      assert InviteOk(h.invites[code], h.ledger[code]);
    }
  }
}
