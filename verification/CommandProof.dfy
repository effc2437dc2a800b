/** What each command needs and what it then does: exactly when it is done, and what is different afterwards. */
module CommandProof {
  import opened Util
  import opened Perms
  import opened Access
  import opened MembershipProof

  // ---- ranks ---------------------------------------------------------------------------------------

  /** What each step up adds to the rights of the one below. */
  lemma RightsOfRanks(a: Action)
    ensures !Can(NONE, a)
    ensures Can(RoleRank(Readonly), a) <==> a == Read || a == Members
    ensures Can(RoleRank(Member), a) <==> Can(RoleRank(Readonly), a) || a == Send || a == DelOwn
    ensures Can(RoleRank(Mod), a) <==>
            || Can(RoleRank(Member), a) || a == SetTopic || a == MakeInvite || a == AddMember || a == KickMember
            || a == BanMember || a == Mute || a == DelAny
    ensures Can(RoleRank(Admin), a) <==>
            Can(RoleRank(Mod), a) || a == RevokeAny || a == SetRole || a == Settings || a == Rotate
    ensures Can(RoleRank(Owner), a) && Can(SERVER_ADMIN, a) && Can(SERVER_OWNER, a)
  {
  }

  /** Server staff outranks every channel role, a guest is a plain member of the default channel. */
  lemma RankExact(h: Hub, u: int, c: int)
    requires c in h.chans
    ensures u in h.users && h.users[u].role == ServerOwner ==> h.Rank(u, c) == 7
    ensures u in h.users && h.users[u].role == ServerAdmin ==> h.Rank(u, c) == 6
    ensures u in h.users && h.users[u].role == User ==>
            h.Rank(u, c) == if u in h.chans[c].members then RoleRank(h.chans[c].members[u]) else 0
    ensures u !in h.users || h.users[u].role == Guest ==>
            h.Rank(u, c) == if h.chans[c].isDefault then RoleRank(Member) else 0
    ensures RoleRank(Readonly) == 1 && RoleRank(Member) == 2 && RoleRank(Mod) == 3
    ensures RoleRank(Admin) == 4 && RoleRank(Owner) == 5
  {
  }

  /** One acts on lower ranks only, and on server staff only as the server's owner. */
  lemma TargetsBelow(actor: nat, target: nat)
    ensures CanTarget(actor, target) <==> actor > target && (target >= 6 ==> actor == 7)
    ensures CanTarget(actor, target) ==> !CanTarget(target, actor)
  {
  }

  predicate Allowed(h: Hub, u: int, c: int, a: Action) { c in h.chans && h.Rank(u, c) > 0 && Can(h.Rank(u, c), a) }

  /** A channel the account does not see is unknown to it, and only then is it told what it may not do. */
  lemma RefusedFirst(h: Hub, u: int, c: int, k: ChanCmd)
    ensures c !in h.chans || h.Rank(u, c) == 0 ==> OnChan(h, u, c, k) == Outcome(h, Refused(NoChan))
    ensures c in h.chans && h.Rank(u, c) > 0 && !Allowed(h, u, c, ActionOf(k)) ==>
            OnChan(h, u, c, k) == Outcome(h, Refused(Perm))
    ensures OnChan(h, u, c, k).reply == Done ==> Allowed(h, u, c, ActionOf(k))
    ensures OnChan(h, u, c, k).reply != Done ==> OnChan(h, u, c, k).hub == h
  {
  }

  /** Which right each command asks for. */
  lemma RightAsked(t: int, b: bool, r: Option<Role>, until: int)
    ensures ActionOf(Delete(b)) == DeleteIt && ActionOf(Transfer(t)) == TransferIt &&
            ActionOf(GiveRole(t, r)) == SetRole
    ensures ActionOf(Kick(t)) == KickMember && ActionOf(Ban(t, until)) == BanMember && ActionOf(Unban(t)) == BanMember
    ensures ActionOf(Add(t)) == AddMember && ActionOf(Revoke(t)) == MakeInvite && ActionOf(Invites) == MakeInvite
    ensures ActionOf(NewInvite(t, t, t, r, b, b)) == MakeInvite
    ensures ActionOf(Topic) == SetTopic && ActionOf(Leave) == Read && ActionOf(MemberList) == Members
  {
  }

  // ---- members, roles and bans -----------------------------------------------------------------------

  /** The member is in the channel, or is server staff, and ranks below the actor. */
  predicate Targets(h: Hub, u: int, c: int, t: int)
    requires c in h.chans
  {
    && t in h.users && (t in h.chans[c].members || h.Staff(t))
    && h.Rank(u, c) > h.Rank(t, c) && (h.Rank(t, c) >= 6 ==> h.Rank(u, c) == 7)
  }

  ghost predicate Detached(ss: map<int, Session>, was: map<int, Session>, t: int, c: int) {
    && (forall s :: s in ss <==> s in was)
    && forall s :: s in was ==>
      if was[s].user == t then ss[s] == was[s].(subs := was[s].subs - {c}) else ss[s] == was[s]
  }

  ghost predicate OnlyChan(h: Hub, h': Hub, c: int) {
    && h' == h.(chans := h'.chans, sessions := h'.sessions)
    && (forall x :: x in h'.chans <==> x in h.chans)
    && forall x :: x in h.chans && x != c ==> h'.chans[x] == h.chans[x]
  }

  lemma KickExact(h: Hub, u: int, c: int, t: int)
    ensures var o := OnChan(h, u, c, Kick(t));
            && (o.reply == Done <==> Allowed(h, u, c, KickMember) && Targets(h, u, c, t))
            && (o.reply == Done ==>
                 && OnlyChan(h, o.hub, c) && Detached(o.hub.sessions, h.sessions, t, c)
                 && o.hub.chans[c] == h.chans[c].(members := h.chans[c].members - {t}))
  {
  }

  lemma BanExact(h: Hub, u: int, c: int, t: int, until: int)
    ensures var o := OnChan(h, u, c, Ban(t, until));
            && (o.reply == Done <==> Allowed(h, u, c, BanMember) && Targets(h, u, c, t))
            && (o.reply == Done ==>
                 && OnlyChan(h, o.hub, c) && Detached(o.hub.sessions, h.sessions, t, c)
                 && o.hub.chans[c] == h.chans[c].(members := h.chans[c].members - {t},
                   bans := h.chans[c].bans[t := until]))
  {
  }

  lemma UnbanExact(h: Hub, u: int, c: int, t: int)
    ensures var o := OnChan(h, u, c, Unban(t));
            && (o.reply == Done <==> Allowed(h, u, c, BanMember) && t in h.users && t in h.chans[c].bans)
            && (o.reply == Done ==>
                 && OnlyChan(h, o.hub, c) && o.hub.sessions == h.sessions
                 && o.hub.chans[c] == h.chans[c].(bans := h.chans[c].bans - {t}))
  {
  }

  lemma AddExact(h: Hub, u: int, c: int, t: int)
    ensures var o := OnChan(h, u, c, Add(t));
            && (o.reply == Done <==>
                 && Allowed(h, u, c, AddMember) && t in h.users && h.users[t].status == Active
                                     && t !in h.chans[c].bans)
            && (o.reply == Done && t in h.chans[c].members ==> o.hub == h)
            && (o.reply == Done && t !in h.chans[c].members ==>
                 && OnlyChan(h, o.hub, c) && o.hub.sessions == h.sessions
                 && o.hub.chans[c] == h.chans[c].(members := h.chans[c].members[t := Member]))
  {
  }

  lemma RoleExact(h: Hub, u: int, c: int, t: int, role: Option<Role>)
    ensures var o := OnChan(h, u, c, GiveRole(t, role));
            && (o.reply == Done <==>
                 && Allowed(h, u, c, SetRole) && Targets(h, u, c, t) && t in h.chans[c].members
                 && role.Some? && role.value != Owner && (RoleRank(role.value) < h.Rank(u, c) || h.Rank(u, c) >= 6))
            && (o.reply == Done ==>
                 && OnlyChan(h, o.hub, c) && o.hub.sessions == h.sessions
                 && o.hub.chans[c] == h.chans[c].(members := h.chans[c].members[t := role.value]))
  {
  }

  lemma TransferExact(h: Hub, u: int, c: int, t: int)
    ensures var o := OnChan(h, u, c, Transfer(t));
            && (o.reply == Done <==> Allowed(h, u, c, TransferIt) && t in h.users && t in h.chans[c].members && t != u)
            && (o.reply == Done ==>
                 && OnlyChan(h, o.hub, c) && o.hub.sessions == h.sessions
                 && o.hub.chans[c] == h.chans[c].(members := o.hub.chans[c].members)
                 && (forall x :: x in o.hub.chans[c].members <==> x in h.chans[c].members)
                 && forall x :: x in h.chans[c].members ==>
                      o.hub.chans[c].members[x] ==
                      if x == t then Owner else if x == u && h.chans[c].members[u] == Owner then Admin
                      else h.chans[c].members[x])
  {
  }

  lemma LeaveExact(h: Hub, u: int, c: int)
    ensures var o := OnChan(h, u, c, Leave);
            && (o.reply == Done <==>
                 && Allowed(h, u, c, Read) && u in h.chans[c].members
                 && h.chans[c].members[u] != Owner)
            && (o.reply == Done ==>
                 && OnlyChan(h, o.hub, c) && Detached(o.hub.sessions, h.sessions, u, c)
                 && o.hub.chans[c] == h.chans[c].(members := h.chans[c].members - {u}))
  {
  }

  lemma DeleteExact(h: Hub, u: int, c: int, confirmed: bool)
    ensures var o := OnChan(h, u, c, Delete(confirmed));
            && (o.reply == Done <==> Allowed(h, u, c, DeleteIt) && confirmed && !h.chans[c].isDefault)
            && (o.reply == Done ==>
                 && o.hub == h.(chans := h.chans - {c}, invites := o.hub.invites, sessions := o.hub.sessions)
                 && (forall k :: k in o.hub.invites <==> k in h.invites && h.invites[k].cid != c)
                 && (forall k :: k in o.hub.invites ==> o.hub.invites[k] == h.invites[k])
                 && (forall s :: s in o.hub.sessions <==> s in h.sessions)
                 && forall s :: s in h.sessions ==>
                   o.hub.sessions[s] == h.sessions[s].(subs := h.sessions[s].subs - {c}))
  {
  }

  // ---- invites ---------------------------------------------------------------------------------------

  lemma InviteExact(h: Hub, u: int, c: int, code: int, uses: int, expires: int, role: Option<Role>, signup: bool,
                    rateOk: bool)
    ensures var o := OnChan(h, u, c, NewInvite(code, uses, expires, role, signup, rateOk));
            && (o.reply == Done <==>
                 && Allowed(h, u, c, MakeInvite) && role.Some? && role.value != Owner && rateOk
                 && (RoleRank(role.value) < h.Rank(u, c) || h.Rank(u, c) >= 6))
            && (o.reply == Done ==>
                 && o.hub == h.(invites := o.hub.invites, ledger := o.hub.ledger)
                 && o.hub.invites == h.invites[code := Invite(c, u, if uses < 0 then -1 else uses, expires, role.value,
                                                             signup && h.registration != ByAdmin)])
  {
  }

  lemma RevokeExact(h: Hub, u: int, c: int, code: int)
    ensures var o := OnChan(h, u, c, Revoke(code));
            && (o.reply == Done <==>
                 && Allowed(h, u, c, MakeInvite) && code in h.invites && h.invites[code].cid == c
                 && (h.invites[code].actor == u || h.Rank(u, c) >= RoleRank(Admin)))
            && (o.reply == Done ==> o.hub == h.(invites := h.invites - {code}))
  {
  }

  /** The code exists, has uses left and has not run out. */
  predicate Open(h: Hub, code: int, now: int) {
    code in h.invites && h.invites[code].uses != 0 && (h.invites[code].expires <= 0 || h.invites[code].expires >= now)
  }

  ghost predicate OneUseLess(h: Hub, h': Hub, code: int)
    requires code in h.invites
  {
    h'.invites == (if h.invites[code].uses < 0 then h.invites
                   else if h.invites[code].uses == 1 then h.invites - {code}
                   else h.invites[code := h.invites[code].(uses := h.invites[code].uses - 1)])
  }

  /** A code that has run out or is used up admits nobody and is gone afterwards. */
  lemma JoinExact(h: Hub, u: int, code: int, now: int)
    requires code in h.invites ==> h.invites[code].uses >= -1
    ensures var o := JoinWith(h, u, code, now);
            && (o.reply == Done <==>
                 && Open(h, code, now) && h.invites[code].cid in h.chans
                                     && u !in h.chans[h.invites[code].cid].bans)
            && (o.reply != Done ==> o == Outcome(h.(invites := o.hub.invites), Refused(Auth)))
            && (!Open(h, code, now) ==> o.hub == h.(invites := h.invites - {code}))
            && (Open(h, code, now) && o.reply != Done ==> o.hub == h)
            && (o.reply == Done && u in h.chans[h.invites[code].cid].members ==> o.hub == h)
            && (o.reply == Done && u !in h.chans[h.invites[code].cid].members ==>
                 var c := h.invites[code].cid;
                 && o.hub.chans == h.chans[c := h.chans[c].(members := h.chans[c].members[u := h.invites[code].role])]
                 && OneUseLess(h, o.hub, code)
                 && o.hub == h.(chans := o.hub.chans, invites := o.hub.invites, ledger := o.hub.ledger))
  {
    if code !in h.invites { assert h.invites - {code} == h.invites; }
  }

  // ---- why a command is refused -------------------------------------------------------------------------

  function Why(ok: bool, code: Code, otherwise: Reply): Reply { if ok then otherwise else Refused(code) }

  /** The named account must be there and lower in rank. */
  function WhyNotTarget(h: Hub, u: int, c: int, t: int, otherwise: Reply): Reply
    requires c in h.chans
  {
    Why(t in h.users && (t in h.chans[c].members || h.Staff(t)), NotFound,
        Why(h.Rank(u, c) > h.Rank(t, c) && (h.Rank(t, c) >= 6 ==> h.Rank(u, c) == 7), Perm, otherwise))
  }

  /** On a channel the account sees and with the right the command asks for, the answer names what is wrong:
      first an unknown name, then what may not be done, or a bad argument before it where the source asks so. */
  lemma TargetReplies(h: Hub, u: int, c: int, t: int, until: int, role: Option<Role>)
    requires c in h.chans && h.Rank(u, c) > 0
    ensures Can(h.Rank(u, c), KickMember) ==> OnChan(h, u, c, Kick(t)).reply == WhyNotTarget(h, u, c, t, Done)
    ensures Can(h.Rank(u, c), BanMember) ==> OnChan(h, u, c, Ban(t, until)).reply == WhyNotTarget(h, u, c, t, Done)
    ensures Can(h.Rank(u, c), SetRole) ==>
            OnChan(h, u, c, GiveRole(t, role)).reply ==
            WhyNotTarget(h, u, c, t,
              Why(t in h.chans[c].members, NotFound,
                Why(role.Some? && role.value != Owner, BadArg,
                  Why(role.None? || RoleRank(role.value) < h.Rank(u, c) || h.Rank(u, c) >= 6, Perm, Done))))
  {
  }

  lemma OtherReplies(h: Hub, u: int, c: int, t: int, confirmed: bool)
    requires c in h.chans && h.Rank(u, c) > 0
    ensures Can(h.Rank(u, c), BanMember) ==>
            OnChan(h, u, c, Unban(t)).reply == Why(t in h.users && t in h.chans[c].bans, NotFound, Done)
    ensures Can(h.Rank(u, c), AddMember) ==>
            OnChan(h, u, c, Add(t)).reply ==
            Why(t in h.users && h.users[t].status == Active, NotFound, Why(t !in h.chans[c].bans, Perm, Done))
    ensures Can(h.Rank(u, c), TransferIt) ==>
            OnChan(h, u, c, Transfer(t)).reply ==
            Why(t in h.users && t in h.chans[c].members, NotFound, Why(t != u, BadArg, Done))
    ensures OnChan(h, u, c, Leave).reply == Why(u in h.chans[c].members && h.chans[c].members[u] != Owner, BadArg, Done)
    ensures Can(h.Rank(u, c), DeleteIt) ==>
            OnChan(h, u, c, Delete(confirmed)).reply == Why(confirmed && !h.chans[c].isDefault, BadArg, Done)
  {
  }

  lemma InviteReplies(h: Hub, u: int, c: int, code: int, uses: int, expires: int, role: Option<Role>, signup: bool,
                      rateOk: bool)
    requires Allowed(h, u, c, MakeInvite)
    ensures OnChan(h, u, c, NewInvite(code, uses, expires, role, signup, rateOk)).reply ==
            Why(role.Some? && role.value != Owner && (RoleRank(role.value) < h.Rank(u, c) || h.Rank(u, c) >= 6), BadArg,
              Why(rateOk, RateLimited, Done))
    ensures OnChan(h, u, c, Revoke(code)).reply ==
            Why(code in h.invites && h.invites[code].cid == c, NotFound,
              Why(code in h.invites && (h.invites[code].actor == u || h.Rank(u, c) >= RoleRank(Admin)), Perm, Done))
    ensures OnChan(h, u, c, Topic) == OnChan(h, u, c, Invites) == Outcome(h, Done)
    ensures OnChan(h, u, c, MemberList) == Outcome(h, Done)
  {
  }

  lemma AccountReplies(h: Hub, u: int, t: int, name: string, goodName: bool, goodExpire: bool, taken: bool, pass: int,
                       status: Status)
    ensures CreateChannel(h, u, name, goodName, goodExpire).reply ==
            Why(h.Staff(u) || (h.RoleOf(u) == User && h.openChannels), Perm,
              Why(goodName, BadArg,
                Why(forall c :: c in h.chans ==> h.chans[c].name != name, Exists,
                  Why(|h.chans| < h.maxChannels, Limit, Why(goodExpire, BadArg, Done)))))
    ensures AddUser(h, u, goodName, taken, pass).reply ==
            Why(h.Staff(u), Perm, Why(goodName, BadArg, Why(!taken, Exists, Why(|h.users| < h.maxUsers, Limit, Done))))
    ensures SetStatus(h, u, t, status).reply ==
            Why(h.Staff(u), Perm,
              Why(t in h.users, NotFound, Why(t != u && ServerRank(h.RoleOf(u)) > ServerRank(h.RoleOf(t)), Perm, Done)))
  {
  }

  lemma HelloReplies(h: Hub, s: int, u: int, token: int, code: Option<int>, taken: bool, pass: int, now: int)
    ensures u in h.users ==>
            LogIn(h, s, u, token, now).reply ==
              Why(h.users[u].status == Active || Lapsed(h.users[u], now), Blocked, Done)
    ensures taken ==> Enrolled(h, code, taken, pass, now).reply == Refused(Exists)
    ensures !taken && |h.users| >= h.maxUsers ==> Enrolled(h, code, taken, pass, now).reply == Refused(Limit)
    ensures !taken && |h.users| < h.maxUsers && Enrolled(h, code, taken, pass, now).reply != Done ==>
            Enrolled(h, code, taken, pass, now).reply == Refused(Auth)
  {
  }

  // ---- accounts ----------------------------------------------------------------------------------------

  lemma CreateExact(h: Hub, u: int, name: string, goodName: bool, goodExpire: bool)
    ensures var o := CreateChannel(h, u, name, goodName, goodExpire);
            && (o.reply == Done <==>
                 && (h.Staff(u) || (h.RoleOf(u) == User && h.openChannels))
                 && goodName && goodExpire && (forall c :: c in h.chans ==> h.chans[c].name != name)
                 && |h.chans| < h.maxChannels)
            && (o.reply != Done ==> o.hub == h)
            && (o.reply == Done ==> o.hub == h.(nextChan := h.nextChan + 1,
                 chans := h.chans[h.nextChan := Chan(name, map[u := Owner], map[], false)]))
  {
  }

  lemma StaffExact(h: Hub, u: int)
    ensures h.Staff(u) <==> u in h.users && (h.users[u].role == ServerAdmin || h.users[u].role == ServerOwner)
  {
  }

  /** The new account, with the given password and nothing else to its name. */
  ghost predicate NewAccount(h: Hub, h': Hub, pass: int) {
    h'.users == h.users[h.nextUser := Account(User, Active, pass)] && h'.nextUser == h.nextUser + 1
  }

  lemma AddUserExact(h: Hub, u: int, goodName: bool, taken: bool, pass: int)
    requires h.def in h.chans
    ensures var o := AddUser(h, u, goodName, taken, pass);
            && (o.reply == Done <==> h.Staff(u) && goodName && !taken && |h.users| < h.maxUsers)
            && (o.reply != Done ==> o.hub == h)
            && (o.reply == Done ==>
                 && NewAccount(h, o.hub, pass)
                 && o.hub.chans == h.chans[h.def :=
                   h.chans[h.def].(members := h.chans[h.def].members[h.nextUser := Member])]
                 && o.hub == h.(users := o.hub.users, nextUser := o.hub.nextUser, chans := o.hub.chans))
  {
  }

  lemma StatusExact(h: Hub, u: int, t: int, status: Status)
    ensures var o := SetStatus(h, u, t, status);
            && (o.reply == Done <==>
                 && h.Staff(u) && t in h.users && t != u
                 && ServerRank(h.RoleOf(u)) > ServerRank(h.RoleOf(t)))
            && (o.reply != Done ==> o.hub == h)
            && (o.reply == Done ==> o.hub == h.(users := h.users[t := h.users[t].(status := status)]))
  {
  }

  lemma ServerRanks()
    ensures ServerRank(Guest) < ServerRank(User) < ServerRank(ServerAdmin) < ServerRank(ServerOwner)
  {
  }

  /** A password reset by somebody of higher server rank also forgets every saved session of the account. */
  lemma PassArgExact(m: Modified, u: int, t: int, hash: int)
    requires u in m.users && t in m.users
    ensures var m' := ModOne(m, u, t, PassArg(hash));
            if t != u && ServerRank(m.users[u].role) > ServerRank(m.users[t].role) then
              && m'.reply == Done && m'.users == m.users[t := m.users[t].(pass := hash)]
              && (forall k :: k in m'.saved <==> k in m.saved && m.saved[k] != t)
              && forall k :: k in m'.saved ==> m'.saved[k] == m.saved[k]
            else m' == m.(reply := Refused(Perm))
  {
  }

  /** Roles are the owner's to give; giving the ownership away makes the giver an admin. */
  lemma RoleArgExact(m: Modified, u: int, t: int, v: Option<ServerRole>)
    requires u in m.users && t in m.users
    ensures var m' := ModOne(m, u, t, RoleArg(v));
            if m.users[u].role != ServerOwner then m' == m.(reply := Refused(Perm))
            else if t == u || v.None? || v.value == Guest then m' == m.(reply := Refused(BadArg))
            else
              && m'.reply == Done && m'.saved == m.saved && m'.users.Keys == m.users.Keys
              && m'.users[t] == m.users[t].(role := v.value)
              && m'.users[u] == (if v.value == ServerOwner then m.users[u].(role := ServerAdmin) else m.users[u])
              && forall x :: x in m.users && x != t && x != u ==> m'.users[x] == m.users[x]
  {
  }

  /** `usermod` disables and enables; bans have their own command. */
  lemma OtherArgsExact(m: Modified, u: int, t: int, v: Option<Status>)
    requires u in m.users && t in m.users && m.reply == Done
    ensures var above := t != u && ServerRank(m.users[u].role) > ServerRank(m.users[t].role);
            && ModOne(m, u, t, StatusArg(v)) ==
                 (if !above then m.(reply := Refused(Perm))
                  else if v.None? || v.value.Banned? then m.(reply := Refused(BadArg))
                  else m.(users := m.users[t := m.users[t].(status := v.value)]))
            && ModOne(m, u, t, QuotaArg) == (if above || t == u then m else m.(reply := Refused(Perm)))
            && ModOne(m, u, t, RateArg) == (if above then m else m.(reply := Refused(Perm)))
            && ModOne(m, u, t, UnknownArg) == m.(reply := Refused(BadArg))
  {
  }

  /** One argument after another until one is refused; what was done by then stays done. */
  function InOrder(m: Modified, u: int, t: int, args: seq<Arg>): Modified
    requires u in m.users && t in m.users
    decreases |args|
  {
    if args == [] || m.reply != Done then m else InOrder(ModOne(m, u, t, args[0]), u, t, args[1..])
  }

  lemma {:induction false} InOrderSnoc(m: Modified, u: int, t: int, args: seq<Arg>, a: Arg, all: seq<Arg>)
    requires u in m.users && t in m.users && all == args + [a]
    ensures u in InOrder(m, u, t, args).users && t in InOrder(m, u, t, args).users
    ensures InOrder(m, u, t, all) ==
            if InOrder(m, u, t, args).reply != Done then InOrder(m, u, t, args)
            else ModOne(InOrder(m, u, t, args), u, t, a)
    decreases |args|
  {
    if args == [] {
      assert all[0] == a && all[1..] == [];
    } else {
      FirstOfConcat(args, [a], all);
      if m.reply == Done {
        InOrderSnoc(ModOne(m, u, t, args[0]), u, t, args[1..], a, all[1..]);
      }
    }
  }

  lemma {:induction false} ArgsInOrder(m: Modified, u: int, t: int, args: seq<Arg>)
    requires u in m.users && t in m.users
    ensures ModAll(m, u, t, args) == InOrder(m, u, t, args)
  {
    if args != [] {
      var front, a := args[..|args| - 1], args[|args| - 1];
      ArgsInOrder(m, u, t, front);
      InOrderSnoc(m, u, t, front, a, args);
    }
  }

  lemma UserModExact(h: Hub, u: int, t: int, args: seq<Arg>)
    requires u in h.users
    ensures var o := ModUser(h, u, t, args);
            && o.hub == h.(users := o.hub.users, saved := o.hub.saved)
            && (!h.Staff(u) ==> o == Outcome(h, Refused(Perm)))
            && (h.Staff(u) && t !in h.users ==> o == Outcome(h, Refused(NotFound)))
            && (h.Staff(u) && t in h.users && args == [] ==> o == Outcome(h, Refused(BadArg)))
            && (h.Staff(u) && t in h.users && args != [] ==>
                 Modified(o.hub.users, o.hub.saved, o.reply) == InOrder(Modified(h.users, h.saved, Done), u, t, args))
  {
    if t in h.users { ArgsInOrder(Modified(h.users, h.saved, Done), u, t, args); }
  }

  /** Anybody but a guest may do this to itself; the rest of the settings is the owner's. */
  lemma OwnAffairs(h: Hub, s: int, oldOk: bool, pass: int, all: bool, now: int)
    requires Attached(h, s) && !h.sessions[s].guest
    ensures var o := HandleCmd(h, s, Passwd(oldOk, pass), now);
            var u := h.sessions[s].user;
            o == if oldOk then Outcome(h.(users := h.users[u := h.users[u].(pass := pass)]), Done)
              else Outcome(h, Refused(Auth))
    ensures var o := HandleCmd(h, s, Logout(all), now);
            && o.reply == Done && o.hub == h.(saved := o.hub.saved)
            && (forall k :: k in o.hub.saved <==>
                  k in h.saved && (h.saved[k] != h.sessions[s].user || (!all && k != h.sessions[s].token)))
            && forall k :: k in o.hub.saved ==> o.hub.saved[k] == h.saved[k]
  {
  }

  lemma OwnerSettings(h: Hub, s: int, c: int, on: bool, mode: Option<Registration>, now: int)
    requires Attached(h, s) && !h.sessions[s].guest
    ensures var owner := h.users[h.sessions[s].user].role == ServerOwner;
            && HandleCmd(h, s, SetDefault(c), now).reply == Why(owner, Perm, Why(c in h.chans, BadArg, Done))
            && (HandleCmd(h, s, SetDefault(c), now).reply != Done ==> HandleCmd(h, s, SetDefault(c), now).hub == h)
            && HandleCmd(h, s, SetOpenChannels(on), now) ==
                 (if owner then Outcome(h.(openChannels := on), Done) else Outcome(h, Refused(Perm)))
            && HandleCmd(h, s, SetRegistration(mode), now).reply == Why(owner, Perm, Why(mode.Some?, BadArg, Done))
            && HandleCmd(h, s, SetRegistration(mode), now).hub ==
                 (if owner && mode.Some? then h.(registration := mode.value) else h)
  {
  }

  lemma DefaultMoved(h: Hub, s: int, c: int, now: int)
    requires Attached(h, s) && !h.sessions[s].guest && HandleCmd(h, s, SetDefault(c), now).reply == Done
    ensures var h' := HandleCmd(h, s, SetDefault(c), now).hub;
            && h' == h.(def := c, chans := h'.chans) && (forall x :: x in h'.chans <==> x in h.chans)
            && forall x :: x in h.chans ==> h'.chans[x] == h.chans[x].(isDefault := x == c)
  {
  }

  /** Guests only list channels; everybody else's commands go where they belong. */
  lemma Dispatched(h: Hub, s: int, k: Cmd, now: int)
    requires Attached(h, s)
    ensures var o, u := HandleCmd(h, s, k, now), h.sessions[s].user;
            && (h.sessions[s].guest && k != Channels ==> o == Outcome(h, Refused(GuestsCannot)))
            && (k == Channels ==> o == Outcome(h, Listed(set c | c in h.chans && h.Rank(u, c) > 0)))
            && (!h.sessions[s].guest ==>
                 && (k.Create? ==> o == CreateChannel(h, u, k.name, k.goodName, k.goodExpire))
                 && (k.Join? ==> o == JoinWith(h, u, k.code, now))
                 && (k.OnChannel? ==> o == OnChan(h, u, k.c, k.k))
                 && (k.UserAdd? ==> o == AddUser(h, u, k.goodName, k.taken, k.pass))
                 && (k.UserBan? ==> o == SetStatus(h, u, k.t, Banned(k.until)))
                 && (k.UserUnban? ==> o == SetStatus(h, u, k.t, Active))
                 && (k.UserMod? ==> o == ModUser(h, u, k.t, k.args)))
  {
    assert ChannelsFor(h, h.sessions[s].user) == set c | c in h.chans && h.Rank(h.sessions[s].user, c) > 0;
  }

  // ---- hellos --------------------------------------------------------------------------------------------

  predicate Lapsed(a: Account, now: int) { a.status.Banned? && a.status.until > 0 && a.status.until < now }

  /** A disabled account does not get in, nor does one whose ban still runs; a ban that has run out is lifted. */
  lemma LoginExact(h: Hub, s: int, u: int, token: int, v1: bool, now: int)
    requires Enabled(h, DoLogin(s, u, token, v1, now))
    ensures var h' := Apply(h, DoLogin(s, u, token, v1, now));
            if h.users[u].status == Active || Lapsed(h.users[u], now) then
              && h'.users == h.users[u := h.users[u].(status := Active)]
              && h'.saved == h.saved[token := u]
              && h'.sessions == h.sessions[s :=
                Session(u, false, if v1 && h.def in h.chans then {h.def} else {}, token)]
              && h' == h.(users := h'.users, saved := h'.saved, sessions := h'.sessions)
            else h' == h
  {
    var none: set<int> := {};
    assert none + {h.def} == {h.def};
  }

  lemma GuestExact(h: Hub, s: int, nick: int, v1: bool)
    requires Enabled(h, DoGuest(s, nick, v1))
    ensures Apply(h, DoGuest(s, nick, v1)) ==
            h.(sessions := h.sessions[s := Session(nick, true, if v1 && h.def in h.chans then {h.def} else {}, 0)])
  {
    var none: set<int> := {};
    assert none + {h.def} == {h.def};
  }

  /** Who gets a new account: with an open code that allows it, or without one when registration is open. */
  lemma EnrolExact(h: Hub, code: Option<int>, taken: bool, pass: int, now: int)
    requires h.def in h.chans && (code.Some? && code.value in h.invites ==> h.invites[code.value].uses >= -1)
    ensures var o := Enrolled(h, code, taken, pass, now);
            && (o.reply == Done <==>
                 && !taken && |h.users| < h.maxUsers
                 && (code.None? ==> h.registration == Registration.Open)
                 && (code.Some? ==>
                      && Open(h, code.value, now) && h.invites[code.value].signup
                                    && h.invites[code.value].cid in h.chans))
            && (o.reply != Done ==> o.hub.users == h.users && o.hub.chans == h.chans)
            && (o.reply == Done ==>
                 && NewAccount(h, o.hub, pass)
                 && var c, r := if code.Some? then h.invites[code.value].cid else h.def,
                                if code.Some? then h.invites[code.value].role else Member;
                    o.hub.chans == h.chans[c := h.chans[c].(members := h.chans[c].members[h.nextUser := r])])
            && (o.reply == Done && code.Some? ==> OneUseLess(h, o.hub, code.value))
  {
  }

  /** The new account is logged in at once; a client below version 2 listens to the default channel. */
  lemma SignUpExact(h: Hub, s: int, code: Option<int>, taken: bool, pass: int, token: int, now: int)
    ensures var o, o' := Enrolled(h, code, taken, pass, now), SignUp(h, s, code, taken, pass, token, now);
            if o.reply == Done then
              o' == Outcome(o.hub.(sessions := o.hub.sessions[s := Session(h.nextUser, false, {}, token)],
                                   saved := o.hub.saved[token := h.nextUser]), Done)
            else o' == o
  {
  }

  lemma GreetedExact(h: Hub, s: int, v1: bool)
    requires s in h.sessions
    ensures Greeted(h, s, v1) ==
            if v1 && h.def in h.chans
              then h.(sessions := h.sessions[s := h.sessions[s].(subs := h.sessions[s].subs + {h.def})])
            else h
  {
  }

  lemma SignedUp(h: Hub, s: int, code: Option<int>, taken: bool, pass: int, token: int, v1: bool, now: int)
    requires Enabled(h, DoSignUp(s, code, taken, pass, token, v1, now))
    ensures var o := SignUp(h, s, code, taken, pass, token, now);
            Apply(h, DoSignUp(s, code, taken, pass, token, v1, now)) ==
            if o.reply == Done then Greeted(o.hub, s, v1) else o.hub
  {
  }

  /** One subscribes to what one sees; guests to the default channel only. */
  lemma SubExact(h: Hub, s: int, c: int)
    requires s in h.sessions
    ensures var o := Sub(h, s, c);
            && (o.reply == Done <==>
                 && c in h.chans && h.Rank(h.sessions[s].user, c) > 0
                 && (h.sessions[s].guest ==> c == h.def))
            && (o.reply == Done ==>
                 o.hub ==
                 h.(sessions := h.sessions[s := h.sessions[s].(subs := h.sessions[s].subs + {c})]))
            && (o.reply != Done ==> o == Outcome(h, Refused(NoChan)))
  {
  }

  /** Sessions end, unsubscribe and are forgotten without touching anything else. */
  lemma GoneExact(h: Hub, s: int, c: int, token: int)
    ensures Enabled(h, DoBye(s)) ==> Apply(h, DoBye(s)) == h.(sessions := h.sessions - {s})
    ensures Enabled(h, DoEvict(token)) ==> Apply(h, DoEvict(token)) == h.(saved := h.saved - {token})
    ensures Enabled(h, DoUnsub(s, c)) ==>
            Apply(h, DoUnsub(s, c)) == h.(sessions := h.sessions[s := h.sessions[s].(subs := h.sessions[s].subs - {c})])
  {
  }

  // ---- answers to frames ---------------------------------------------------------------------------------

  /** A message is let through exactly when its sender sees the channel, may write in it, is no muted member
      and stays within length and rate; otherwise the first of these that fails is named. */
  lemma MessageAnswered(h: Hub, u: int, c: int, tooLong: bool, readonly: bool, muted: bool, rateOk: bool)
    ensures var r := AnswerTo(h, u, MsgTo(c, tooLong, readonly, muted, rateOk));
            var sees := c in h.chans && h.Rank(u, c) > 0;
            var writes := sees && h.Rank(u, c) >= 2 && (readonly ==> h.Rank(u, c) >= 3);
            var silenced := sees && u in h.chans[c].members && muted;
            && (r.None? <==> writes && !tooLong && !silenced && rateOk)
            && (r == Some(Refused(NoChan)) <==> !sees)
            && (r == Some(Refused(TooLong)) <==> sees && tooLong)
            && (r == Some(Refused(IsReadonly)) <==> sees && !tooLong && !writes)
            && (r == Some(Refused(IsMuted)) <==> writes && !tooLong && silenced)
            && (r == Some(Refused(RateLimited)) <==> writes && !tooLong && !silenced && !rateOk)
  {
  }

  lemma WhoAnswered(h: Hub, u: int, c: int, t: int)
    ensures AnswerTo(h, u, Who(c)) ==
            if c in h.chans && h.Rank(u, c) > 0 then Some(Listed(OnlineIn(h, c))) else Some(Refused(NoChan))
    ensures forall x :: x in OnlineIn(h, c) <==>
            exists s :: s in h.sessions && c in h.sessions[s].subs && h.sessions[s].user == x
    ensures AnswerTo(h, u, MarkRead(c)) == AnswerTo(h, u, KeyReq(c)) == AnswerTo(h, u, KeyShare(c, t)) == None
  {
  }

  // ---- the hourly sweep ------------------------------------------------------------------------------------

  /** Only what has run out goes: bans, account bans and codes with a date before now, and used-up codes. */
  lemma SweepExact(h: Hub, now: int)
    ensures var h' := Sweep(h, now);
            && h' == h.(chans := h'.chans, invites := h'.invites, users := h'.users)
            && (forall c :: c in h'.chans <==> c in h.chans)
            && (forall c :: c in h.chans ==> h'.chans[c] == h.chans[c].(bans := h'.chans[c].bans))
            && (forall c, u :: c in h.chans ==> (u in h'.chans[c].bans <==>
                  u in h.chans[c].bans && (h.chans[c].bans[u] <= 0 || h.chans[c].bans[u] >= now)))
            && (forall c, u :: c in h.chans && u in h'.chans[c].bans ==> h'.chans[c].bans[u] == h.chans[c].bans[u])
            && (forall k :: k in h'.invites <==> Open(h, k, now))
            && (forall k :: k in h'.invites ==> h'.invites[k] == h.invites[k])
            && (forall u :: u in h'.users <==> u in h.users)
            && forall u :: u in h.users ==>
                 h'.users[u] == if Lapsed(h.users[u], now) then h.users[u].(status := Active) else h.users[u]
  {
  }
}
