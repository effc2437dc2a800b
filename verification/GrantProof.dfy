/** Who gets which role, and who owns a channel. */
module GrantProof {
  import opened Util
  import opened Perms
  import opened Access
  import opened MembershipProof

  function RoleIn(h: Hub, c: int, u: int): Option<Role> {
    if c in h.chans && u in h.chans[c].members then Some(h.chans[c].members[u]) else None
  }

  // ---- what each command leaves alone -----------------------------------------------------------

  /** `u` has a role in `c` that it did not have before. */
  ghost predicate Gains(chans: map<int, Chan>, chans': map<int, Chan>, c: int, u: int) {
    c in chans' && u in chans'[c].members &&
      !(c in chans && u in chans[c].members && chans[c].members[u] == chans'[c].members[u])
  }

  /** What a step may grant, and to whom. */
  ghost predicate Grants(h: Hub, st: Step, c: int, u: int, r: Role)
    requires Enabled(h, st)
  {
    match st
    case DoCmd(s, k, _) => CmdGrants(h, h.sessions[s].user, k, c, u, r)
    case DoSignUp(_, code, _, _, _, _, _) =>
      u == h.nextUser && if code.Some? then InviteGrants(h, code.value, c, r) else c == h.def && r == Member
    case _ => false
  }

  ghost predicate CmdGrants(h: Hub, a: int, k: Cmd, c: int, u: int, r: Role) {
    match k
    case Create(_, _, _) => u == a && r == Owner && c !in h.chans
    case Join(code) => u == a && InviteGrants(h, code, c, r)
    case UserAdd(_, _, _) => u == h.nextUser && c == h.def && r == Member && h.Staff(a)
    case OnChannel(x, kk) => x == c && c in h.chans && ChanGrants(h, a, c, kk, u, r)
    case _ => false
  }

  /** The code was made by somebody who then stood above the role it gives. */
  ghost predicate InviteGrants(h: Hub, code: int, c: int, r: Role) {
    && code in h.invites && h.invites[code].cid == c && h.invites[code].role == r
    && code in h.ledger && RoleRank(r) < h.ledger[code].rank && r != Owner
  }

  ghost predicate ChanGrants(h: Hub, a: int, c: int, k: ChanCmd, u: int, r: Role)
    requires c in h.chans
  {
    match k
    case Add(t) => u == t && r == Member && RoleRank(r) < h.Rank(a, c)
    case GiveRole(t, _) => u == t && r != Owner && RoleRank(r) < h.Rank(a, c) && CanTarget(h.Rank(a, c), h.Rank(u, c))
    case Transfer(t) =>
      h.Rank(a, c) >= 5 && ((u == t && r == Owner) || (u == a && r == Admin && RoleIn(h, c, u) == Some(Owner)))
    case _ => false
  }

  // ---- commands on a channel ---------------------------------------------------------------------

  lemma OneChanGains(chans: map<int, Chan>, x: int, ch: Chan, c: int, u: int)
    requires x in chans && Gains(chans, chans[x := ch], c, u)
    ensures c == x && u in ch.members && !(u in chans[x].members && chans[x].members[u] == ch.members[u])
  {
  }

  lemma ExpelGrants(h: Hub, a: int, x: int, t: int, ban: Option<int>, c: int, u: int)
    requires x in h.chans
    ensures !Gains(h.chans, Expel(h, a, x, t, ban).hub.chans, c, u)
  {
  }

  lemma ChangeRoleGrants(h: Hub, a: int, x: int, t: int, role: Option<Role>, c: int, u: int)
    requires x in h.chans && Gains(h.chans, ChangeRole(h, a, x, t, role).hub.chans, c, u)
    ensures x == c && ChanGrants(h, a, c, GiveRole(t, role), u, ChangeRole(h, a, x, t, role).hub.chans[c].members[u])
  {
  }

  lemma TransferGrants(h: Hub, a: int, x: int, t: int, c: int, u: int)
    requires x in h.chans && h.Rank(a, x) >= 5 && Gains(h.chans, TransferTo(h, a, x, t).hub.chans, c, u)
    ensures x == c && ChanGrants(h, a, c, Transfer(t), u, TransferTo(h, a, x, t).hub.chans[c].members[u])
  {
  }

  lemma AddGrants(h: Hub, a: int, x: int, t: int, c: int, u: int)
    requires x in h.chans && h.Rank(a, x) >= 3 && Gains(h.chans, AddTo(h, x, t).hub.chans, c, u)
    ensures x == c && ChanGrants(h, a, c, Add(t), u, AddTo(h, x, t).hub.chans[c].members[u])
  {
    OneChanGains(h.chans, x, h.chans[x].(members := h.chans[x].members[t := Member]), c, u);
  }

  lemma OnChanGrants(h: Hub, a: int, x: int, k: ChanCmd, c: int, u: int)
    requires Sane(h) && Gains(h.chans, OnChan(h, a, x, k).hub.chans, c, u)
    ensures x == c && c in h.chans && ChanGrants(h, a, c, k, u, OnChan(h, a, x, k).hub.chans[c].members[u])
  {
    if ChanRefusal(h, a, x, ActionOf(k)).None? {
      if k.Add? {
        AddGrants(h, a, x, k.t, c, u);
      } else if k.Kick? {
        ExpelGrants(h, a, x, k.t, None, c, u);
      } else if k.Ban? {
        ExpelGrants(h, a, x, k.t, Some(k.until), c, u);
      } else if k.GiveRole? {
        ChangeRoleGrants(h, a, x, k.t, k.role, c, u);
      } else if k.Transfer? {
        TransferGrants(h, a, x, k.t, c, u);
      } else {
        QuietGrants(h, a, x, k, c, u);
      }
    }
  }

  lemma QuietGrants(h: Hub, a: int, x: int, k: ChanCmd, c: int, u: int)
    requires !k.Add? && !k.Kick? && !k.Ban? && !k.GiveRole? && !k.Transfer?
    ensures !Gains(h.chans, OnChan(h, a, x, k).hub.chans, c, u)
  {
    match k
    case Leave =>
    case NewInvite(_, _, _, _, _, _) =>
    case _ =>
  }

  lemma RedeemGrants(h: Hub, x: int, code: int, c: int, u: int)
    requires Sane(h) && code in h.invites && h.invites[code].cid in h.chans &&
             Gains(h.chans, Redeem(h, x, code).chans, c, u)
    ensures u == x && InviteGrants(h, code, c, Redeem(h, x, code).chans[c].members[u])
  {
    var inv := h.invites[code];
    assert InviteOk(inv, h.ledger[code]);
    assert Redeem(h, x, code).chans == WithMember(h, inv.cid, x, inv.role).chans;
    OneChanGains(h.chans, inv.cid, h.chans[inv.cid].(members := h.chans[inv.cid].members[x := inv.role]), c, u);
  }

  lemma JoinGrants(h: Hub, a: int, code: int, now: int, c: int, u: int)
    requires Sane(h) && Gains(h.chans, JoinWith(h, a, code, now).hub.chans, c, u)
    ensures u == a && InviteGrants(h, code, c, JoinWith(h, a, code, now).hub.chans[c].members[u])
  {
    PrunedSane(h, code, now);
    RedeemGrants(h, a, code, c, u);
  }

  lemma InvitedGrants(h: Hub, code: int, pass: int, now: int, c: int, u: int)
    requires Sane(h) && Gains(h.chans, Invited(h, code, pass, now).hub.chans, c, u)
    ensures u == h.nextUser && InviteGrants(h, code, c, Invited(h, code, pass, now).hub.chans[c].members[u])
  {
    PrunedSane(h, code, now);
    NewUserSane(h, pass);
    RedeemGrants(NewUser(h, pass), h.nextUser, code, c, u);
  }

  lemma RegisteredGrants(h: Hub, pass: int, c: int, u: int)
    requires Sane(h) && Gains(h.chans, Registered(h, pass).hub.chans, c, u)
    ensures u == h.nextUser && c == h.def && Registered(h, pass).hub.chans[c].members[u] == Member
  {
    assert Registered(h, pass).hub.chans == WithMember(h, h.def, h.nextUser, Member).chans;
    OneChanGains(h.chans, h.def, h.chans[h.def].(members := h.chans[h.def].members[h.nextUser := Member]), c, u);
  }

  lemma EnrolledGrants(h: Hub, code: Option<int>, taken: bool, pass: int, now: int, c: int, u: int)
    requires Sane(h) && Gains(h.chans, Enrolled(h, code, taken, pass, now).hub.chans, c, u)
    ensures var r := Enrolled(h, code, taken, pass, now).hub.chans[c].members[u];
            u == h.nextUser && if code.Some? then InviteGrants(h, code.value, c, r) else c == h.def && r == Member
  {
    if code.Some? {
      InvitedGrants(h, code.value, pass, now, c, u);
    } else {
      RegisteredGrants(h, pass, c, u);
    }
  }

  /** Logging the new account in touches no channel. */
  lemma SignUpChans(h: Hub, st: Step)
    requires Enabled(h, st) && st.DoSignUp?
    ensures var h' := Enrolled(h, st.code, st.taken, st.pass, st.now).hub;
            Apply(h, st).chans == h'.chans && Apply(h, st).nextChan == h'.nextChan
  {
  }

  lemma CreateGrants(h: Hub, a: int, k: Cmd, c: int, u: int)
    requires Sane(h) && k.Create? &&
             Gains(h.chans, CreateChannel(h, a, k.name, k.goodName, k.goodExpire).hub.chans, c, u)
    ensures CmdGrants(h, a, k, c, u, CreateChannel(h, a, k.name, k.goodName, k.goodExpire).hub.chans[c].members[u])
  {
  }

  lemma AddUserGrants(h: Hub, a: int, k: Cmd, c: int, u: int)
    requires Sane(h) && k.UserAdd? && Gains(h.chans, AddUser(h, a, k.goodName, k.taken, k.pass).hub.chans, c, u)
    ensures CmdGrants(h, a, k, c, u, AddUser(h, a, k.goodName, k.taken, k.pass).hub.chans[c].members[u])
  {
    OneChanGains(h.chans, h.def, h.chans[h.def].(members := h.chans[h.def].members[h.nextUser := Member]), c, u);
  }

  predicate Elsewhere(k: Cmd) { !k.Create? && !k.Join? && !k.UserAdd? && !k.OnChannel? && !k.SetDefault? }

  lemma ElsewhereSame(h: Hub, s: int, k: Cmd, now: int)
    requires Enabled(h, DoCmd(s, k, now)) && Elsewhere(k)
    ensures HandleCmd(h, s, k, now).hub.chans == h.chans
  {
    match k
    case UserBan(_, _) =>
    case UserUnban(_) =>
    case UserMod(_, _) =>
    case _ =>
  }

  lemma CmdGrantsOnly(h: Hub, s: int, k: Cmd, now: int, c: int, u: int)
    requires Sane(h) && Enabled(h, DoCmd(s, k, now)) && Gains(h.chans, HandleCmd(h, s, k, now).hub.chans, c, u)
    ensures CmdGrants(h, h.sessions[s].user, k, c, u, HandleCmd(h, s, k, now).hub.chans[c].members[u])
  {
    var a := h.sessions[s].user;
    if !h.sessions[s].guest {
      if k.OnChannel? {
        OnChanGrants(h, a, k.c, k.k, c, u);
      } else if k.Join? {
        JoinGrants(h, a, k.code, now, c, u);
      } else if k.Create? {
        CreateGrants(h, a, k, c, u);
      } else if k.UserAdd? {
        AddUserGrants(h, a, k, c, u);
      } else if Elsewhere(k) {
        ElsewhereSame(h, s, k, now);
      }
    }
  }

  /** Every membership or role that a step brings about is one of those listed in `Grants`: it is given by
      somebody of higher rank, by a code whose maker had a higher rank, or it is the plain membership of a
      new account in the default channel; ownership comes only from creating or transferring. */
  lemma GrantsGoDown(h: Hub, st: Step, c: int, u: int)
    requires Sane(h) && Enabled(h, st) && Gains(h.chans, Apply(h, st).chans, c, u)
    ensures Grants(h, st, c, u, Apply(h, st).chans[c].members[u])
  {
    match st
    case DoCmd(s, k, now) => CmdGrantsOnly(h, s, k, now, c, u);
    case DoSignUp(s, code, taken, pass, token, v1, now) =>
      SignUpChans(h, st);
      EnrolledGrants(h, code, taken, pass, now, c, u);
    case _ =>
  }

  lemma OwnersAreMadeOrAppointed(h: Hub, st: Step, c: int, u: int)
    requires Sane(h) && Enabled(h, st)
    requires RoleIn(Apply(h, st), c, u) == Some(Owner) && RoleIn(h, c, u) != Some(Owner)
    ensures st.DoCmd? && var a := h.sessions[st.s].user;
            (st.k.Create? && u == a) ||
              (st.k.OnChannel? && st.k.c == c && st.k.k == Transfer(u) && c in h.chans && h.Rank(a, c) >= 5)
  {
    GrantsGoDown(h, st, c, u);
  }

  // ---- one owner ------------------------------------------------------------------------------------

  ghost predicate OnlyOwner(ch: Chan, o: int) {
    o in ch.members && forall u :: u in ch.members ==> (ch.members[u] == Owner <==> u == o)
  }

  ghost predicate OneOwner(ch: Chan) { exists o :: OnlyOwner(ch, o) }

  /** The commands by which server staff leave a channel with no owner, or with two. */
  predicate Dethrones(h: Hub, a: int, c: int, o: int, k: ChanCmd)
    requires c in h.chans
  {
    && h.Staff(a)
    && match k
       case Kick(t) => t == o && CanTarget(h.Rank(a, c), h.Rank(o, c))
       case Ban(t, _) => t == o && CanTarget(h.Rank(a, c), h.Rank(o, c))
       case GiveRole(t, role) => t == o && CanTarget(h.Rank(a, c), h.Rank(o, c)) && role.Some? && role.value != Owner
       case Transfer(t) => a != o && t != o && t != a && t in h.users && t in h.chans[c].members
       case _ => false
  }

  lemma OwnerRank(h: Hub, c: int, o: int, a: int)
    requires Sane(h) && c in h.chans && OnlyOwner(h.chans[c], o) && a in h.users && !h.Staff(a)
    ensures o in h.users && h.Rank(o, c) >= 5
    ensures h.Rank(a, c) >= 5 <==> a == o
    ensures !CanTarget(h.Rank(a, c), h.Rank(o, c))
  {
    assert ChanOk(h.chans[c], h.nextUser);
  }

  lemma ExpelOwner(h: Hub, a: int, c: int, t: int, ban: Option<int>, o: int)
    requires Sane(h) && a in h.users && c in h.chans && OnlyOwner(h.chans[c], o) && h.Sees(a, c)
    ensures var h' := Expel(h, a, c, t, ban).hub;
            && c in h'.chans
            && (OneOwner(h'.chans[c]) <==> !(h.Staff(a) && t == o && CanTarget(h.Rank(a, c), h.Rank(o, c))))
            && (OneOwner(h'.chans[c]) ==> OnlyOwner(h'.chans[c], o))
  {
    if !h.Staff(a) {
      OwnerRank(h, c, o, a);
    }
    assert ChanOk(h.chans[c], h.nextUser);
    var h' := Expel(h, a, c, t, ban).hub;
    if t == o && TargetRefusal(h, a, c, t).None? {
      assert forall u :: u in h'.chans[c].members ==> h'.chans[c].members[u] != Owner;
    } else {
      assert OnlyOwner(h'.chans[c], o);
    }
  }

  lemma RoleOwner(h: Hub, a: int, c: int, t: int, role: Option<Role>, o: int)
    requires Sane(h) && a in h.users && c in h.chans && OnlyOwner(h.chans[c], o) && h.Sees(a, c)
    ensures var h' := ChangeRole(h, a, c, t, role).hub;
            && c in h'.chans
            && (OneOwner(h'.chans[c]) <==> !Dethrones(h, a, c, o, GiveRole(t, role)))
            && (OneOwner(h'.chans[c]) ==> OnlyOwner(h'.chans[c], o))
  {
    if !h.Staff(a) {
      OwnerRank(h, c, o, a);
    }
    assert ChanOk(h.chans[c], h.nextUser);
    var h' := ChangeRole(h, a, c, t, role).hub;
    if t == o && ChangeRole(h, a, c, t, role).reply == Done {
      assert forall u :: u in h'.chans[c].members ==> h'.chans[c].members[u] != Owner;
    } else {
      assert OnlyOwner(h'.chans[c], o);
    }
  }

  lemma TransferOwner(h: Hub, a: int, c: int, t: int, o: int)
    requires Sane(h) && a in h.users && c in h.chans && OnlyOwner(h.chans[c], o) && h.Rank(a, c) >= 5
    ensures var h' := TransferTo(h, a, c, t).hub;
            && c in h'.chans
            && (OneOwner(h'.chans[c]) <==> !Dethrones(h, a, c, o, Transfer(t)))
            && (OneOwner(h'.chans[c]) ==> OnlyOwner(h'.chans[c], o) || (a == o && OnlyOwner(h'.chans[c], t)))
  {
    if !h.Staff(a) {
      OwnerRank(h, c, o, a);
    }
    assert ChanOk(h.chans[c], h.nextUser);
    var ch' := TransferTo(h, a, c, t).hub.chans[c];
    if TransferTo(h, a, c, t).reply != Done {
      assert OnlyOwner(ch', o);
    } else if a == o {
      assert OnlyOwner(ch', t);
    } else if t == o {
      assert OnlyOwner(ch', o);
    } else {
      assert o in ch'.members && t in ch'.members && ch'.members[o] == Owner && ch'.members[t] == Owner;
    }
  }

  lemma QuietOwner(h: Hub, a: int, c: int, k: ChanCmd, o: int)
    requires Sane(h) && a in h.users && c in h.chans && OnlyOwner(h.chans[c], o)
    requires !k.Kick? && !k.Ban? && !k.GiveRole? && !k.Transfer? && !k.Delete?
    ensures c in OnChan(h, a, c, k).hub.chans && OnlyOwner(OnChan(h, a, c, k).hub.chans[c], o)
  {
    match k
    case Leave =>
    case Add(t) =>
    case Unban(t) =>
    case NewInvite(_, _, _, _, _, _) =>
    case _ =>
  }

  /** A command on a channel that has one owner leaves it with one owner, exactly when it is not one of the
      listed interventions of server staff (or deletes the channel). */
  lemma OneOwnerKept(h: Hub, a: int, c: int, k: ChanCmd, o: int)
    requires Sane(h) && a in h.users && c in h.chans && OnlyOwner(h.chans[c], o)
    ensures var h' := OnChan(h, a, c, k).hub;
            c in h'.chans ==> (OneOwner(h'.chans[c]) <==> !Dethrones(h, a, c, o, k))
  {
    var h' := OnChan(h, a, c, k).hub;
    assert h.Staff(a) ==> h.Sees(a, c) && h.Rank(a, c) >= 6;
    if ChanRefusal(h, a, c, ActionOf(k)).Some? {
      assert OnlyOwner(h'.chans[c], o);
    } else if k.Kick? {
      ExpelOwner(h, a, c, k.t, None, o);
    } else if k.Ban? {
      ExpelOwner(h, a, c, k.t, Some(k.until), o);
    } else if k.GiveRole? {
      RoleOwner(h, a, c, k.t, k.role, o);
    } else if k.Transfer? {
      TransferOwner(h, a, c, k.t, o);
    } else if k.Delete? {
      assert c in h'.chans ==> OnlyOwner(h'.chans[c], o);
    } else {
      QuietOwner(h, a, c, k, o);
    }
  }

  // ---- over runs ---------------------------------------------------------------------------------------

  /** No server staff kicks, bans, changes a role or transfers in `c`. */
  predicate StaffAbstains(h: Hub, st: Step, c: int)
    requires Enabled(h, st)
  {
    st.DoCmd? && st.k.OnChannel? && st.k.c == c && h.Staff(h.sessions[st.s].user) ==>
      !st.k.k.Kick? && !st.k.k.Ban? && !st.k.k.GiveRole? && !st.k.k.Transfer?
  }

  lemma CmdOwner(h: Hub, s: int, k: Cmd, now: int, c: int, o: int)
    requires Sane(h) && Enabled(h, DoCmd(s, k, now)) && StaffAbstains(h, DoCmd(s, k, now), c)
    requires c in h.chans && OnlyOwner(h.chans[c], o)
    ensures var h' := HandleCmd(h, s, k, now).hub;
            c in h'.chans ==> OneOwner(h'.chans[c])
  {
    var a := h.sessions[s].user;
    var h' := HandleCmd(h, s, k, now).hub;
    if h.sessions[s].guest {
    } else if k.OnChannel? {
      if k.c == c {
        OneOwnerKept(h, a, c, k.k, o);
      } else {
        OtherChan(h, a, k.c, k.k, c);
      }
    } else if c in h'.chans {
      forall u | u in h'.chans[c].members && Gains(h.chans, h'.chans, c, u) ensures h'.chans[c].members[u] != Owner {
        CmdGrantsOnly(h, s, k, now, c, u);
      }
      OwnerLeftAlone(h, s, k, now, c);
      assert OnlyOwner(h'.chans[c], o);
    }
  }

  lemma ExpelOther(h: Hub, a: int, x: int, t: int, ban: Option<int>, c: int)
    requires c in h.chans && x in h.chans && x != c
    ensures c in Expel(h, a, x, t, ban).hub.chans && Expel(h, a, x, t, ban).hub.chans[c] == h.chans[c]
  {
  }

  lemma RolesOther(h: Hub, a: int, x: int, t: int, role: Option<Role>, c: int)
    requires c in h.chans && x in h.chans && x != c
    ensures c in ChangeRole(h, a, x, t, role).hub.chans && ChangeRole(h, a, x, t, role).hub.chans[c] == h.chans[c]
    ensures c in TransferTo(h, a, x, t).hub.chans && TransferTo(h, a, x, t).hub.chans[c] == h.chans[c]
  {
  }

  lemma LeaveOther(h: Hub, a: int, x: int, c: int)
    requires c in h.chans && x in h.chans && x != c
    ensures c in LeaveChan(h, a, x).hub.chans && LeaveChan(h, a, x).hub.chans[c] == h.chans[c]
  {
  }

  lemma OtherChan(h: Hub, a: int, x: int, k: ChanCmd, c: int)
    requires c in h.chans && x != c
    ensures c in OnChan(h, a, x, k).hub.chans && OnChan(h, a, x, k).hub.chans[c] == h.chans[c]
  {
    if ChanRefusal(h, a, x, ActionOf(k)).None? {
      if k.Kick? {
        ExpelOther(h, a, x, k.t, None, c);
      } else if k.Ban? {
        ExpelOther(h, a, x, k.t, Some(k.until), c);
      } else if k.GiveRole? {
        RolesOther(h, a, x, k.t, k.role, c);
      } else if k.Transfer? {
        RolesOther(h, a, x, k.t, None, c);
      } else if k.Leave? {
        LeaveOther(h, a, x, c);
      }
    }
  }

  ghost predicate Stay(chans: map<int, Chan>, chans': map<int, Chan>, c: int)
    requires c in chans
  {
    c in chans' && forall u :: u in chans[c].members ==>
      u in chans'[c].members && chans'[c].members[u] == chans[c].members[u]
  }

  lemma RedeemStay(h: Hub, x: int, code: int, c: int)
    requires code in h.invites && h.invites[code].cid in h.chans && c in h.chans
    requires x !in h.chans[h.invites[code].cid].members
    ensures Stay(h.chans, Redeem(h, x, code).chans, c)
  {
    assert Redeem(h, x, code).chans == WithMember(h, h.invites[code].cid, x, h.invites[code].role).chans;
  }

  lemma JoinStay(h: Hub, a: int, code: int, now: int, c: int)
    requires Sane(h) && c in h.chans
    ensures Stay(h.chans, JoinWith(h, a, code, now).hub.chans, c)
  {
    PrunedSane(h, code, now);
    if code in h.invites && h.invites[code].cid in h.chans && a !in h.chans[h.invites[code].cid].members {
      RedeemStay(h, a, code, c);
    }
  }

  lemma AddUserStay(h: Hub, a: int, k: Cmd, c: int)
    requires Sane(h) && k.UserAdd? && c in h.chans
    ensures Stay(h.chans, AddUser(h, a, k.goodName, k.taken, k.pass).hub.chans, c)
  {
    NewUserSane(h, k.pass);
  }

  lemma OwnerLeftAlone(h: Hub, s: int, k: Cmd, now: int, c: int)
    requires Sane(h) && Enabled(h, DoCmd(s, k, now)) && !k.OnChannel? && c in h.chans
    ensures Stay(h.chans, HandleCmd(h, s, k, now).hub.chans, c)
  {
    var a := h.sessions[s].user;
    if Elsewhere(k) {
      ElsewhereSame(h, s, k, now);
    } else if k.Join? {
      JoinStay(h, a, k.code, now, c);
    } else if k.UserAdd? {
      AddUserStay(h, a, k, c);
    }
  }

  ghost predicate RunAbstains(h: Hub, steps: seq<Step>, c: int)
    requires Possible(h, steps)
    decreases |steps|
  {
    steps == [] || (StaffAbstains(h, steps[0], c) && RunAbstains(Apply(h, steps[0]), steps[1..], c))
  }

  lemma SignUpOwner(h: Hub, st: Step, c: int, o: int)
    requires Sane(h) && Enabled(h, st) && st.DoSignUp? && c in h.chans && OnlyOwner(h.chans[c], o)
    ensures c in Apply(h, st).chans && OnlyOwner(Apply(h, st).chans[c], o)
  {
    SignUpChans(h, st);
    EnrolledStay(h, st.code, st.taken, st.pass, st.now, c);
    forall u | Gains(h.chans, Apply(h, st).chans, c, u) ensures Apply(h, st).chans[c].members[u] != Owner {
      EnrolledGrants(h, st.code, st.taken, st.pass, st.now, c, u);
    }
  }

  lemma InvitedStay(h: Hub, code: int, pass: int, now: int, c: int)
    requires Sane(h) && c in h.chans
    ensures Stay(h.chans, Invited(h, code, pass, now).hub.chans, c)
  {
    PrunedSane(h, code, now);
    NewUserSane(h, pass);
    if Invited(h, code, pass, now).reply == Done {
      RedeemStay(NewUser(h, pass), h.nextUser, code, c);
    }
  }

  lemma RegisteredStay(h: Hub, pass: int, c: int)
    requires Sane(h) && c in h.chans
    ensures Stay(h.chans, Registered(h, pass).hub.chans, c)
  {
    NewUserSane(h, pass);
  }

  lemma EnrolledStay(h: Hub, code: Option<int>, taken: bool, pass: int, now: int, c: int)
    requires Sane(h) && c in h.chans
    ensures Stay(h.chans, Enrolled(h, code, taken, pass, now).hub.chans, c)
  {
    if code.Some? {
      InvitedStay(h, code.value, pass, now, c);
    } else {
      RegisteredStay(h, pass, c);
    }
  }

  lemma StepOwner(h: Hub, st: Step, c: int)
    requires Sane(h) && Enabled(h, st) && StaffAbstains(h, st, c) && c in h.chans && OneOwner(h.chans[c])
    ensures c in Apply(h, st).chans ==> OneOwner(Apply(h, st).chans[c])
  {
    var o :| OnlyOwner(h.chans[c], o);
    if st.DoCmd? {
      CmdOwner(h, st.s, st.k, st.now, c, o);
    } else if st.DoSignUp? {
      SignUpOwner(h, st, c, o);
    } else {
      assert c in Apply(h, st).chans && Apply(h, st).chans[c].members == h.chans[c].members;
      assert OnlyOwner(Apply(h, st).chans[c], o);
    }
  }

  lemma EnrolledChans(h: Hub, code: Option<int>, taken: bool, pass: int, now: int)
    requires Sane(h)
    ensures var h' := Enrolled(h, code, taken, pass, now).hub;
            h'.nextChan == h.nextChan && forall c :: c in h'.chans ==> c in h.chans
  {
    if code.Some? {
      PrunedSane(h, code.value, now);
    }
  }

  lemma GoneStep(h: Hub, st: Step, c: int)
    requires Sane(h) && Enabled(h, st) && c !in h.chans && c < h.nextChan
    ensures c !in Apply(h, st).chans && c < Apply(h, st).nextChan
  {
    if st.DoCmd? {
      GoneCmd(h, st.s, st.k, st.now, c);
    } else if st.DoSignUp? {
      SignUpChans(h, st);
      EnrolledChans(h, st.code, st.taken, st.pass, st.now);
    } else {
      assert forall x :: x in Apply(h, st).chans <==> x in h.chans;
    }
  }

  lemma GoneCmd(h: Hub, s: int, k: Cmd, now: int, c: int)
    requires Sane(h) && Enabled(h, DoCmd(s, k, now)) && c !in h.chans && c < h.nextChan
    ensures c !in HandleCmd(h, s, k, now).hub.chans && c < HandleCmd(h, s, k, now).hub.nextChan
  {
    if Elsewhere(k) {
      ElsewhereSame(h, s, k, now);
    } else if k.Join? {
      PrunedSane(h, k.code, now);
    } else if k.OnChannel? {
      GoneChan(h, h.sessions[s].user, k.c, k.k, c);
    }
  }

  lemma GoneChan(h: Hub, a: int, x: int, k: ChanCmd, c: int)
    requires c !in h.chans && c < h.nextChan
    ensures c !in OnChan(h, a, x, k).hub.chans && c < OnChan(h, a, x, k).hub.nextChan
  {
    match k
    case Leave =>
    case Add(_) =>
    case Kick(_) =>
    case Ban(_, _) =>
    case GiveRole(_, _) =>
    case Transfer(_) =>
    case _ =>
  }

  ghost predicate Owned(h: Hub, c: int) {
    c < h.nextChan && (c in h.chans ==> OneOwner(h.chans[c]))
  }

  lemma OwnedStep(h: Hub, st: Step, c: int)
    requires Sane(h) && Enabled(h, st) && StaffAbstains(h, st, c) && Owned(h, c)
    ensures Owned(Apply(h, st), c)
  {
    ApplySane(h, st);
    if c in h.chans {
      StepOwner(h, st, c);
      NextChanGrows(h, st);
    } else {
      GoneStep(h, st, c);
    }
  }

  lemma NextChanGrows(h: Hub, st: Step)
    requires Sane(h) && Enabled(h, st)
    ensures Apply(h, st).nextChan >= h.nextChan
  {
    if st.DoSignUp? {
      SignUpChans(h, st);
      EnrolledChans(h, st.code, st.taken, st.pass, st.now);
    } else if st.DoCmd? {
      CmdNextChan(h, st.s, st.k, st.now);
    }
  }

  lemma CmdNextChan(h: Hub, s: int, k: Cmd, now: int)
    requires Enabled(h, DoCmd(s, k, now))
    ensures HandleCmd(h, s, k, now).hub.nextChan >= h.nextChan
  {
    if k.OnChannel? {
      ChanNextChan(h, h.sessions[s].user, k.c, k.k);
    }
  }

  lemma ChanNextChan(h: Hub, a: int, c: int, k: ChanCmd)
    ensures OnChan(h, a, c, k).hub.nextChan == h.nextChan
  {
  }

  lemma {:induction false} OwnedRun(h: Hub, steps: seq<Step>, c: int)
    requires Sane(h) && Possible(h, steps) && Owned(h, c) && RunAbstains(h, steps, c)
    ensures Owned(Run(h, steps), c)
    decreases |steps|
  {
    if steps != [] {
      ApplySane(h, steps[0]);
      OwnedStep(h, steps[0], c);
      OwnedRun(Apply(h, steps[0]), steps[1..], c);
    }
  }

  /** From its creation on, a channel in which no server staff kicks, bans, transfers or changes a role has
      exactly one owner for as long as it exists. */
  lemma OneOwnerInRuns(h: Hub, s: int, name: string, now: int, steps: seq<Step>)
    requires Sane(h) && Enabled(h, DoCmd(s, Create(name, true, true), now))
    requires var h1 := Apply(h, DoCmd(s, Create(name, true, true), now));
             h.nextChan in h1.chans && Possible(h1, steps) && RunAbstains(h1, steps, h.nextChan)
    ensures var h2 := Run(Apply(h, DoCmd(s, Create(name, true, true), now)), steps);
            h.nextChan in h2.chans ==> OneOwner(h2.chans[h.nextChan])
  {
    var st := DoCmd(s, Create(name, true, true), now);
    var h1 := Apply(h, st);
    ApplySane(h, st);
    assert OnlyOwner(h1.chans[h.nextChan], h.sessions[s].user);
    OwnedRun(h1, steps, h.nextChan);
  }
}
