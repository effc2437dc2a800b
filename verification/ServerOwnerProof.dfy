/** The hub has exactly one owner account, whatever order `usermod` visits its arguments in and wherever it
    stops; nobody else's command touches it. */
module ServerOwnerProof {
  import opened Util
  import opened Perms
  import opened Access
  import opened MembershipProof

  ghost predicate IsOwner(users: map<int, Account>, o: int) {
    o in users && forall u :: u in users ==> (users[u].role == ServerOwner <==> u == o)
  }

  // ---- usermod -----------------------------------------------------------------------------------

  lemma ModOneOwner(m: Modified, u: int, t: int, a: Arg, o: int)
    requires u in m.users && t in m.users && IsOwner(m.users, o)
    ensures IsOwner(ModOne(m, u, t, a).users, if u == o && t != o && a == RoleArg(Some(ServerOwner)) then t else o)
  {
  }

  /** In whatever order the arguments come and wherever the command stops, there is one owner afterwards:
      the same as before, or the account the owner has just appointed. */
  lemma {:induction false} ModAllOwner(m: Modified, u: int, t: int, args: seq<Arg>, o: int)
    requires u in m.users && t in m.users && IsOwner(m.users, o)
    ensures IsOwner(ModAll(m, u, t, args).users, o) ||
            (u == o && t != o && RoleArg(Some(ServerOwner)) in args && IsOwner(ModAll(m, u, t, args).users, t))
  {
    if args != [] {
      var n := |args| - 1;
      ModAllOwner(m, u, t, args[..n], o);
      assert args == args[..n] + [args[n]];
      var m1 := ModAll(m, u, t, args[..n]);
      if m1.reply == Done {
        if IsOwner(m1.users, o) {
          ModOneOwner(m1, u, t, args[n], o);
        } else {
          ModOneOwner(m1, u, t, args[n], t);
        }
      }
    }
  }

  ghost predicate SameAccount(m: Modified, m': Modified, o: int) {
    && (o in m.users <==> o in m'.users) && (o in m.users ==> m'.users[o] == m.users[o])
    && forall k :: (k in m.saved && m.saved[k] == o) <==> (k in m'.saved && m'.saved[k] == o)
  }

  lemma ModOneSpares(m: Modified, u: int, t: int, a: Arg, o: int)
    requires u in m.users && t in m.users && IsOwner(m.users, o) && u != o
    ensures SameAccount(m, ModOne(m, u, t, a), o) && IsOwner(ModOne(m, u, t, a).users, o)
  {
    ModOneOwner(m, u, t, a, o);
  }

  lemma {:induction false} ModAllSpares(m: Modified, u: int, t: int, args: seq<Arg>, o: int)
    requires u in m.users && t in m.users && IsOwner(m.users, o) && u != o
    ensures SameAccount(m, ModAll(m, u, t, args), o) && IsOwner(ModAll(m, u, t, args).users, o)
  {
    if args != [] {
      var n := |args| - 1;
      ModAllSpares(m, u, t, args[..n], o);
      if ModAll(m, u, t, args[..n]).reply == Done {
        ModOneSpares(ModAll(m, u, t, args[..n]), u, t, args[n], o);
      }
    }
  }

  // ---- every step -------------------------------------------------------------------------------------

  function AccountsOf(h: Hub): Modified { Modified(h.users, h.saved, Done) }

  lemma CmdSpares(h: Hub, s: int, k: Cmd, now: int, o: int)
    requires Sane(h) && Enabled(h, DoCmd(s, k, now)) && IsOwner(h.users, o) && h.sessions[s].user != o
    ensures SameAccount(AccountsOf(h), AccountsOf(HandleCmd(h, s, k, now).hub), o)
    ensures IsOwner(HandleCmd(h, s, k, now).hub.users, o)
  {
    var u := h.sessions[s].user;
    if h.sessions[s].guest {
    } else if k.UserMod? {
      if h.Staff(u) && k.t in h.users && k.args != [] {
        ModAllSpares(AccountsOf(h), u, k.t, k.args, o);
      }
    } else if k.OnChannel? {
      ChanSameAccounts(h, u, k.c, k.k);
    } else {
      OtherSpares(h, s, k, now, o);
    }
  }

  lemma ChanSameAccounts(h: Hub, u: int, c: int, k: ChanCmd)
    ensures OnChan(h, u, c, k).hub.users == h.users && OnChan(h, u, c, k).hub.saved == h.saved
  {
  }

  lemma JoinSameAccounts(h: Hub, u: int, code: int, now: int)
    ensures JoinWith(h, u, code, now).hub.users == h.users && JoinWith(h, u, code, now).hub.saved == h.saved
  {
    var h1 := Pruned(h, code, now);
    assert h1.users == h.users && h1.saved == h.saved;
    if code in h1.invites && h1.invites[code].cid in h1.chans {
      RedeemSameAccounts(h1, u, code);
    }
  }

  lemma RedeemSameAccounts(h: Hub, u: int, code: int)
    requires code in h.invites && h.invites[code].cid in h.chans
    ensures Redeem(h, u, code).users == h.users && Redeem(h, u, code).saved == h.saved
  {
  }

  lemma OtherSpares(h: Hub, s: int, k: Cmd, now: int, o: int)
    requires Sane(h) && Enabled(h, DoCmd(s, k, now)) && IsOwner(h.users, o) && h.sessions[s].user != o
    requires !h.sessions[s].guest && !k.UserMod? && !k.OnChannel?
    ensures SameAccount(AccountsOf(h), AccountsOf(HandleCmd(h, s, k, now).hub), o)
    ensures IsOwner(HandleCmd(h, s, k, now).hub.users, o)
  {
    var u := h.sessions[s].user;
    if k.Join? {
      JoinSameAccounts(h, u, k.code, now);
    } else if k.UserBan? {
      StatusSpares(h, u, k.t, Banned(k.until), o);
    } else if k.UserUnban? {
      StatusSpares(h, u, k.t, Active, o);
    } else if k.UserAdd? {
      AddUserSpares(h, u, k, o);
    }
  }

  lemma AddUserSpares(h: Hub, u: int, k: Cmd, o: int)
    requires Sane(h) && IsOwner(h.users, o) && k.UserAdd?
    ensures var h' := AddUser(h, u, k.goodName, k.taken, k.pass).hub;
            SameAccount(AccountsOf(h), AccountsOf(h'), o) && IsOwner(h'.users, o)
  {
  }

  lemma StatusSpares(h: Hub, u: int, t: int, status: Status, o: int)
    requires IsOwner(h.users, o) && u in h.users
    ensures SameAccount(AccountsOf(h), AccountsOf(SetStatus(h, u, t, status).hub), o)
    ensures IsOwner(SetStatus(h, u, t, status).hub.users, o)
  {
  }

  lemma OwnCmdKeepsOneOwner(h: Hub, s: int, k: Cmd, now: int, o: int)
    requires Sane(h) && Enabled(h, DoCmd(s, k, now)) && IsOwner(h.users, o) && h.sessions[s].user == o
    ensures var users' := HandleCmd(h, s, k, now).hub.users;
            IsOwner(users', o) || (k.UserMod? && k.t != o && RoleArg(Some(ServerOwner)) in k.args &&
              IsOwner(users', k.t))
  {
    if k.UserMod? {
      if k.t in h.users && k.args != [] {
        ModAllOwner(AccountsOf(h), o, k.t, k.args, o);
      }
    } else if k.OnChannel? {
      ChanSameAccounts(h, o, k.c, k.k);
    } else if k.Join? {
      JoinSameAccounts(h, o, k.code, now);
    } else {
      OwnOther(h, s, k, now, o);
    }
  }

  lemma OwnOther(h: Hub, s: int, k: Cmd, now: int, o: int)
    requires Sane(h) && Enabled(h, DoCmd(s, k, now)) && IsOwner(h.users, o) && h.sessions[s].user == o
    requires !k.UserMod? && !k.OnChannel? && !k.Join?
    ensures IsOwner(HandleCmd(h, s, k, now).hub.users, o)
  {
    match k
    case UserBan(t, until) => StatusSpares(h, o, t, Banned(until), o);
    case UserUnban(t) => StatusSpares(h, o, t, Active, o);
    case _ =>
  }

  /** No command of anybody else changes the owner's role, status, password or saved sessions. */
  lemma OwnerUntouched(h: Hub, s: int, k: Cmd, now: int, o: int)
    requires Sane(h) && Enabled(h, DoCmd(s, k, now)) && IsOwner(h.users, o) && h.sessions[s].user != o
    ensures var h' := HandleCmd(h, s, k, now).hub;
            && o in h'.users && h'.users[o] == h.users[o]
            && forall k :: (k in h.saved && h.saved[k] == o) <==> (k in h'.saved && h'.saved[k] == o)
  {
    CmdSpares(h, s, k, now, o);
  }

  lemma HelloOwner(h: Hub, st: Step, o: int)
    requires Sane(h) && Enabled(h, st) && IsOwner(h.users, o) && (st.DoSignUp? || st.DoLogin? || st.DoGuest?)
    ensures IsOwner(Apply(h, st).users, o)
  {
    if st.DoSignUp? {
      EnrolledOwner(h, st.code, st.taken, st.pass, st.now, o);
      assert Apply(h, st).users == Enrolled(h, st.code, st.taken, st.pass, st.now).hub.users;
    }
  }

  lemma EnrolledOwner(h: Hub, code: Option<int>, taken: bool, pass: int, now: int, o: int)
    requires Sane(h) && IsOwner(h.users, o)
    ensures IsOwner(Enrolled(h, code, taken, pass, now).hub.users, o)
  {
    if code.Some? {
      PrunedSane(h, code.value, now);
    }
  }

  lemma StepOwner(h: Hub, st: Step, o: int) returns (o': int)
    requires Sane(h) && Enabled(h, st) && IsOwner(h.users, o)
    ensures IsOwner(Apply(h, st).users, o')
    ensures o' != o ==> st.DoCmd? && h.sessions[st.s].user == o && st.k.UserMod? && st.k.t == o'
    ensures o' != o ==> RoleArg(Some(ServerOwner)) in st.k.args
  {
    o' := o;
    if st.DoCmd? {
      if h.sessions[st.s].user == o {
        OwnCmdKeepsOneOwner(h, st.s, st.k, st.now, o);
        if !IsOwner(HandleCmd(h, st.s, st.k, st.now).hub.users, o) {
          o' := st.k.t;
        }
      } else {
        CmdSpares(h, st.s, st.k, st.now, o);
      }
    } else if st.DoSignUp? || st.DoLogin? || st.DoGuest? {
      HelloOwner(h, st, o);
    }
  }

  /** There is always exactly one server owner. */
  lemma {:induction false} OneServerOwner(h: Hub, steps: seq<Step>, o: int) returns (o': int)
    requires Sane(h) && Possible(h, steps) && IsOwner(h.users, o)
    ensures IsOwner(Run(h, steps).users, o')
    decreases |steps|
  {
    o' := o;
    if steps != [] {
      ApplySane(h, steps[0]);
      o' := StepOwner(h, steps[0], o);
      o' := OneServerOwner(Apply(h, steps[0]), steps[1..], o');
    }
  }

  lemma ExactlyOneServerOwner(pass: int, maxUsers: nat, maxChannels: nat, steps: seq<Step>)
    requires Possible(Init(pass, maxUsers, maxChannels), steps)
    ensures exists o :: IsOwner(Run(Init(pass, maxUsers, maxChannels), steps).users, o)
  {
    var o := OneServerOwner(Init(pass, maxUsers, maxChannels), steps, 1);
  }
}
