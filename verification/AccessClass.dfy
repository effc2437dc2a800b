/** The hub's account, channel, invite and session fields and the methods that change them (hub.go, cmds.go,
    limits.go), each proved to do what Access defines. */
module AccessClass {
  import opened Util
  import opened Perms
  import opened Access
  import opened MembershipProof
  import opened ServerOwnerProof

  // ---- loops over maps, one key at a time -----------------------------------------------------

  function UnsubBut(ss: map<int, Session>, u: int, c: int, todo: set<int>): map<int, Session> {
    map s | s in ss :: if ss[s].user == u && s !in todo then ss[s].(subs := ss[s].subs - {c}) else ss[s]
  }

  function LeftBut(ss: map<int, Session>, c: int, todo: set<int>): map<int, Session> {
    map s | s in ss :: if s !in todo then ss[s].(subs := ss[s].subs - {c}) else ss[s]
  }

  function InvitesBut(invites: map<int, Invite>, c: int, todo: set<int>): map<int, Invite> {
    map k | k in invites && (k in todo || invites[k].cid != c) :: invites[k]
  }

  function UnspentBut(invites: map<int, Invite>, now: int, todo: set<int>): map<int, Invite> {
    map k | k in invites && (k in todo || !Spent(invites[k], now)) :: invites[k]
  }

  function BansBut(bans: map<int, int>, now: int, todo: set<int>): map<int, int> {
    map u | u in bans && (u in todo || !(bans[u] > 0 && bans[u] < now)) :: bans[u]
  }

  function SweptChansBut(chans: map<int, Chan>, now: int, todo: set<int>): map<int, Chan> {
    map c | c in chans :: if c in todo then chans[c] else SweptChan(chans[c], now)
  }

  function SweptUsersBut(users: map<int, Account>, now: int, todo: set<int>): map<int, Account> {
    map u | u in users :: if u in todo then users[u] else SweptAccount(users[u], now)
  }

  function SavedBut(saved: map<int, int>, t: int, todo: set<int>): map<int, int> {
    map k | k in saved && (k in todo || saved[k] != t) :: saved[k]
  }

  function FlaggedBut(chans: map<int, Chan>, todo: set<int>): map<int, Chan> {
    map x | x in chans :: if x in todo then chans[x] else chans[x].(isDefault := false)
  }

  // ---- what a command that is done has done -----------------------------------------------------

  /** No session of the account listens to the channel. */
  predicate SilentIn(ss: map<int, Session>, u: int, c: int) {
    forall s :: s in ss && ss[s].user == u ==> c !in ss[s].subs
  }

  ghost predicate Banished(was: Hub, h: Hub, u: int, c: int, t: int) {
    && c in was.chans && c in h.chans && t in h.chans[c].bans && t !in h.chans[c].members
    && SilentIn(h.sessions, t, c) && was.Rank(u, c) > was.Rank(t, c)
  }

  lemma BanDone(h: Hub, u: int, c: int, t: int, until: int)
    requires Sane(h)
    ensures var o := OnChan(h, u, c, ChanCmd.Ban(t, until));
            Sane(o.hub) && (o.reply == Done ==> Banished(h, o.hub, u, c, t))
  {
    OnChanSane(h, u, c, ChanCmd.Ban(t, until));
  }

  ghost predicate HandedOver(h: Hub, u: int, c: int, t: int) {
    && c in h.chans && t in h.chans[c].members && h.chans[c].members[t] == Owner
    && (u in h.chans[c].members ==> h.chans[c].members[u] != Owner)
  }

  lemma TransferDone(h: Hub, u: int, c: int, t: int)
    requires Sane(h)
    ensures var o := OnChan(h, u, c, ChanCmd.Transfer(t));
            Sane(o.hub) && (o.reply == Done ==> HandedOver(o.hub, u, c, t))
  {
    OnChanSane(h, u, c, ChanCmd.Transfer(t));
  }

  class AccessHub {
    var users: map<int, Account>
    var chans: map<int, Chan>
    var invites: map<int, Invite>
    var saved: map<int, int>
    var sessions: map<int, Session>
    var nextUser: int
    var nextChan: int
    var def: int
    var openChannels: bool
    var registration: Registration
    const maxUsers: nat
    const maxChannels: nat
    ghost var ledger: map<int, Ledger>

    ghost function Snap(): Hub
      reads this
    {
      Hub(users, chans, invites, saved, sessions, nextUser, nextChan, def, openChannels, registration, maxUsers,
        maxChannels, ledger)
    }

    /** What every run keeps: between two calls no account is both member and banned, uses left and
        memberships created add up for every code, and no open code gives a rank its maker did not exceed. */
    ghost predicate Valid()
      reads this
    {
      Sane(Snap())
    }

    constructor (pass: int, maxUsers: nat, maxChannels: nat)
      ensures Snap() == Init(pass, maxUsers, maxChannels) && Valid()
    {
      this.maxUsers, this.maxChannels := maxUsers, maxChannels;
      users := map[1 := Account(ServerOwner, Active, pass)];
      chans := map[1 := Chan("general", map[1 := Owner], map[], true)];
      invites, saved, sessions, ledger := map[], map[], map[], map[];
      nextUser, nextChan, def, openChannels, registration := 2, 2, 1, false, ByInvite;
    }

    // ---- reading ---------------------------------------------------------------------------

    function RoleOf(u: int): ServerRole
      reads this
    {
      if u in users then users[u].role else Guest
    }

    method RankIn(u: int, c: int) returns (rank: nat)
      requires c in chans
      ensures rank == Snap().Rank(u, c)
    {
      var role := RoleOf(u);
      if role == ServerOwner {
        return SERVER_OWNER;
      }
      if role == ServerAdmin {
        return SERVER_ADMIN;
      }
      if role == Guest {
        return if chans[c].isDefault then 2 else NONE;
      }
      if u !in chans[c].members {
        return NONE;
      }
      rank := RoleRank(chans[c].members[u]);
    }

    method ChanCtx(u: int, c: int, a: Action) returns (refusal: Option<Code>, rank: nat)
      ensures refusal == ChanRefusal(Snap(), u, c, a)
      ensures refusal.None? ==> c in chans && rank == Snap().Rank(u, c)
    {
      rank := NONE;
      if c in chans {
        rank := RankIn(u, c);
      }
      if rank == NONE {
        return Some(NoChan), rank;
      }
      if !Can(rank, a) {
        return Some(Perm), rank;
      }
      refusal := None;
    }

    method Target(ghost u: int, c: int, rank: nat, t: int) returns (refusal: Option<Code>)
      requires c in chans && rank == Snap().Rank(u, c)
      ensures refusal == TargetRefusal(Snap(), u, c, t)
    {
      if t !in users || (t !in chans[c].members && ServerRank(RoleOf(t)) < 2) {
        return Some(NotFound);
      }
      var tr := RankIn(t, c);
      refusal := if CanTarget(rank, tr) then None else Some(Perm);
    }

    // ---- sessions --------------------------------------------------------------------------

    method UnsubAll(u: int, c: int)
      modifies this`sessions
      ensures sessions == UnsubUser(old(sessions), u, c)
    {
      ghost var was := sessions;
      var todo := sessions.Keys;
      while todo != {}
        invariant todo <= was.Keys && sessions == UnsubBut(was, u, c, todo)
        decreases todo
      {
        var s := Any(todo);
        todo := todo - {s};
        if sessions[s].user == u {
          sessions := sessions[s := sessions[s].(subs := sessions[s].subs - {c})];
        }
      }
    }

    // ---- commands on a channel ------------------------------------------------------------------

    /** What `kick` and `ban` share. */
    method PutOut(c: int, t: int, ban: Option<int>)
      requires c in chans
      modifies this`chans, this`sessions
      ensures chans == old(chans)[c := old(chans)[c].(
                bans := if ban.Some? then old(chans)[c].bans[t := ban.value] else old(chans)[c].bans,
                members := old(chans)[c].members - {t})]
      ensures sessions == UnsubUser(old(sessions), t, c)
    {
      if ban.Some? {
        chans := chans[c := chans[c].(bans := chans[c].bans[t := ban.value])];
      }
      chans := chans[c := chans[c].(members := chans[c].members - {t})];
      UnsubAll(t, c);
    }

    method Kick(u: int, c: int, t: int) returns (reply: Reply)
      requires Valid()
      modifies this`chans, this`sessions
      ensures Outcome(Snap(), reply) == OnChan(old(Snap()), u, c, ChanCmd.Kick(t))
      ensures Valid()
      ensures reply == Done ==> c in chans && t !in chans[c].members && SilentIn(sessions, t, c)
      ensures reply == Done ==> old(Snap().Rank(u, c) > Snap().Rank(t, c))
    {
      OnChanSane(Snap(), u, c, ChanCmd.Kick(t));
      var no, rank := ChanCtx(u, c, KickMember);
      if no.Some? {
        return Refused(no.value);
      }
      no := Target(u, c, rank, t);
      if no.Some? {
        return Refused(no.value);
      }
      PutOut(c, t, None);
      reply := Done;
    }

    method Ban(u: int, c: int, t: int, until: int) returns (reply: Reply)
      requires Valid()
      modifies this`chans, this`sessions
      ensures Outcome(Snap(), reply) == OnChan(old(Snap()), u, c, ChanCmd.Ban(t, until))
      ensures Valid()
      ensures reply == Done ==> Banished(old(Snap()), Snap(), u, c, t)
    {
      BanDone(Snap(), u, c, t, until);
      var no, rank := ChanCtx(u, c, BanMember);
      if no.Some? {
        return Refused(no.value);
      }
      no := Target(u, c, rank, t);
      if no.Some? {
        return Refused(no.value);
      }
      PutOut(c, t, Some(until));
      reply := Done;
    }

    method Add(u: int, c: int, t: int) returns (reply: Reply)
      requires Valid()
      modifies this`chans
      ensures Outcome(Snap(), reply) == OnChan(old(Snap()), u, c, ChanCmd.Add(t))
      ensures Valid()
      ensures reply == Done ==> c in chans && t in chans[c].members && t !in chans[c].bans
      ensures reply == Done ==> old(c in chans && t in chans[c].members) || chans[c].members[t] == Member
    {
      OnChanSane(Snap(), u, c, ChanCmd.Add(t));
      var no, _ := ChanCtx(u, c, AddMember);
      if no.Some? {
        return Refused(no.value);
      }
      if t !in users || users[t].status != Active {
        return Refused(NotFound);
      }
      if t in chans[c].bans {
        return Refused(Perm);
      }
      if t !in chans[c].members {
        chans := chans[c := chans[c].(members := chans[c].members[t := Member])];
      }
      reply := Done;
    }

    method GiveRole(u: int, c: int, t: int, role: Option<Role>) returns (reply: Reply)
      requires Valid()
      modifies this`chans
      ensures Outcome(Snap(), reply) == OnChan(old(Snap()), u, c, ChanCmd.GiveRole(t, role))
      ensures Valid()
      ensures reply == Done ==> c in chans && t in chans[c].members && Some(chans[c].members[t]) == role
      ensures reply == Done ==> role.Some? && role.value != Owner && old(Snap().Rank(u, c)) > RoleRank(role.value)
    {
      OnChanSane(Snap(), u, c, ChanCmd.GiveRole(t, role));
      var no, rank := ChanCtx(u, c, SetRole);
      if no.Some? {
        return Refused(no.value);
      }
      no := Target(u, c, rank, t);
      if no.Some? {
        return Refused(no.value);
      }
      if t !in chans[c].members {
        return Refused(NotFound);
      }
      if role.None? || role.value == Owner {
        return Refused(BadArg);
      }
      if RoleRank(role.value) >= rank && rank < SERVER_ADMIN {
        return Refused(Perm);
      }
      chans := chans[c := chans[c].(members := chans[c].members[t := role.value])];
      reply := Done;
    }

    method Transfer(u: int, c: int, t: int) returns (reply: Reply)
      requires Valid()
      modifies this`chans
      ensures Outcome(Snap(), reply) == OnChan(old(Snap()), u, c, ChanCmd.Transfer(t))
      ensures Valid()
      ensures reply == Done ==> HandedOver(Snap(), u, c, t)
    {
      TransferDone(Snap(), u, c, t);
      var no, _ := ChanCtx(u, c, TransferIt);
      if no.Some? {
        return Refused(no.value);
      }
      if t !in users || t !in chans[c].members {
        return Refused(NotFound);
      }
      if t == u {
        return Refused(BadArg);
      }
      HandOver(u, c, t);
      reply := Done;
    }

    method HandOver(u: int, c: int, t: int)
      requires c in chans && t != u
      modifies this`chans
      ensures var was, ms := old(chans)[c], old(chans)[c].members[t := Owner];
              chans == old(chans)[c := was.(members := if u in was.members && was.members[u] == Owner
                then ms[u := Admin] else ms)]
    {
      chans := chans[c := chans[c].(members := chans[c].members[t := Owner])];
      if u in chans[c].members && chans[c].members[u] == Owner {
        chans := chans[c := chans[c].(members := chans[c].members[u := Admin])];
      }
    }

    method Leave(u: int, c: int) returns (reply: Reply)
      requires Valid()
      modifies this`chans, this`sessions
      ensures Outcome(Snap(), reply) == OnChan(old(Snap()), u, c, ChanCmd.Leave)
      ensures Valid()
      ensures reply == Done ==> c in chans && u !in chans[c].members && SilentIn(sessions, u, c)
    {
      OnChanSane(Snap(), u, c, ChanCmd.Leave);
      var no, _ := ChanCtx(u, c, Read);
      if no.Some? {
        return Refused(no.value);
      }
      if u !in chans[c].members || chans[c].members[u] == Owner {
        return Refused(BadArg);
      }
      chans := chans[c := chans[c].(members := chans[c].members - {u})];
      UnsubAll(u, c);
      reply := Done;
    }

    method Delete(u: int, c: int, confirmed: bool) returns (reply: Reply)
      requires Valid()
      modifies this`chans, this`invites, this`sessions
      ensures Outcome(Snap(), reply) == OnChan(old(Snap()), u, c, ChanCmd.Delete(confirmed))
      ensures Valid()
      ensures reply == Done ==> c !in chans && (forall k :: k in invites ==> invites[k].cid != c)
      ensures reply == Done ==> forall s :: s in sessions ==> c !in sessions[s].subs
    {
      OnChanSane(Snap(), u, c, ChanCmd.Delete(confirmed));
      var no, _ := ChanCtx(u, c, DeleteIt);
      if no.Some? {
        return Refused(no.value);
      }
      if !confirmed {
        return Refused(BadArg);
      }
      if chans[c].isDefault {
        return Refused(BadArg);
      }
      DropInvites(c);
      DropSubs(c);
      chans := chans - {c};
      reply := Done;
    }

    method DropInvites(c: int)
      modifies this`invites
      ensures invites == InvitesBut(old(invites), c, {})
    {
      ghost var was := invites;
      var todo := invites.Keys;
      while todo != {}
        invariant todo <= was.Keys && invites == InvitesBut(was, c, todo)
        decreases todo
      {
        var k := Any(todo);
        todo := todo - {k};
        if invites[k].cid == c {
          invites := invites - {k};
        }
      }
    }

    method DropSubs(c: int)
      modifies this`sessions
      ensures sessions == LeftBut(old(sessions), c, {})
    {
      ghost var was := sessions;
      var todo := sessions.Keys;
      while todo != {}
        invariant todo <= was.Keys && sessions == LeftBut(was, c, todo)
        decreases todo
      {
        var s := Any(todo);
        todo := todo - {s};
        sessions := sessions[s := sessions[s].(subs := sessions[s].subs - {c})];
      }
    }

    // ---- invites ------------------------------------------------------------------------------------

    method ValidInvite(code: int, now: int) returns (ok: bool)
      requires Valid()
      modifies this`invites
      ensures Snap() == Pruned(old(Snap()), code, now) && ok == (code in invites)
      ensures Valid()
      ensures ok ==> Snap() == old(Snap()) && invites[code].uses != 0
    {
      PrunedSane(Snap(), code, now);
      if code !in invites {
        return false;
      }
      var inv := invites[code];
      if (inv.expires > 0 && inv.expires < now) || inv.uses == 0 {
        invites := invites - {code};
        return false;
      }
      ok := true;
    }

    method ConsumeInvite(code: int)
      requires code in invites
      modifies this`invites, this`ledger
      ensures Snap() == Consumed(old(Snap()), code)
    {
      var inv := invites[code];
      ghost var l := if code in ledger then ledger[code] else Ledger(inv.uses, 0, 0);
      ledger := ledger[code := l.(joined := l.joined + 1)];
      if inv.uses > 0 {
        inv := inv.(uses := inv.uses - 1);
        invites := invites[code := inv];
        if inv.uses == 0 {
          invites := invites - {code};
        }
      }
    }

    method Join(u: int, code: int, now: int) returns (reply: Reply)
      requires Valid() && u in users
      modifies this`invites, this`chans, this`ledger
      ensures Outcome(Snap(), reply) == JoinWith(old(Snap()), u, code, now)
      ensures Valid()
      ensures reply == Done ==> code in old(invites) && old(invites)[code].cid in chans
      ensures reply == Done ==> u in chans[old(invites)[code].cid].members && u !in chans[old(invites)[code].cid].bans
    {
      JoinSane(Snap(), u, code, now);
      var ok := ValidInvite(code, now);
      if !ok {
        return Refused(Auth);
      }
      var inv := invites[code];
      if inv.cid !in chans || u in chans[inv.cid].bans {
        return Refused(Auth);
      }
      if u in chans[inv.cid].members {
        return Done;
      }
      chans := chans[inv.cid := chans[inv.cid].(members := chans[inv.cid].members[u := inv.role])];
      ConsumeInvite(code);
      reply := Done;
    }

    // ---- accounts ------------------------------------------------------------------------------------

    method DropSessions(t: int)
      modifies this`saved
      ensures saved == DropSaved(old(saved), t)
    {
      ghost var was := saved;
      var todo := saved.Keys;
      while todo != {}
        invariant todo <= was.Keys && saved == SavedBut(was, t, todo)
        decreases todo
      {
        var k := Any(todo);
        todo := todo - {k};
        if saved[k] == t {
          saved := saved - {k};
        }
      }
    }

    method ModifyOne(u: int, t: int, a: Arg) returns (reply: Reply)
      requires u in users && t in users
      modifies this`users, this`saved
      ensures Modified(users, saved, reply) == ModOne(Modified(old(users), old(saved), Done), u, t, a)
    {
      reply := Done;
      match a
      case RoleArg(v) =>
        if users[u].role != ServerOwner {
          return Refused(Perm);
        }
        if t == u || v.None? || v.value == Guest {
          return Refused(BadArg);
        }
        users := users[t := users[t].(role := v.value)];
        if v.value == ServerOwner {
          users := users[u := users[u].(role := ServerAdmin)];
        }
      case PassArg(hash) =>
        if !Outranks(users, u, t) {
          return Refused(Perm);
        }
        users := users[t := users[t].(pass := hash)];
        DropSessions(t);
      case QuotaArg =>
        if !Outranks(users, u, t) && t != u {
          return Refused(Perm);
        }
      case RateArg =>
        if !Outranks(users, u, t) {
          return Refused(Perm);
        }
      case StatusArg(v) =>
        if !Outranks(users, u, t) {
          return Refused(Perm);
        }
        if v.None? || v.value.Banned? {
          return Refused(BadArg);
        }
        users := users[t := users[t].(status := v.value)];
      case UnknownArg => return Refused(BadArg);
    }

    /** `usermod`; `args` in the order in which the map yields them. */
    method UserMod(u: int, t: int, args: seq<Arg>) returns (reply: Reply)
      requires Valid()
      requires u in users
      modifies this`users, this`saved
      ensures Outcome(Snap(), reply) == ModUser(old(Snap()), u, t, args)
      ensures Valid()
      ensures forall o :: IsOwner(old(users), o) ==> IsOwner(users, o) || (u == o && IsOwner(users, t))
    {
      if t in users { ModUserSane(Snap(), u, t, args); }
      forall o | IsOwner(users, o) && t in users {
        ModAllOwner(Modified(users, saved, Done), u, t, args, o);
      }
      if ServerRank(RoleOf(u)) < 2 {
        return Refused(Perm);
      }
      if t !in users {
        return Refused(NotFound);
      }
      if args == [] {
        return Refused(BadArg);
      }
      reply := ModifyAll(u, t, args);
    }

    method ModifyAll(u: int, t: int, args: seq<Arg>) returns (reply: Reply)
      requires u in users && t in users
      modifies this`users, this`saved
      ensures Modified(users, saved, reply) == ModAll(Modified(old(users), old(saved), Done), u, t, args)
    {
      ghost var was := Modified(users, saved, Done);
      var i := 0;
      reply := Done;
      while i < |args| && reply == Done
        invariant 0 <= i <= |args|
        invariant u in users && t in users
        invariant Modified(users, saved, reply) == ModAll(was, u, t, args[..i])
      {
        assert args[..i + 1][..i] == args[..i];
        ghost var before := Modified(users, saved, Done);
        reply := ModifyOne(u, t, args[i]);
        assert ModAll(was, u, t, args[..i + 1]) == ModOne(before, u, t, args[i]);
        i := i + 1;
      }
      assert args[..|args|] == args;
      if i < |args| {
        RefusalEnds(was, u, t, args, i);
      }
    }

    // ---- housekeeping ----------------------------------------------------------------------------------

    method SweepBans(c: int, now: int)
      requires c in chans
      modifies this`chans
      ensures chans == old(chans)[c := SweptChan(old(chans)[c], now)]
    {
      ghost var was := chans;
      var bans := chans[c].bans;
      var todo := bans.Keys;
      while todo != {}
        invariant chans == was && todo <= was[c].bans.Keys && bans == BansBut(was[c].bans, now, todo)
        decreases todo
      {
        var u := Any(todo);
        assert u in was[c].bans;
        todo := todo - {u};
        if bans[u] > 0 && bans[u] < now {
          bans := bans - {u};
        }
      }
      chans := chans[c := chans[c].(bans := bans)];
      assert BansBut(was[c].bans, now, {}) == SweptChan(was[c], now).bans;
    }

    method SweepInvites(now: int)
      modifies this`invites
      ensures invites == UnspentBut(old(invites), now, {})
    {
      ghost var was := invites;
      var todo := invites.Keys;
      while todo != {}
        invariant todo <= was.Keys && invites == UnspentBut(was, now, todo)
        decreases todo
      {
        var k := Any(todo);
        todo := todo - {k};
        if Spent(invites[k], now) {
          invites := invites - {k};
        }
      }
    }

    method SweepUsers(now: int)
      modifies this`users
      ensures users == SweptUsersBut(old(users), now, {})
    {
      ghost var was := users;
      var todo := users.Keys;
      while todo != {}
        invariant todo <= was.Keys && users == SweptUsersBut(was, now, todo)
        decreases todo
      {
        var u := Any(todo);
        todo := todo - {u};
        var a := users[u];
        if a.status.Banned? && a.status.until > 0 && a.status.until < now {
          users := users[u := a.(status := Active)];
        }
      }
    }

    method SweepChans(now: int)
      modifies this`chans
      ensures chans == SweptChansBut(old(chans), now, {})
    {
      ghost var was := chans;
      var todo := chans.Keys;
      while todo != {}
        invariant todo <= was.Keys && chans == SweptChansBut(was, now, todo)
        decreases todo
      {
        var c := Any(todo);
        assert c in was;
        todo := todo - {c};
        SweepBans(c, now);
      }
    }

    method Sweep(now: int)
      requires Valid()
      modifies this`chans, this`invites, this`users
      ensures Snap() == Access.Sweep(old(Snap()), now)
      ensures Valid()
    {
      SweepSane(Snap(), now);
      ghost var was := Snap();
      SweepChans(now);
      SweepInvites(now);
      SweepUsers(now);
      assert chans == Access.Sweep(was, now).chans && invites == Access.Sweep(was, now).invites &&
        users == Access.Sweep(was, now).users;
    }

    method FlagOnly(c: int)
      requires c in chans
      modifies this`chans
      ensures chans == map x | x in old(chans) :: old(chans)[x].(isDefault := x == c)
    {
      ghost var was := chans;
      var todo := chans.Keys;
      while todo != {}
        invariant todo <= was.Keys && chans == FlaggedBut(was, todo)
        decreases todo
      {
        var x := Any(todo);
        todo := todo - {x};
        chans := chans[x := chans[x].(isDefault := false)];
      }
      chans := chans[c := chans[c].(isDefault := true)];
    }

    method SetDefaultChannel(c: int)
      requires Valid() && c in chans
      modifies this`chans, this`def
      ensures Snap() == MoveDefault(old(Snap()), c)
      ensures Valid()
    {
      DefaultSane(Snap(), c);
      FlagOnly(c);
      def := c;
    }
  }

  /** After a refusal the remaining arguments change nothing. */
  lemma {:induction false} RefusalEnds(m: Modified, u: int, t: int, args: seq<Arg>, i: nat)
    requires u in m.users && t in m.users && i <= |args| && ModAll(m, u, t, args[..i]).reply != Done
    ensures ModAll(m, u, t, args) == ModAll(m, u, t, args[..i])
    decreases |args|
  {
    if i < |args| {
      assert args[..|args| - 1][..i] == args[..i];
      RefusalEnds(m, u, t, args[..|args| - 1], i);
    } else {
      assert args[..i] == args;
    }
  }
}
