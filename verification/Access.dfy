/** Accounts, channels, invites and sessions, and every command and hello that changes who may do what
    (hub.go authenticate, handleSub, validInvite, consumeInvite; cmds.go handleCmd, deleteChannel;
    limits.go sweep). Names are resolved to ids before they get here; an id that is not in the map is a
    name nobody has. */
module Access {
  import opened Util
  import opened Perms

  datatype Status = Active | Disabled | Banned(until: int)

  datatype Account = Account(role: ServerRole, status: Status, pass: int)

  /** A ban until 0 is permanent. */
  datatype Chan = Chan(name: string, members: map<int, Role>, bans: map<int, int>, isDefault: bool)

  /** `uses` is what is left, -1 for no limit; `expires` 0 is never. */
  datatype Invite = Invite(cid: int, actor: int, uses: int, expires: int, role: Role, signup: bool)

  /** History of an invite code: how many uses it began with, how many memberships came of it, and the
      rank its maker had. */
  datatype Ledger = Ledger(first: int, joined: nat, rank: nat)

  datatype Registration = ByInvite | ByAdmin | Open

  datatype Session = Session(user: int, guest: bool, subs: set<int>, token: int)

  datatype Hub = Hub(
    users: map<int, Account>, chans: map<int, Chan>, invites: map<int, Invite>, saved: map<int, int>,
    sessions: map<int, Session>, nextUser: int, nextChan: int, def: int,
    openChannels: bool, registration: Registration, maxUsers: nat, maxChannels: nat,
    ledger: map<int, Ledger>)
  {
    function RoleOf(u: int): ServerRole { RoleAmong(users, u) }

    /** `rankIn`. */
    function Rank(u: int, c: int): nat
      requires c in chans
    {
      match RoleOf(u)
      case ServerOwner => SERVER_OWNER
      case ServerAdmin => SERVER_ADMIN
      case Guest => if chans[c].isDefault then 2 else NONE
      case User => if u in chans[c].members then RoleRank(chans[c].members[u]) else NONE
    }

    /** `chanFor` finds the channel. */
    predicate Sees(u: int, c: int) { c in chans && Rank(u, c) != NONE }

    predicate Staff(u: int) { ServerRank(RoleOf(u)) >= 2 }

    predicate CanServerTarget(actor: int, t: int) { Outranks(users, actor, t) }
  }

  function RoleAmong(users: map<int, Account>, u: int): ServerRole { if u in users then users[u].role else Guest }

  /** `canServerTarget`. */
  predicate Outranks(users: map<int, Account>, actor: int, t: int) {
    actor != t && ServerRank(RoleAmong(users, actor)) > ServerRank(RoleAmong(users, t))
  }

  datatype Code =
    | NoChan | Perm | BadArg | NotFound | Exists | Limit | Auth | Blocked
    | GuestsCannot | RateLimited | TooLong | IsReadonly | IsMuted

  datatype Reply = Done | Refused(code: Code) | Listed(cids: set<int>)

  datatype Outcome = Outcome(hub: Hub, reply: Reply)

  function No(h: Hub, code: Code): Outcome { Outcome(h, Refused(code)) }

  // ---- pieces ------------------------------------------------------------------------------------

  function WithMember(h: Hub, c: int, u: int, r: Role): Hub
    requires c in h.chans
  {
    h.(chans := h.chans[c := h.chans[c].(members := h.chans[c].members[u := r])])
  }

  function WithoutMember(h: Hub, c: int, u: int): Hub
    requires c in h.chans
  {
    h.(chans := h.chans[c := h.chans[c].(members := h.chans[c].members - {u})])
  }

  /** Every session of the account leaves the channel. */
  function UnsubUser(ss: map<int, Session>, u: int, c: int): map<int, Session> {
    map s | s in ss :: if ss[s].user == u then ss[s].(subs := ss[s].subs - {c}) else ss[s]
  }

  predicate Spent(inv: Invite, now: int) { (inv.expires > 0 && inv.expires < now) || inv.uses == 0 }

  /** `validInvite` drops a code that has expired. */
  function Pruned(h: Hub, code: int, now: int): Hub {
    if code in h.invites && Spent(h.invites[code], now) then h.(invites := h.invites - {code}) else h
  }

  function Consumed(h: Hub, code: int): Hub
    requires code in h.invites
  {
    var inv := h.invites[code];
    var l := if code in h.ledger then h.ledger[code] else Ledger(inv.uses, 0, 0);
    h.(ledger := h.ledger[code := l.(joined := l.joined + 1)],
       invites := if inv.uses > 1 then h.invites[code := inv.(uses := inv.uses - 1)]
                  else if inv.uses == 1 then h.invites - {code} else h.invites)
  }

  /** Why a command on a channel is refused before it does anything. */
  function ChanRefusal(h: Hub, u: int, c: int, a: Action): Option<Code> {
    if !h.Sees(u, c) then Some(NoChan) else if !Can(h.Rank(u, c), a) then Some(Perm) else None
  }

  /** Why the named member cannot be acted on. */
  function TargetRefusal(h: Hub, u: int, c: int, t: int): Option<Code>
    requires c in h.chans
  {
    if t !in h.users || (t !in h.chans[c].members && !h.Staff(t)) then Some(NotFound)
    else if !CanTarget(h.Rank(u, c), h.Rank(t, c)) then Some(Perm)
    else None
  }

  // ---- commands on a channel -----------------------------------------------------------------------

  datatype ChanCmd =
    | Delete(confirmed: bool)
    | Topic
    | NewInvite(code: int, uses: int, expires: int, role: Option<Role>, signup: bool, rateOk: bool)
    | Invites
    | Revoke(code: int)
    | Leave
    | MemberList
    | Add(t: int)
    | Kick(t: int)
    | Ban(t: int, until: int)
    | Unban(t: int)
    | GiveRole(t: int, role: Option<Role>)
    | Transfer(t: int)

  function ActionOf(k: ChanCmd): Action {
    match k
    case Delete(_) => DeleteIt
    case Topic => SetTopic
    case NewInvite(_, _, _, _, _, _) => MakeInvite
    case Invites => MakeInvite
    case Revoke(_) => MakeInvite
    case Leave => Read
    case MemberList => Members
    case Add(_) => AddMember
    case Kick(_) => KickMember
    case Ban(_, _) => BanMember
    case Unban(_) => BanMember
    case GiveRole(_, _) => SetRole
    case Transfer(_) => TransferIt
  }

  function DeleteChannel(h: Hub, c: int): Hub {
    h.(chans := h.chans - {c},
       invites := map code | code in h.invites && h.invites[code].cid != c :: h.invites[code],
       sessions := map s | s in h.sessions :: h.sessions[s].(subs := h.sessions[s].subs - {c}))
  }

  function MakeInviteFor(h: Hub, u: int, c: int, k: ChanCmd): Outcome
    requires c in h.chans && k.NewInvite?
  {
    var rank := h.Rank(u, c);
    if k.role.None? || (RoleRank(k.role.value) >= rank && rank < SERVER_ADMIN) || k.role.value == Owner
      then No(h, BadArg)
    else if !k.rateOk then No(h, RateLimited)
    else
      var uses := if k.uses < 0 then -1 else k.uses;
      Outcome(h.(invites := h.invites[k.code :=
        Invite(c, u, uses, k.expires, k.role.value, k.signup && h.registration != ByAdmin)],
                 ledger := h.ledger[k.code := Ledger(uses, 0, rank)]), Done)
  }

  function RevokeInvite(h: Hub, u: int, c: int, code: int): Outcome
    requires c in h.chans
  {
    if code !in h.invites || h.invites[code].cid != c then No(h, NotFound)
    else if h.invites[code].actor != u && !Can(h.Rank(u, c), RevokeAny) then No(h, Perm)
    else Outcome(h.(invites := h.invites - {code}), Done)
  }

  function LeaveChan(h: Hub, u: int, c: int): Outcome
    requires c in h.chans
  {
    if u !in h.chans[c].members || h.chans[c].members[u] == Owner then No(h, BadArg)
    else Outcome(WithoutMember(h, c, u).(sessions := UnsubUser(h.sessions, u, c)), Done)
  }

  function AddTo(h: Hub, c: int, t: int): Outcome
    requires c in h.chans
  {
    if t !in h.users || h.users[t].status != Active then No(h, NotFound)
    else if t in h.chans[c].bans then No(h, Perm)
    else if t in h.chans[c].members then Outcome(h, Done)
    else Outcome(WithMember(h, c, t, Member), Done)
  }

  /** `kick`, and `ban` when `ban` says until when. */
  function Expel(h: Hub, u: int, c: int, t: int, ban: Option<int>): Outcome
    requires c in h.chans
  {
    var no := TargetRefusal(h, u, c, t);
    if no.Some? then No(h, no.value) else
      var ch := h.chans[c].(bans := if ban.Some? then h.chans[c].bans[t := ban.value] else h.chans[c].bans,
                            members := h.chans[c].members - {t});
      Outcome(h.(chans := h.chans[c := ch], sessions := UnsubUser(h.sessions, t, c)), Done)
  }

  function ChangeRole(h: Hub, u: int, c: int, t: int, role: Option<Role>): Outcome
    requires c in h.chans
  {
    var no := TargetRefusal(h, u, c, t);
    if no.Some? then No(h, no.value)
    else if t !in h.chans[c].members then No(h, NotFound)
    else if role.None? || role.value == Owner then No(h, BadArg)
    else if RoleRank(role.value) >= h.Rank(u, c) && h.Rank(u, c) < SERVER_ADMIN then No(h, Perm)
    else Outcome(WithMember(h, c, t, role.value), Done)
  }

  function TransferTo(h: Hub, u: int, c: int, t: int): Outcome
    requires c in h.chans
  {
    if t !in h.users || t !in h.chans[c].members then No(h, NotFound)
    else if t == u then No(h, BadArg)
    else
      var ms := h.chans[c].members[t := Owner];
      var ms' := if u in h.chans[c].members && h.chans[c].members[u] == Owner then ms[u := Admin] else ms;
      Outcome(h.(chans := h.chans[c := h.chans[c].(members := ms')]), Done)
  }

  function OnChan(h: Hub, u: int, c: int, k: ChanCmd): Outcome {
    var no := ChanRefusal(h, u, c, ActionOf(k));
    if no.Some? then No(h, no.value) else
      match k
      case Delete(confirmed) =>
        if !confirmed || h.chans[c].isDefault then No(h, BadArg) else Outcome(DeleteChannel(h, c), Done)
      case Topic => Outcome(h, Done)
      case NewInvite(_, _, _, _, _, _) => MakeInviteFor(h, u, c, k)
      case Invites => Outcome(h, Done)
      case Revoke(code) => RevokeInvite(h, u, c, code)
      case Leave => LeaveChan(h, u, c)
      case MemberList => Outcome(h, Done)
      case Add(t) => AddTo(h, c, t)
      case Kick(t) => Expel(h, u, c, t, None)
      case Ban(t, until) => Expel(h, u, c, t, Some(until))
      case Unban(t) =>
        if t !in h.users || t !in h.chans[c].bans then No(h, NotFound)
        else Outcome(h.(chans := h.chans[c := h.chans[c].(bans := h.chans[c].bans - {t})]), Done)
      case GiveRole(t, role) => ChangeRole(h, u, c, t, role)
      case Transfer(t) => TransferTo(h, u, c, t)
  }

  // ---- other commands -----------------------------------------------------------------------------------

  /** One `key=value` of `usermod`. Wrong values are None. */
  datatype Arg =
    | RoleArg(v: Option<ServerRole>)
    | PassArg(hash: int)
    | QuotaArg
    | RateArg
    | StatusArg(v2: Option<Status>)
    | UnknownArg

  datatype Cmd =
    | Channels
    | Create(name: string, goodName: bool, goodExpire: bool)
    | Join(code: int)
    | OnChannel(c: int, k: ChanCmd)
    | UserAdd(goodName: bool, taken: bool, pass: int)
    | UserBan(t: int, until: int)
    | UserUnban(t: int)
    | UserMod(t: int, args: seq<Arg>)
    | Passwd(oldOk: bool, pass: int)
    | Logout(all: bool)
    | SetDefault(c: int)
    | SetOpenChannels(on: bool)
    | SetRegistration(mode: Option<Registration>)

  function ChannelsFor(h: Hub, u: int): set<int> { set c | c in h.chans && h.Sees(u, c) }

  predicate NameTaken(h: Hub, name: string) { exists c :: c in h.chans && h.chans[c].name == name }

  function CreateChannel(h: Hub, u: int, name: string, goodName: bool, goodExpire: bool): Outcome {
    if !(h.Staff(u) || (h.RoleOf(u) == User && h.openChannels)) then No(h, Perm)
    else if !goodName then No(h, BadArg)
    else if NameTaken(h, name) then No(h, Exists)
    else if |h.chans| >= h.maxChannels then No(h, Limit)
    else if !goodExpire then No(h, BadArg)
    else Outcome(h.(chans := h.chans[h.nextChan := Chan(name, map[u := Owner], map[], false)],
      nextChan := h.nextChan + 1), Done)
  }

  /** A membership in exchange for one use of the code. */
  function Redeem(h: Hub, u: int, code: int): Hub
    requires code in h.invites && h.invites[code].cid in h.chans
  {
    Consumed(WithMember(h, h.invites[code].cid, u, h.invites[code].role), code)
  }

  function JoinWith(h: Hub, u: int, code: int, now: int): Outcome {
    var h1 := Pruned(h, code, now);
    if code !in h1.invites then No(h1, Auth) else
      var c := h1.invites[code].cid;
      if c !in h1.chans || u in h1.chans[c].bans then No(h1, Auth)
      else if u in h1.chans[c].members then Outcome(h1, Done)
      else Outcome(Redeem(h1, u, code), Done)
  }

  function NewUser(h: Hub, pass: int): Hub {
    h.(users := h.users[h.nextUser := Account(User, Active, pass)], nextUser := h.nextUser + 1)
  }

  function AddUser(h: Hub, u: int, goodName: bool, taken: bool, pass: int): Outcome {
    if !h.Staff(u) then No(h, Perm)
    else if !goodName then No(h, BadArg)
    else if taken then No(h, Exists)
    else if |h.users| >= h.maxUsers then No(h, Limit)
    else
      var h1 := NewUser(h, pass);
      Outcome(if h.def in h.chans then WithMember(h1, h.def, h.nextUser, Member) else h1, Done)
  }

  function SetStatus(h: Hub, u: int, t: int, status: Status): Outcome {
    if !h.Staff(u) then No(h, Perm)
    else if t !in h.users then No(h, NotFound)
    else if !h.CanServerTarget(u, t) then No(h, Perm)
    else Outcome(h.(users := h.users[t := h.users[t].(status := status)]), Done)
  }

  function DropSaved(saved: map<int, int>, t: int): map<int, int> {
    map k | k in saved && saved[k] != t :: saved[k]
  }

  /** The accounts and saved sessions in the middle of a `usermod`. */
  datatype Modified = Modified(users: map<int, Account>, saved: map<int, int>, reply: Reply)
  {
    function No(code: Code): Modified { Modified(users, saved, Refused(code)) }

    function Set(t: int, a: Account): Modified { Modified(users[t := a], saved, Done) }
  }

  function ModRole(m: Modified, u: int, t: int, v: Option<ServerRole>): Modified
    requires u in m.users && t in m.users
  {
    if m.users[u].role != ServerOwner then m.No(Perm)
    else if t == u || v.None? || v.value == Guest then m.No(BadArg)
    else if v.value == ServerOwner
      then m.Set(t, m.users[t].(role := ServerOwner)).Set(u, m.users[u].(role := ServerAdmin))
    else m.Set(t, m.users[t].(role := v.value))
  }

  function ModOne(m: Modified, u: int, t: int, a: Arg): (m': Modified)
    requires u in m.users && t in m.users
    ensures forall x :: x in m'.users <==> x in m.users
  {
    match a
    case RoleArg(v) => ModRole(m, u, t, v)
    case PassArg(hash) =>
      // a password reset logs the account out everywhere
      if !Outranks(m.users, u, t) then m.No(Perm)
      else m.Set(t, m.users[t].(pass := hash)).(saved := DropSaved(m.saved, t))
    case QuotaArg => if !Outranks(m.users, u, t) && t != u then m.No(Perm) else m
    case RateArg => if !Outranks(m.users, u, t) then m.No(Perm) else m
    case StatusArg(v) =>
      if !Outranks(m.users, u, t) then m.No(Perm)
      else if v.None? || v.value.Banned? then m.No(BadArg)
      else m.Set(t, m.users[t].(status := v.value))
    case UnknownArg => m.No(BadArg)
  }

  /** The arguments one after another, up to the first that is refused. What was done before it stays. */
  function ModAll(m: Modified, u: int, t: int, args: seq<Arg>): (m': Modified)
    requires u in m.users && t in m.users
    ensures forall x :: x in m'.users <==> x in m.users
  {
    if args == [] then m else
      var m1 := ModAll(m, u, t, args[..|args| - 1]);
      if m1.reply != Done then m1 else ModOne(m1, u, t, args[|args| - 1])
  }

  function ModUser(h: Hub, u: int, t: int, args: seq<Arg>): Outcome
    requires u in h.users
  {
    if !h.Staff(u) then No(h, Perm)
    else if t !in h.users then No(h, NotFound)
    else if args == [] then No(h, BadArg)
    else
      var m := ModAll(Modified(h.users, h.saved, Done), u, t, args);
      Outcome(h.(users := m.users, saved := m.saved), m.reply)
  }

  function MoveDefault(h: Hub, c: int): Hub {
    h.(chans := map x | x in h.chans :: h.chans[x].(isDefault := x == c), def := c)
  }

  function LogOut(h: Hub, s: int, all: bool): Hub
    requires s in h.sessions
  {
    var me := h.sessions[s];
    h.(saved := map k | k in h.saved && !(h.saved[k] == me.user && (all || k == me.token)) :: h.saved[k])
  }

  /** A live session of a guest or of an account that exists. */
  predicate Attached(h: Hub, s: int) { s in h.sessions && (!h.sessions[s].guest ==> h.sessions[s].user in h.users) }

  function HandleCmd(h: Hub, s: int, k: Cmd, now: int): Outcome
    requires Attached(h, s)
  {
    var u := h.sessions[s].user;
    if h.sessions[s].guest && k != Channels then No(h, GuestsCannot) else
      match k
      case Channels => Outcome(h, Listed(ChannelsFor(h, u)))
      case Create(name, goodName, goodExpire) => CreateChannel(h, u, name, goodName, goodExpire)
      case Join(code) => JoinWith(h, u, code, now)
      case OnChannel(c, kk) => OnChan(h, u, c, kk)
      case UserAdd(goodName, taken, pass) => AddUser(h, u, goodName, taken, pass)
      case UserBan(t, until) => SetStatus(h, u, t, Banned(until))
      case UserUnban(t) => SetStatus(h, u, t, Active)
      case UserMod(t, args) => ModUser(h, u, t, args)
      case Passwd(oldOk, pass) =>
        if !oldOk then No(h, Auth) else Outcome(h.(users := h.users[u := h.users[u].(pass := pass)]), Done)
      case Logout(all) => Outcome(LogOut(h, s, all), Done)
      case SetDefault(c) =>
        if h.RoleOf(u) != ServerOwner then No(h, Perm)
        else if c !in h.chans then No(h, BadArg)
        else Outcome(MoveDefault(h, c), Done)
      case SetOpenChannels(on) =>
        if h.RoleOf(u) != ServerOwner then No(h, Perm) else Outcome(h.(openChannels := on), Done)
      case SetRegistration(mode) =>
        if h.RoleOf(u) != ServerOwner then No(h, Perm)
        else if mode.None? then No(h, BadArg)
        else Outcome(h.(registration := mode.value), Done)
  }

  // ---- hellos, subscriptions, housekeeping --------------------------------------------------------------

  /** A new account in exchange for one use of a code that allows it. */
  function Invited(h: Hub, code: int, pass: int, now: int): Outcome {
    var h1 := Pruned(h, code, now);
    if code !in h1.invites || !h1.invites[code].signup || h1.invites[code].cid !in h1.chans then No(h1, Auth)
    else Outcome(Redeem(NewUser(h1, pass), h.nextUser, code), Done)
  }

  /** Open registration: the new account starts in the default channel. */
  function Registered(h: Hub, pass: int): Outcome {
    if h.registration != Open then No(h, Auth) else
      Outcome(if h.def in h.chans then WithMember(NewUser(h, pass), h.def, h.nextUser, Member)
        else NewUser(h, pass), Done)
  }

  function Enrolled(h: Hub, code: Option<int>, taken: bool, pass: int, now: int): Outcome {
    if taken then No(h, Exists)
    else if |h.users| >= h.maxUsers then No(h, Limit)
    else if code.Some? then Invited(h, code.value, pass, now)
    else Registered(h, pass)
  }

  function SignUp(h: Hub, s: int, code: Option<int>, taken: bool, pass: int, token: int, now: int): Outcome {
    var o := Enrolled(h, code, taken, pass, now);
    if o.reply == Done then Outcome(LoggedIn(o.hub, s, h.nextUser, token), Done) else o
  }

  function LoggedIn(h: Hub, s: int, u: int, token: int): Hub {
    h.(sessions := h.sessions[s := Session(u, false, {}, token)], saved := h.saved[token := u])
  }

  /** A password or a saved session was accepted; a ban that has run out is lifted on the way. */
  function LogIn(h: Hub, s: int, u: int, token: int, now: int): Outcome
    requires u in h.users
  {
    var me := SweptAccount(h.users[u], now);
    if me.status != Active then No(h, Blocked) else Outcome(LoggedIn(h.(users := h.users[u := me]), s, u, token), Done)
  }

  /** A client below version 2 cannot subscribe, so the hub puts it into the default channel. */
  function Greeted(h: Hub, s: int, v1: bool): Hub
    requires s in h.sessions
  {
    if v1 && h.def in h.chans
      then h.(sessions := h.sessions[s := h.sessions[s].(subs := h.sessions[s].subs + {h.def})]) else h
  }

  function Sub(h: Hub, s: int, c: int): Outcome
    requires s in h.sessions
  {
    if (h.sessions[s].guest && c != h.def) || !h.Sees(h.sessions[s].user, c) then No(h, NoChan)
    else Outcome(h.(sessions := h.sessions[s := h.sessions[s].(subs := h.sessions[s].subs + {c})]), Done)
  }

  /** Frames that name a channel. What a message, a file or a relayed key does once it is let through is
      told elsewhere; here it is who gets which answer. */
  datatype Frame =
    | MsgTo(c: int, tooLong: bool, readonly: bool, muted: bool, rateOk: bool)
    | Who(c: int)
    | MarkRead(c: int)
    | KeyReq(c: int)
    | KeyShare(c: int, t: int)

  function OnlineIn(h: Hub, c: int): set<int> {
    set s | s in h.sessions && c in h.sessions[s].subs :: h.sessions[s].user
  }

  /** The answer to a frame, if it gets one. */
  function AnswerTo(h: Hub, u: int, f: Frame): Option<Reply> {
    match f
    case MsgTo(c, tooLong, readonly, muted, rateOk) =>
      if !h.Sees(u, c) then Some(Refused(NoChan))
      else if tooLong then Some(Refused(TooLong))
      else if !CanSend(h.Rank(u, c), readonly)
        then Some(Refused(if readonly || h.Rank(u, c) == 1 then IsReadonly else Perm))
      else if u in h.chans[c].members && muted then Some(Refused(IsMuted))
      else if !rateOk then Some(Refused(RateLimited))
      else None
    case Who(c) => if !h.Sees(u, c) then Some(Refused(NoChan)) else Some(Listed(OnlineIn(h, c)))
    case MarkRead(_) => None
    case KeyReq(_) => None
    case KeyShare(_, _) => None
  }

  function SweptChan(ch: Chan, now: int): Chan {
    ch.(bans := map u | u in ch.bans && !(ch.bans[u] > 0 && ch.bans[u] < now) :: ch.bans[u])
  }

  function SweptAccount(a: Account, now: int): Account {
    if a.status.Banned? && a.status.until > 0 && a.status.until < now then a.(status := Active) else a
  }

  /** The hourly housekeeping. */
  function Sweep(h: Hub, now: int): Hub {
    h.(chans := map c | c in h.chans :: SweptChan(h.chans[c], now),
       invites := map code | code in h.invites && !Spent(h.invites[code], now) :: h.invites[code],
       users := map u | u in h.users :: SweptAccount(h.users[u], now))
  }

  // ---- runs ---------------------------------------------------------------------------------------------------

  datatype Step =
    | DoCmd(s: int, k: Cmd, now: int)
    | DoSignUp(s: int, code: Option<int>, taken: bool, pass: int, token: int, v1: bool, now: int)
    | DoLogin(s: int, u: int, token: int, v1: bool, now: int)   // password, or a saved session
    | DoGuest(s: int, nick: int, v1: bool)
    | DoBye(s: int)
    | DoSub(s: int, c: int)
    | DoUnsub(s: int, c: int)
    | DoEvict(token: int)                                  // the oldest saved session makes room
    | DoSweep(now: int)

  /** Session ids and invite codes are fresh; guests have negative ids and accounts positive ones. */
  predicate Enabled(h: Hub, st: Step) {
    match st
    case DoCmd(s, k, _) =>
      && Attached(h, s)
      && (k.OnChannel? && k.k.NewInvite? ==> k.k.code !in h.ledger && k.k.code !in h.invites)
    case DoSignUp(s, _, _, _, token, _, _) => s !in h.sessions && token !in h.saved
    case DoLogin(s, u, token, _, _) =>
      s !in h.sessions && u in h.users && (token in h.saved ==> h.saved[token] == u)
    case DoGuest(s, nick, _) => s !in h.sessions && nick < 0
    case DoBye(s) => s in h.sessions
    case DoSub(s, _) => s in h.sessions
    case DoUnsub(s, _) => s in h.sessions
    case DoEvict(token) => token in h.saved
    case DoSweep(_) => true
  }

  function Apply(h: Hub, st: Step): Hub
    requires Enabled(h, st)
  {
    match st
    case DoCmd(s, k, now) => HandleCmd(h, s, k, now).hub
    case DoSignUp(s, code, taken, pass, token, v1, now) =>
      var o := SignUp(h, s, code, taken, pass, token, now);
      if o.reply == Done then Greeted(o.hub, s, v1) else o.hub
    case DoLogin(s, u, token, v1, now) =>
      var o := LogIn(h, s, u, token, now);
      if o.reply == Done then Greeted(o.hub, s, v1) else o.hub
    case DoGuest(s, nick, v1) => Greeted(h.(sessions := h.sessions[s := Session(nick, true, {}, 0)]), s, v1)
    case DoBye(s) => h.(sessions := h.sessions - {s})
    case DoSub(s, c) => Sub(h, s, c).hub
    case DoUnsub(s, c) => h.(sessions := h.sessions[s := h.sessions[s].(subs := h.sessions[s].subs - {c})])
    case DoEvict(token) => h.(saved := h.saved - {token})
    case DoSweep(now) => Sweep(h, now)
  }

  predicate Possible(h: Hub, steps: seq<Step>)
    decreases |steps|
  {
    steps == [] || (Enabled(h, steps[0]) && Possible(Apply(h, steps[0]), steps[1..]))
  }

  function Run(h: Hub, steps: seq<Step>): Hub
    requires Possible(h, steps)
    decreases |steps|
  {
    if steps == [] then h else Run(Apply(h, steps[0]), steps[1..])
  }

  /** The first start: account 1 owns the hub and the default channel. */
  function Init(pass: int, maxUsers: nat, maxChannels: nat): Hub {
    Hub(map[1 := Account(ServerOwner, Active, pass)], map[1 := Chan("general", map[1 := Owner], map[], true)],
        map[], map[], map[], 2, 2, 1, false, ByInvite, maxUsers, maxChannels, map[])
  }
}
