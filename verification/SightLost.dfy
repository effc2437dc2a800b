/** Three runs from the first start, each ending with a session subscribed to a channel its account does
    not see: why SubscribedImpliesVisible sets clients below version 2, moves of the default channel and
    demotions aside. */
module SightLost {
  import opened Util
  import opened Perms
  import opened Access

  predicate Leads(h: Hub, s: Step, h1: Hub) { Enabled(h, s) && Apply(h, s) == h1 }

  lemma {:induction false} Chain(hs: seq<Hub>, ss: seq<Step>)
    requires |hs| == |ss| + 1
    requires forall i, j :: 0 <= i < |ss| && j == i + 1 ==> Leads(hs[i], ss[i], hs[j])
    ensures Possible(hs[0], ss) && Run(hs[0], ss) == hs[|ss|]
  {
    if ss != [] {
      Chain(hs[1..], ss[1..]);
      assert Leads(hs[0], ss[0], hs[1]);
    }
  }

  /** Session `s` is subscribed to a channel that its account cannot find. */
  predicate Blind(h: Hub, s: int, c: int) {
    s in h.sessions && c in h.sessions[s].subs && c in h.chans && !h.Sees(h.sessions[s].user, c)
  }

  // ---- the owner opens a second channel --------------------------------------------------------------

  const START := Init(0, 10, 10)

  const OWNER_IN := START.(sessions := map[1 := Session(1, false, {}, 1)], saved := map[1 := 1])

  const GENERAL := Chan("general", map[1 := Owner], map[], true)

  const PRIVATE := Chan("private", map[1 := Owner], map[], false)

  const TWO_CHANNELS := OWNER_IN.(chans := map[1 := GENERAL, 2 := PRIVATE], nextChan := 3)

  lemma OwnerLogsIn()
    ensures Leads(START, DoLogin(1, 1, 1, false, 0), OWNER_IN)
  {
  }

  lemma OwnerCreates()
    ensures Leads(OWNER_IN, DoCmd(1, Create("private", true, true), 0), TWO_CHANNELS)
  {
    assert OWNER_IN.chans[1].name != "private" && |OWNER_IN.chans| == 1;
  }

  // ---- a client below version 2 -----------------------------------------------------------------------

  const INVITED := TWO_CHANNELS.(invites := map[7 := Invite(2, 1, 1, 0, Member, true)],
    ledger := map[7 := Ledger(1, 0, 7)])

  const PRIVATE_JOINED := PRIVATE.(members := map[1 := Owner, 2 := Member])

  const JOINED := TWO_CHANNELS.(
    users := map[1 := Account(ServerOwner, Active, 0), 2 := Account(User, Active, 5)], nextUser := 3,
    chans := map[1 := GENERAL, 2 := PRIVATE_JOINED], ledger := map[7 := Ledger(1, 1, 7)],
    sessions := map[1 := Session(1, false, {}, 1), 2 := Session(2, false, {}, 2)], saved := map[1 := 1, 2 := 2])

  const OLD_CLIENT_IN := JOINED.(sessions := JOINED.sessions[3 := Session(2, false, {1}, 3)],
    saved := JOINED.saved[3 := 2])

  const OLD_CLIENT_RUN := [
    DoLogin(1, 1, 1, false, 0), DoCmd(1, Create("private", true, true), 0),
    DoCmd(1, OnChannel(2, NewInvite(7, 1, 0, Some(Member), true, true)), 0),
    DoSignUp(2, Some(7), false, 5, 2, false, 0), DoLogin(3, 2, 3, true, 0)]

  lemma Invites()
    ensures Leads(TWO_CHANNELS, OLD_CLIENT_RUN[2], INVITED)
  {
  }

  lemma Joins()
    ensures Leads(INVITED, OLD_CLIENT_RUN[3], JOINED)
  {
    assert INVITED.users.Keys == {1};
  }

  lemma OldClientLogsIn()
    ensures Leads(JOINED, OLD_CLIENT_RUN[4], OLD_CLIENT_IN)
  {
    var none: set<int> := {};
    assert none + {1} == {1};
  }

  lemma OldClientRuns()
    ensures Possible(START, OLD_CLIENT_RUN) && Run(START, OLD_CLIENT_RUN) == OLD_CLIENT_IN
  {
    OwnerLogsIn();
    OwnerCreates();
    Invites();
    Joins();
    OldClientLogsIn();
    Chain([START, OWNER_IN, TWO_CHANNELS, INVITED, JOINED, OLD_CLIENT_IN], OLD_CLIENT_RUN);
  }

  /** An account invited to a private channel only logs in with a client below version 2. */
  lemma OldClientBlind()
    ensures Possible(START, OLD_CLIENT_RUN) && Blind(Run(START, OLD_CLIENT_RUN), 3, 1)
  {
    OldClientRuns();
  }

  // ---- the default channel moves -----------------------------------------------------------------------

  const GUEST_IN := TWO_CHANNELS.(sessions := TWO_CHANNELS.sessions[2 := Session(-1, true, {}, 0)])

  const GUEST_READS := TWO_CHANNELS.(sessions := TWO_CHANNELS.sessions[2 := Session(-1, true, {1}, 0)])

  const MOVED := GUEST_READS.(chans := map[1 := GENERAL.(isDefault := false), 2 := PRIVATE.(isDefault := true)],
    def := 2)

  const MOVE_RUN := [
    DoLogin(1, 1, 1, false, 0), DoCmd(1, Create("private", true, true), 0),
    DoGuest(2, -1, false), DoSub(2, 1), DoCmd(1, SetDefault(2), 0)]

  lemma GuestComes()
    ensures Leads(TWO_CHANNELS, MOVE_RUN[2], GUEST_IN)
  {
  }

  lemma GuestReads()
    ensures Leads(GUEST_IN, MOVE_RUN[3], GUEST_READS)
  {
    var none: set<int> := {};
    assert none + {1} == {1};
  }

  lemma DefaultMoves()
    ensures Leads(GUEST_READS, MOVE_RUN[4], MOVED)
  {
  }

  /** A guest reads the default channel while the owner makes another one the default. */
  lemma MovedDefaultBlind()
    ensures Possible(START, MOVE_RUN) && Blind(Run(START, MOVE_RUN), 2, 1)
  {
    OwnerLogsIn();
    OwnerCreates();
    GuestComes();
    GuestReads();
    DefaultMoves();
    Chain([START, OWNER_IN, TWO_CHANNELS, GUEST_IN, GUEST_READS, MOVED], MOVE_RUN);
  }

  // ---- an administrator is demoted ---------------------------------------------------------------------

  const GENERAL_JOINED := GENERAL.(members := map[1 := Owner, 2 := Member])

  function WithSecond(role: ServerRole): Hub {
    TWO_CHANNELS.(
      users := map[1 := Account(ServerOwner, Active, 0), 2 := Account(role, Active, 5)], nextUser := 3,
      chans := map[1 := GENERAL_JOINED, 2 := PRIVATE])
  }

  function SecondIn(role: ServerRole, subs: set<int>): Hub {
    WithSecond(role).(sessions := map[1 := Session(1, false, {}, 1), 2 := Session(2, false, subs, 2)],
      saved := map[1 := 1, 2 := 2])
  }

  const DEMOTION_RUN := [
    DoLogin(1, 1, 1, false, 0), DoCmd(1, Create("private", true, true), 0),
    DoCmd(1, UserAdd(true, false, 5), 0), DoCmd(1, UserMod(2, [RoleArg(Some(ServerAdmin))]), 0),
    DoLogin(2, 2, 2, false, 0), DoSub(2, 2), DoCmd(1, UserMod(2, [RoleArg(Some(User))]), 0)]

  lemma Adds()
    ensures Leads(TWO_CHANNELS, DEMOTION_RUN[2], WithSecond(User))
  {
    assert TWO_CHANNELS.users.Keys == {1};
  }

  /** `usermod` with one role, by the owner. */
  lemma GivesRole(h: Hub, was: ServerRole, role: ServerRole)
    requires 1 in h.sessions && h.sessions[1] == Session(1, false, {}, 1)
    requires h.users == map[1 := Account(ServerOwner, Active, 0), 2 := Account(was, Active, 5)]
    requires role == User || role == ServerAdmin
    ensures Leads(h, DoCmd(1, UserMod(2, [RoleArg(Some(role))]), 0),
            h.(users := h.users[2 := Account(role, Active, 5)]))
  {
    var args := [RoleArg(Some(role))];
    var m := Modified(h.users, h.saved, Done);
    assert args[..0] == [] && ModAll(m, 1, 2, []) == m;
    assert ModAll(m, 1, 2, args) == ModOne(m, 1, 2, args[0]);
  }

  lemma AdminLogsIn()
    ensures Leads(WithSecond(ServerAdmin), DEMOTION_RUN[4], SecondIn(ServerAdmin, {}))
  {
  }

  lemma AdminReads()
    ensures Leads(SecondIn(ServerAdmin, {}), DEMOTION_RUN[5], SecondIn(ServerAdmin, {2}))
  {
    var none: set<int> := {};
    assert none + {2} == {2};
  }

  lemma RunConcat(h: Hub, a: seq<Step>, h1: Hub, b: seq<Step>, h2: Hub, all: seq<Step>)
    requires Possible(h, a) && Run(h, a) == h1 && Possible(h1, b) && Run(h1, b) == h2 && all == a + b
    ensures Possible(h, all) && Run(h, all) == h2
    decreases |a|
  {
    if a == [] {
      assert all == b;
    } else {
      FirstOfConcat(a, b, all);
      RunConcat(Apply(h, a[0]), a[1..], h1, b, h2, all[1..]);
    }
  }

  lemma Appointed()
    ensures Possible(START, DEMOTION_RUN[..4]) && Run(START, DEMOTION_RUN[..4]) == WithSecond(ServerAdmin)
  {
    OwnerLogsIn();
    OwnerCreates();
    Adds();
    GivesRole(WithSecond(User), User, ServerAdmin);
    Chain([START, OWNER_IN, TWO_CHANNELS, WithSecond(User), WithSecond(ServerAdmin)], DEMOTION_RUN[..4]);
  }

  lemma Demoted(h: Hub)
    requires h == WithSecond(ServerAdmin)
    ensures Possible(h, DEMOTION_RUN[4..]) && Run(h, DEMOTION_RUN[4..]) == SecondIn(User, {2})
  {
    AdminLogsIn();
    AdminReads();
    GivesRole(SecondIn(ServerAdmin, {2}), ServerAdmin, User);
    Chain([h, SecondIn(ServerAdmin, {}), SecondIn(ServerAdmin, {2}), SecondIn(User, {2})], DEMOTION_RUN[4..]);
  }

  lemma DemotionRuns()
    ensures Possible(START, DEMOTION_RUN) && Run(START, DEMOTION_RUN) == SecondIn(User, {2})
  {
    Appointed();
    Demoted(WithSecond(ServerAdmin));
    RunConcat(START, DEMOTION_RUN[..4], WithSecond(ServerAdmin), DEMOTION_RUN[4..], SecondIn(User, {2}), DEMOTION_RUN);
  }

  /** A server admin reads a channel it is no member of and becomes an ordinary account. */
  lemma DemotedBlind()
    ensures Possible(START, DEMOTION_RUN) && Blind(Run(START, DEMOTION_RUN), 2, 2)
  {
    DemotionRuns();
  }
}
