/** The history counter of an invite code counts exactly the memberships that redeeming it created. */
module InviteProof {
  import opened Util
  import opened Access
  import opened MembershipProof
  import opened GrantProof

  ghost predicate Grew(chans: map<int, Chan>, chans': map<int, Chan>) {
    exists c, u :: Gains(chans, chans', c, u)
  }

  predicate Uses(st: Step, code: int) {
    (st.DoCmd? && st.k == Join(code)) || (st.DoSignUp? && st.code == Some(code))
  }

  lemma RedeemCounts(h: Hub, x: int, code: int)
    requires Sane(h) && code in h.invites && h.invites[code].uses != 0 && h.invites[code].cid in h.chans
    requires x !in h.chans[h.invites[code].cid].members
    ensures code in h.ledger
    ensures Redeem(h, x, code).ledger == h.ledger[code := h.ledger[code].(joined := h.ledger[code].joined + 1)]
    ensures Grew(h.chans, Redeem(h, x, code).chans)
  {
    var inv := h.invites[code];
    assert InviteOk(inv, h.ledger[code]);
    assert Gains(h.chans, Redeem(h, x, code).chans, inv.cid, x);
  }

  lemma JoinCounts(h: Hub, a: int, code: int, now: int)
    requires Sane(h)
    ensures var h' := JoinWith(h, a, code, now).hub;
            if Grew(h.chans, h'.chans)
              then code in h.ledger && h'.ledger ==
                h.ledger[code := h.ledger[code].(joined := h.ledger[code].joined + 1)]
            else h'.ledger == h.ledger
  {
    PrunedSane(h, code, now);
    var h' := JoinWith(h, a, code, now).hub;
    if h' != Pruned(h, code, now) {
      RedeemCounts(h, a, code);
    } else {
      assert h'.chans == h.chans;
    }
  }

  lemma EnrolledCounts(h: Hub, code: Option<int>, taken: bool, pass: int, now: int)
    requires Sane(h)
    ensures var h' := Enrolled(h, code, taken, pass, now).hub;
            if code.Some? && Grew(h.chans, h'.chans) then
              code.value in h.ledger &&
                h'.ledger == h.ledger[code.value := h.ledger[code.value].(joined := h.ledger[code.value].joined + 1)]
            else h'.ledger == h.ledger
  {
    if code.Some? && !taken && |h.users| < h.maxUsers {
      InvitedCounts(h, code.value, pass, now);
    }
  }

  lemma InvitedCounts(h: Hub, code: int, pass: int, now: int)
    requires Sane(h)
    ensures var h' := Invited(h, code, pass, now).hub;
            if Grew(h.chans, h'.chans)
              then code in h.ledger && h'.ledger ==
                h.ledger[code := h.ledger[code].(joined := h.ledger[code].joined + 1)]
            else h'.ledger == h.ledger
  {
    PrunedSane(h, code, now);
    NewUserSane(h, pass);
    if Invited(h, code, pass, now).reply == Done {
      RedeemCounts(NewUser(h, pass), h.nextUser, code);
    }
  }

  lemma OnChanCounts(h: Hub, a: int, c: int, k: ChanCmd, code: int)
    requires code in h.ledger && (k.NewInvite? ==> k.code !in h.ledger)
    ensures code in OnChan(h, a, c, k).hub.ledger && OnChan(h, a, c, k).hub.ledger[code] == h.ledger[code]
  {
  }

  lemma CmdCounts(h: Hub, s: int, k: Cmd, now: int, code: int)
    requires Sane(h) && Enabled(h, DoCmd(s, k, now)) && code in h.ledger && !k.Join?
    ensures code in HandleCmd(h, s, k, now).hub.ledger && HandleCmd(h, s, k, now).hub.ledger[code] == h.ledger[code]
  {
    if k.OnChannel? {
      OnChanCounts(h, h.sessions[s].user, k.c, k.k, code);
    } else {
      OtherCounts(h, s, k, now);
    }
  }

  lemma OtherCounts(h: Hub, s: int, k: Cmd, now: int)
    requires Enabled(h, DoCmd(s, k, now)) && !k.Join? && !k.OnChannel?
    ensures HandleCmd(h, s, k, now).hub.ledger == h.ledger
  {
    match k
    case UserMod(_, _) =>
    case UserAdd(_, _, _) =>
    case Create(_, _, _) =>
    case _ =>
  }

  lemma SignUpCounts(h: Hub, st: Step, code: int)
    requires Sane(h) && Enabled(h, st) && st.DoSignUp? && code in h.ledger
    ensures code in Apply(h, st).ledger
    ensures Apply(h, st).ledger[code].joined == h.ledger[code].joined +
            if Uses(st, code) && Grew(h.chans, Apply(h, st).chans) then 1 else 0
  {
    SignUpChans(h, st);
    EnrolledCounts(h, st.code, st.taken, st.pass, st.now);
    assert Apply(h, st).ledger == Enrolled(h, st.code, st.taken, st.pass, st.now).hub.ledger;
  }

  lemma JoinStepCounts(h: Hub, st: Step, code: int)
    requires Sane(h) && Enabled(h, st) && st.DoCmd? && st.k.Join? && code in h.ledger
    ensures code in Apply(h, st).ledger
    ensures Apply(h, st).ledger[code].joined == h.ledger[code].joined +
            if Uses(st, code) && Grew(h.chans, Apply(h, st).chans) then 1 else 0
  {
    if h.sessions[st.s].guest {
      assert Apply(h, st) == h;
    } else {
      JoinCounts(h, h.sessions[st.s].user, st.k.code, st.now);
      assert Apply(h, st) == JoinWith(h, h.sessions[st.s].user, st.k.code, st.now).hub;
    }
  }

  /** A step adds one to a code's counter exactly when it redeems that code and a membership appears. */
  lemma RedemptionsCounted(h: Hub, st: Step, code: int)
    requires Sane(h) && Enabled(h, st) && code in h.ledger
    ensures code in Apply(h, st).ledger
    ensures Apply(h, st).ledger[code].joined == h.ledger[code].joined +
            if Uses(st, code) && Grew(h.chans, Apply(h, st).chans) then 1 else 0
  {
    if st.DoSignUp? {
      SignUpCounts(h, st, code);
    } else if st.DoCmd? && st.k.Join? {
      JoinStepCounts(h, st, code);
    } else if st.DoCmd? {
      CmdCounts(h, st.s, st.k, st.now, code);
    } else {
      assert Apply(h, st).ledger == h.ledger;
    }
  }

  // ---- the last use -------------------------------------------------------------------------------

  /** The code is gone exactly when it has been turned into all the memberships it was made for. */
  ghost predicate GoneWhenUsedUp(h: Hub, code: int) {
    code in h.ledger && (code !in h.invites <==>
      h.ledger[code].first >= 0 && h.ledger[code].joined == h.ledger[code].first)
  }

  lemma NothingGained(chans: map<int, Chan>)
    ensures !Grew(chans, chans)
  {
  }

  lemma RedeemLast(h: Hub, x: int, code: int)
    requires Sane(h) && code in h.invites && h.invites[code].uses != 0 && h.invites[code].cid in h.chans
    ensures GoneWhenUsedUp(Redeem(h, x, code), code)
  {
    assert InviteOk(h.invites[code], h.ledger[code]);
  }

  lemma JoinLast(h: Hub, a: int, code: int, now: int)
    requires Sane(h) && Grew(h.chans, JoinWith(h, a, code, now).hub.chans)
    ensures GoneWhenUsedUp(JoinWith(h, a, code, now).hub, code)
  {
    PrunedSane(h, code, now);
    NothingGained(h.chans);
    RedeemLast(h, a, code);
  }

  lemma InvitedLast(h: Hub, code: int, pass: int, now: int)
    requires Sane(h) && Invited(h, code, pass, now).reply == Done
    ensures GoneWhenUsedUp(Invited(h, code, pass, now).hub, code)
  {
    PrunedSane(h, code, now);
    NewUserSane(h, pass);
    RedeemLast(NewUser(h, pass), h.nextUser, code);
  }

  lemma JoinStepLast(h: Hub, st: Step, code: int)
    requires Sane(h) && Enabled(h, st) && st.DoCmd? && st.k == Join(code) && Grew(h.chans, Apply(h, st).chans)
    ensures GoneWhenUsedUp(Apply(h, st), code)
  {
    NothingGained(h.chans);
    assert Apply(h, st) == JoinWith(h, h.sessions[st.s].user, code, st.now).hub;
    JoinLast(h, h.sessions[st.s].user, code, st.now);
  }

  lemma SignUpLast(h: Hub, st: Step, code: int)
    requires Sane(h) && Enabled(h, st) && st.DoSignUp? && st.code == Some(code) && Grew(h.chans, Apply(h, st).chans)
    ensures GoneWhenUsedUp(Apply(h, st), code)
  {
    SignUpChans(h, st);
    SignUpInvites(h, st);
    EnrolledLast(h, code, st.taken, st.pass, st.now);
  }

  lemma SignUpInvites(h: Hub, st: Step)
    requires Enabled(h, st) && st.DoSignUp?
    ensures var h' := Enrolled(h, st.code, st.taken, st.pass, st.now).hub;
            Apply(h, st).ledger == h'.ledger && Apply(h, st).invites == h'.invites
  {
  }

  lemma EnrolledLast(h: Hub, code: int, taken: bool, pass: int, now: int)
    requires Sane(h) && Grew(h.chans, Enrolled(h, Some(code), taken, pass, now).hub.chans)
    ensures GoneWhenUsedUp(Enrolled(h, Some(code), taken, pass, now).hub, code)
  {
    NothingGained(h.chans);
    PrunedSane(h, code, now);
    InvitedLast(h, code, pass, now);
  }

  /** Redeeming a code removes it exactly when that was its last use: then it has created as many
      memberships as it was made for. */
  lemma LastUse(h: Hub, st: Step, code: int)
    requires Sane(h) && Enabled(h, st) && Uses(st, code) && Grew(h.chans, Apply(h, st).chans)
    ensures GoneWhenUsedUp(Apply(h, st), code)
  {
    if st.DoCmd? { JoinStepLast(h, st, code); } else { SignUpLast(h, st, code); }
  }

  // ---- and after it ---------------------------------------------------------------------------------

  /** The code is gone, and its history with `joined` memberships stands. */
  ghost predicate Closed(h: Hub, code: int, l: Ledger) {
    code !in h.invites && code in h.ledger && h.ledger[code] == l
  }

  lemma OnChanClosed(h: Hub, a: int, c: int, k: ChanCmd, code: int, l: Ledger)
    requires Closed(h, code, l) && (k.NewInvite? ==> k.code !in h.ledger)
    ensures Closed(OnChan(h, a, c, k).hub, code, l)
  {
  }

  lemma RedeemClosed(h: Hub, x: int, other: int, code: int, l: Ledger)
    requires Closed(h, code, l) && other in h.invites && h.invites[other].cid in h.chans
    ensures Closed(Redeem(h, x, other), code, l)
  {
  }

  lemma JoinClosed(h: Hub, a: int, other: int, now: int, code: int, l: Ledger)
    requires Closed(h, code, l)
    ensures Closed(JoinWith(h, a, other, now).hub, code, l)
  {
    var h1 := Pruned(h, other, now);
    if other in h1.invites && h1.invites[other].cid in h1.chans { RedeemClosed(h1, a, other, code, l); }
  }

  lemma EnrolledClosed(h: Hub, with: Option<int>, taken: bool, pass: int, now: int, code: int, l: Ledger)
    requires Closed(h, code, l)
    ensures Closed(Enrolled(h, with, taken, pass, now).hub, code, l)
  {
    if with.Some? {
      var h1 := Pruned(h, with.value, now);
      if with.value in h1.invites && h1.invites[with.value].cid in h1.chans {
        RedeemClosed(NewUser(h1, pass), h.nextUser, with.value, code, l);
      }
    }
  }

  lemma OtherClosed(h: Hub, s: int, k: Cmd, now: int, code: int, l: Ledger)
    requires Enabled(h, DoCmd(s, k, now)) && !k.Join? && !k.OnChannel? && Closed(h, code, l)
    ensures Closed(HandleCmd(h, s, k, now).hub, code, l)
  {
    OtherCounts(h, s, k, now);
    match k
    case UserMod(_, _) =>
    case UserAdd(_, _, _) =>
    case Create(_, _, _) =>
    case _ =>
  }

  lemma StepClosed(h: Hub, st: Step, code: int, l: Ledger)
    requires Enabled(h, st) && Closed(h, code, l)
    ensures Closed(Apply(h, st), code, l)
  {
    if st.DoSignUp? {
      SignUpInvites(h, st);
      EnrolledClosed(h, st.code, st.taken, st.pass, st.now, code, l);
    } else if st.DoCmd? {
      var a := h.sessions[st.s].user;
      if st.k.Join? {
        JoinClosed(h, a, st.k.code, st.now, code, l);
      } else if st.k.OnChannel? {
        OnChanClosed(h, a, st.k.c, st.k.k, code, l);
      } else {
        OtherClosed(h, st.s, st.k, st.now, code, l);
      }
    }
  }

  lemma {:induction false} RunClosed(h: Hub, steps: seq<Step>, code: int, l: Ledger)
    requires Possible(h, steps) && Closed(h, code, l)
    ensures Closed(Run(h, steps), code, l)
    decreases |steps|
  {
    if steps != [] {
      StepClosed(h, steps[0], code, l);
      RunClosed(Apply(h, steps[0]), steps[1..], code, l);
    }
  }

  /** A code that its last use removed stays removed, and has then created, and goes on having created,
      exactly as many memberships as it was made for. */
  lemma UsedUpForGood(h: Hub, st: Step, steps: seq<Step>, code: int)
    requires Sane(h) && Enabled(h, st) && Uses(st, code) && Grew(h.chans, Apply(h, st).chans)
    requires code !in Apply(h, st).invites && Possible(Apply(h, st), steps)
    ensures var h' := Run(Apply(h, st), steps);
            code !in h'.invites && code in h'.ledger && 0 <= h'.ledger[code].first == h'.ledger[code].joined
  {
    LastUse(h, st, code);
    RunClosed(Apply(h, st), steps, code, Apply(h, st).ledger[code]);
  }
}
