/** A ban without an end stands until somebody lifts it, through sweeps, joins, sign-ups and everything else. */
module BanProof {
  import opened Util
  import opened Access
  import opened MembershipProof

  predicate Barred(chans: map<int, Chan>, c: int, u: int) {
    c in chans && u in chans[c].bans && chans[c].bans[u] <= 0
  }

  /** Unbanning the account, banning it until some time instead, or deleting the channel. */
  predicate Lifts(st: Step, c: int, u: int) {
    && st.DoCmd? && st.k.OnChannel? && st.k.c == c
    && (st.k.k == Unban(u) || st.k.k.Delete? || (st.k.k.Ban? && st.k.k.t == u && st.k.k.until > 0))
  }

  lemma OnChanBars(h: Hub, a: int, x: int, k: ChanCmd, c: int, u: int)
    requires Barred(h.chans, c, u)
    requires x == c ==> k != Unban(u) && !k.Delete? && !(k.Ban? && k.t == u && k.until > 0)
    ensures Barred(OnChan(h, a, x, k).hub.chans, c, u)
  {
  }

  lemma RedeemBars(h: Hub, x: int, code: int, c: int, u: int)
    requires Barred(h.chans, c, u) && code in h.invites && h.invites[code].cid in h.chans
    ensures Barred(Redeem(h, x, code).chans, c, u)
  {
  }

  lemma EnrolledBars(h: Hub, code: Option<int>, taken: bool, pass: int, now: int, c: int, u: int)
    requires Barred(h.chans, c, u)
    ensures Barred(Enrolled(h, code, taken, pass, now).hub.chans, c, u)
  {
    if code.Some? {
      var h1 := Pruned(h, code.value, now);
      if code.value in h1.invites && h1.invites[code.value].cid in h1.chans {
        RedeemBars(NewUser(h1, pass), h.nextUser, code.value, c, u);
      }
    }
  }

  lemma CmdBars(h: Hub, s: int, k: Cmd, now: int, c: int, u: int)
    requires Sane(h) && Enabled(h, DoCmd(s, k, now)) && Barred(h.chans, c, u) && !Lifts(DoCmd(s, k, now), c, u)
    ensures Barred(HandleCmd(h, s, k, now).hub.chans, c, u)
  {
    match k
    case OnChannel(x, kk) => OnChanBars(h, h.sessions[s].user, x, kk, c, u);
    case Join(code) =>
      var h1 := Pruned(h, code, now);
      if code in h1.invites && h1.invites[code].cid in h1.chans {
        RedeemBars(h1, h.sessions[s].user, code, c, u);
      }
    case UserMod(_, _) =>
    case UserAdd(_, _, _) =>
    case _ =>
  }

  lemma StepBars(h: Hub, st: Step, c: int, u: int)
    requires Sane(h) && Enabled(h, st) && Barred(h.chans, c, u) && !Lifts(st, c, u)
    ensures Barred(Apply(h, st).chans, c, u)
  {
    match st
    case DoCmd(s, k, now) => CmdBars(h, s, k, now, c, u);
    case DoSignUp(_, _, _, _, _, _, _) => SignUpBars(h, st, c, u);
    case _ =>
  }

  lemma SignUpBars(h: Hub, st: Step, c: int, u: int)
    requires Enabled(h, st) && st.DoSignUp? && Barred(h.chans, c, u)
    ensures Barred(Apply(h, st).chans, c, u)
  {
    EnrolledBars(h, st.code, st.taken, st.pass, st.now, c, u);
    assert Apply(h, st).chans == Enrolled(h, st.code, st.taken, st.pass, st.now).hub.chans;
  }

  ghost predicate NobodyLifts(steps: seq<Step>, c: int, u: int) {
    forall i :: 0 <= i < |steps| ==> !Lifts(steps[i], c, u)
  }

  /** Until somebody lifts it the ban stands, and the account is at no point a member. */
  lemma {:induction false} PermanentBanStands(h: Hub, steps: seq<Step>, c: int, u: int)
    requires Sane(h) && Possible(h, steps) && Barred(h.chans, c, u) && NobodyLifts(steps, c, u)
    ensures var h' := Run(h, steps); Barred(h'.chans, c, u) && u !in h'.chans[c].members
    decreases |steps|
  {
    if steps == [] {
      assert ChanOk(h.chans[c], h.nextUser);
    } else {
      StepBars(h, steps[0], c, u);
      ApplySane(h, steps[0]);
      PermanentBanStands(Apply(h, steps[0]), steps[1..], c, u);
    }
  }
}
