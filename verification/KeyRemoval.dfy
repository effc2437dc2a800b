/** What an account that has lost its rank in a channel can still learn: no key of a later epoch. */
module KeyRemoval {
  import opened Util
  import opened Crypto
  import opened Device
  import opened HeldBack
  import opened KeyEpochs
  import opened KeyProof
  import opened KeyRuns

  /** The latest epoch an account may have been given: today's while it has a rank, otherwise that of its
      last day. */
  function Horizon(w: World, ch: string, u: int): nat {
    if w.Rank(ch, u) > 0 then w.Epoch(ch) else if (ch, u) in w.last then w.last[(ch, u)] else 0
  }

  ghost predicate KeyWithin(w: World, u: int, k: (string, nat)) { k.1 <= Horizon(w, k.0, u) }

  ghost predicate DevWithin(w: World, u: int, d: Dev) {
    d.user == u ==> forall k :: k in d.keys ==> KeyWithin(w, u, k)
  }

  ghost predicate FrameWithin(w: World, u: int, d: int, e: Event) {
    e.GotKeyShare? ==> d in w.devs && (w.devs[d].user == u ==> KeyWithin(w, u, (e.ch, e.epoch)))
  }

  ghost predicate AnswerWithin(w: World, u: int, k: (string, nat))
    requires k in w.answers
  {
    w.answers[k].dev in w.devs && (w.devs[w.answers[k].dev].user == u ==> KeyWithin(w, u, k))
  }

  ghost predicate Past(w: World) {
    forall k: (string, int) :: k in w.last ==> w.last[k] <= w.Epoch(k.0)
  }

  /** Whatever `u` holds, or is about to get, is within its horizon. */
  ghost predicate Within(w: World, u: int) {
    && Past(w)
    && (forall d :: d in w.devs ==> DevWithin(w, u, w.devs[d]))
    && (forall p :: p in w.net ==> FrameWithin(w, u, p.0, p.1))
    && (forall k :: k in w.answers ==> AnswerWithin(w, u, k))
  }

  /** Shares reach the devices of `u` only as the hub relays them. */
  ghost predicate Relays(w: World, s: Step, u: int) {
    s.DoMisdeliver? ==> s.d in w.devs && w.devs[s.d].user != u
  }

  // ---- what a frame can change on a device -----------------------------------------------------------

  /** The one epoch whose key an event can bring. */
  function Brings(e: Event): Option<(string, nat)> {
    match e
    case GotKeyShare(ch, epoch, _, _) => Some((ch, epoch))
    case GotCreated(i, _) => Some((i.ch, i.epoch))
    case GotRotated(ch, epoch, _) => Some((ch, epoch))
    case _ => None
  }

  lemma HandleBrings(d: Dev, e: Event)
    ensures SameDevice(d, Handle(d, e))
    ensures forall k :: k in Handle(d, e).keys ==> k in d.keys || Brings(e) == Some(k)
  {
    match e
    case GotMsg(m) =>
    case GotKeyShare(ch, epoch, from, w) =>
      if from.Some? && UnwrapKey(d.pub, from.value, ch, epoch, w).Some? && ch in d.views {
        RenderAllDevice(Unlocked(d, ch, epoch, UnwrapKey(d.pub, from.value, ch, epoch, w).value), ch,
          d.views[ch].pending);
      }
    case GotPeers(ch, epoch, key, peers) => ReshareKeeps(d, ch, epoch, key, peers);
    case GotCreated(i, drawn) =>
      InitKeepsViews(d, [i], [drawn]);
      InitOne(d, i, drawn);
    case _ =>
  }

  // ---- the horizon never comes closer -------------------------------------------------------------------

  ghost predicate Rises(w: World, w': World, u: int) {
    forall ch :: Horizon(w, ch, u) <= Horizon(w', ch, u)
  }

  lemma RankRises(w: World, ch: string, v: int, r: nat, u: int)
    requires Past(w)
    ensures Past(SetRank(w, ch, v, r)) && Rises(w, SetRank(w, ch, v, r), u)
  {
  }

  lemma CreateRises(w: World, d: int, ch: string, u: int)
    requires KeyInv(w) && Past(w) && Enabled(w, DoCreate(d, ch))
    ensures Past(Apply(w, DoCreate(d, ch))) && Rises(w, Apply(w, DoCreate(d, ch)), u)
  {
  }

  lemma RotateRises(w: World, d: int, ch: string, u: int)
    requires KeyInv(w) && Past(w) && Enabled(w, DoRotate(d, ch))
    ensures Past(Apply(w, DoRotate(d, ch))) && Rises(w, Apply(w, DoRotate(d, ch)), u)
  {
  }

  lemma SameHub(w: World, s: Step)
    requires Enabled(w, s) && !s.DoRank? && !s.DoCreate? && !s.DoRotate?
    ensures Apply(w, s).rank == w.rank && Apply(w, s).epochs == w.epochs && Apply(w, s).last == w.last
  {
    if s.DoAnswer? {
      assert Apply(w, s) == Answered(w, s.ch, s.epoch, s.key);
    }
  }

  lemma SameRises(w: World, w': World, u: int)
    requires Past(w) && w'.rank == w.rank && w'.epochs == w.epochs && w'.last == w.last
    ensures Past(w') && Rises(w, w', u)
  {
    assert forall ch :: Horizon(w, ch, u) == Horizon(w', ch, u);
    assert forall ch :: w'.Epoch(ch) == w.Epoch(ch);
  }

  lemma HorizonRises(w: World, s: Step, u: int)
    requires KeyInv(w) && Past(w) && Enabled(w, s)
    ensures Past(Apply(w, s)) && Rises(w, Apply(w, s), u)
  {
    if s.DoRank? {
      RankRises(w, s.ch, s.user, s.r, u);
    } else if s.DoCreate? {
      CreateRises(w, s.d, s.ch, u);
    } else if s.DoRotate? {
      RotateRises(w, s.d, s.ch, u);
    } else {
      SameHub(w, s);
      SameRises(w, Apply(w, s), u);
    }
  }

  // ---- what each step adds is within the horizon -----------------------------------------------------------

  lemma SeesWithin(w: World, u: int, k: (string, nat))
    requires KeyInv(w) && w.Rank(k.0, u) > 0 && (k in w.made || k in w.answers)
    ensures KeyWithin(w, u, k)
  {
    assert InRange(w.epochs, k);
  }

  lemma RelayedWithin(w: World, d: int, share: Up, u: int)
    requires KeyInv(w) && Enabled(w, DoRelay(d, share))
    ensures forall p :: p in Relayed(w, share) ==> FrameWithin(w, u, p.0, p.1)
  {
    assert DevTrue(w.made, w.sent, w.devs[d]);
    assert TrueUp(w.made, share);
    if share.toUser == u {
      SeesWithin(w, u, (share.ch, share.epoch));
    }
  }

  lemma NewDevWithin(w: World, u: int, d: Dev, e: Event)
    requires DevWithin(w, u, d) && (Brings(e).Some? && d.user == u ==> KeyWithin(w, u, Brings(e).value))
    ensures DevWithin(w, u, Handle(d, e))
  {
    HandleBrings(d, e);
  }

  lemma WithinMoves(w: World, w': World, u: int)
    requires Within(w, u) && Past(w') && Rises(w, w', u)
    requires forall d :: d in w.devs ==> d in w'.devs && SameDevice(w.devs[d], w'.devs[d])
    requires forall d :: d in w'.devs && (d !in w.devs || w'.devs[d] != w.devs[d]) ==> DevWithin(w', u, w'.devs[d])
    requires forall p :: p in w'.net && p !in w.net ==> FrameWithin(w', u, p.0, p.1)
    requires forall k :: k in w'.answers && (k !in w.answers || w.answers[k] != w'.answers[k]) ==>
             AnswerWithin(w', u, k)
    ensures Within(w', u)
  {
    forall d | d in w'.devs ensures DevWithin(w', u, w'.devs[d]) {
      if d in w.devs && w'.devs[d] == w.devs[d] {
        assert DevWithin(w, u, w.devs[d]);
      }
    }
    forall p | p in w'.net ensures FrameWithin(w', u, p.0, p.1) {
      if p in w.net {
        assert FrameWithin(w, u, p.0, p.1);
      }
    }
    forall k | k in w'.answers ensures AnswerWithin(w', u, k) {
      if k in w.answers && w.answers[k] == w'.answers[k] {
        assert AnswerWithin(w, u, k);
        assert SameDevice(w.devs[w.answers[k].dev], w'.devs[w.answers[k].dev]);
      }
    }
  }

  lemma DevMoves(w: World, d: int, d': Dev, u: int)
    requires Within(w, u) && (d in w.devs ==> SameDevice(w.devs[d], d')) && DevWithin(w, u, d')
    ensures Within(w.(devs := w.devs[d := d']), u)
  {
    var w' := w.(devs := w.devs[d := d']);
    SameRises(w, w', u);
    assert forall k :: KeyWithin(w, u, k) <==> KeyWithin(w', u, k);
    WithinMoves(w, w', u);
  }

  lemma NetMoves(w: World, more: set<(int, Event)>, u: int)
    requires Within(w, u) && forall p :: p in more ==> FrameWithin(w, u, p.0, p.1)
    ensures Within(w.(net := w.net + more), u)
  {
    var w' := w.(net := w.net + more);
    SameRises(w, w', u);
    forall p | p in w'.net && p !in w.net ensures FrameWithin(w', u, p.0, p.1) {
      assert FrameWithin(w, u, p.0, p.1);
    }
    WithinMoves(w, w', u);
  }

  lemma HubMoves(w: World, w': World, u: int)
    requires Within(w, u) && Past(w') && Rises(w, w', u)
    requires w'.devs == w.devs && w'.net == w.net
    requires forall k :: k in w'.answers ==> (k in w.answers && w'.answers[k] == w.answers[k]) || AnswerWithin(w', u, k)
    ensures Within(w', u)
  {
    WithinMoves(w, w', u);
  }

  // ---- every step keeps it ------------------------------------------------------------------------------------

  lemma DeliverWithin(w: World, d: int, e: Event, u: int)
    requires KeyInv(w) && Within(w, u) && Enabled(w, DoDeliver(d, e))
    ensures Within(w.(devs := w.devs[d := Handle(w.devs[d], e)]), u)
  {
    HandleBrings(w.devs[d], e);
    assert DevWithin(w, u, w.devs[d]);
    if (d, e) in w.net {
      assert FrameWithin(w, u, d, e);
    }
    NewDevWithin(w, u, w.devs[d], e);
    DevMoves(w, d, Handle(w.devs[d], e), u);
  }

  lemma MisdeliverWithin(w: World, d: int, ch: string, epoch: nat, from: Option<int>, blob: Wrapped, u: int)
    requires KeyInv(w) && Within(w, u) && d in w.devs && w.devs[d].user != u
    ensures Within(w.(devs := w.devs[d := OnKeyShare(w.devs[d], ch, epoch, from, blob)]), u)
  {
    HandleBrings(w.devs[d], GotKeyShare(ch, epoch, from, blob));
    DevMoves(w, d, OnKeyShare(w.devs[d], ch, epoch, from, blob), u);
  }

  lemma AnswerLess(w: World, k: (string, nat), made: Made, u: int)
    requires Within(w, u)
    ensures Within(w.(answers := w.answers - {k}, made := made), u)
  {
    var w' := w.(answers := w.answers - {k}, made := made);
    SameRises(w, w', u);
    HubMoves(w, w', u);
  }

  lemma DrawWithin(w: World, ch: string, epoch: nat, key: Key, u: int)
    requires KeyInv(w) && Within(w, u) && Enabled(w, DoAnswer(ch, epoch, key))
    ensures Within(Answered(w, ch, epoch, key), u)
  {
    var a := w.answers[(ch, epoch)];
    var e := Reply(a, ch, epoch, key);
    assert AnswerWithin(w, u, (ch, epoch));
    assert DevWithin(w, u, w.devs[a.dev]);
    HandleBrings(w.devs[a.dev], e);
    NewDevWithin(w, u, w.devs[a.dev], e);
    DevMoves(w, a.dev, Handle(w.devs[a.dev], e), u);
    AnswerLess(w.(devs := w.devs[a.dev := Handle(w.devs[a.dev], e)]), (ch, epoch), Answered(w, ch, epoch, key).made, u);
  }

  lemma EpochWithin(w: World, s: Step, u: int)
    requires KeyInv(w) && Within(w, u) && Enabled(w, s) && (s.DoCreate? || s.DoRotate?)
    ensures Within(Apply(w, s), u)
  {
    HorizonRises(w, s, u);
    HubMoves(w, Apply(w, s), u);
  }

  lemma NotAShare(w: World, d: int, e: Event, u: int)
    requires Within(w, u) && !e.GotKeyShare?
    ensures Within(w.(net := w.net + {(d, e)}), u)
  {
    assert FrameWithin(w, u, d, e);
    NetMoves(w, {(d, e)}, u);
  }

  lemma AskedWithin(w: World, d: int, ch: string, epoch: nat, u: int)
    requires Within(w, u) && d in w.devs
    ensures Within(w.(net := w.net + Asked(w, d, ch, epoch)), u)
  {
    forall p | p in Asked(w, d, ch, epoch) ensures FrameWithin(w, u, p.0, p.1) {
      assert p.1 == Request(w, d, ch, epoch);
    }
    NetMoves(w, Asked(w, d, ch, epoch), u);
  }

  lemma FramesWithin(w: World, s: Step, u: int)
    requires KeyInv(w) && Within(w, u) && Enabled(w, s) && (s.DoInfo? || s.DoAsk? || s.DoRelay? || s.DoPeers?)
    ensures Within(Apply(w, s), u)
  {
    match s
    case DoInfo(d, ch) => NotAShare(w, d, GotInfo(Info(ch, true, w.Epoch(ch))), u);
    case DoAsk(d, ch, epoch) => AskedWithin(w, d, ch, epoch, u);
    case DoRelay(d, share) =>
      RelayedWithin(w, d, share, u);
      NetMoves(w, Relayed(w, share), u);
    case DoPeers(d, ch, epoch, peers) => NotAShare(w, d, GotPeers(ch, epoch, w.devs[d].keys[(ch, epoch)], peers), u);
  }

  lemma RestWithin(w: World, s: Step, u: int)
    requires KeyInv(w) && Within(w, u) && Enabled(w, s)
    requires s.DoConnect? || s.DoDisconnect? || s.DoSub? || s.DoUnsub? || s.DoDelete? || s.DoSeal?
    ensures Within(Apply(w, s), u)
  {
    SameHub(w, s);
    SameRises(w, Apply(w, s), u);
    HubMoves(w, Apply(w, s), u);
  }

  lemma DevicesWithin(w: World, s: Step, u: int)
    requires KeyInv(w) && Within(w, u) && Enabled(w, s) && Relays(w, s, u)
    requires s.DoDevice? || s.DoDeliver? || s.DoMisdeliver?
    ensures Within(Apply(w, s), u)
  {
    match s
    case DoDeliver(d, e) => DeliverWithin(w, d, e, u);
    case DoMisdeliver(d, ch, epoch, from, _, share) => MisdeliverWithin(w, d, ch, epoch, from, share.wrapped, u);
    case DoDevice(d, user, name) => DevMoves(w, d, Fresh(user, name, d), u);
  }

  lemma OthersWithin(w: World, s: Step, u: int)
    requires KeyInv(w) && Within(w, u) && Enabled(w, s)
    requires s.DoLose? || s.DoRank? || s.DoCreate? || s.DoRotate?
    ensures Within(Apply(w, s), u)
  {
    match s
    case DoLose(ch, epoch) => AnswerLess(w, (ch, epoch), w.made, u);
    case DoRank(ch, v, r) =>
      RankRises(w, ch, v, r, u);
      HubMoves(w, SetRank(w, ch, v, r), u);
    case _ => EpochWithin(w, s, u);
  }

  lemma ApplyWithin(w: World, s: Step, u: int)
    requires KeyInv(w) && Within(w, u) && Enabled(w, s) && Relays(w, s, u)
    ensures Within(Apply(w, s), u)
  {
    if s.DoDevice? || s.DoDeliver? || s.DoMisdeliver? {
      DevicesWithin(w, s, u);
    } else if s.DoAnswer? {
      DrawWithin(w, s.ch, s.epoch, s.key, u);
    } else if s.DoInfo? || s.DoAsk? || s.DoRelay? || s.DoPeers? {
      FramesWithin(w, s, u);
    } else if s.DoLose? || s.DoRank? || s.DoCreate? || s.DoRotate? {
      OthersWithin(w, s, u);
    } else {
      RestWithin(w, s, u);
    }
  }

  ghost predicate RunRelays(w: World, steps: seq<Step>, u: int)
    requires Possible(w, steps)
    decreases |steps|
  {
    steps == [] || (Relays(w, steps[0], u) && RunRelays(Apply(w, steps[0]), steps[1..], u))
  }

  lemma {:induction false} RunWithin(w: World, steps: seq<Step>, u: int)
    requires KeyInv(w) && Within(w, u) && Possible(w, steps) && RunRelays(w, steps, u)
    ensures KeyInv(Run(w, steps)) && Within(Run(w, steps), u)
    decreases |steps|
  {
    if steps != [] {
      ApplyKeeps(w, steps[0]);
      ApplyWithin(w, steps[0], u);
      RunWithin(Apply(w, steps[0]), steps[1..], u);
    }
  }

  // ---- the theorem ------------------------------------------------------------------------------------------

  /** `u` gets no rank back: nobody adds, invites or promotes it. */
  ghost predicate StaysOut(w: World, steps: seq<Step>, ch: string, u: int)
    requires Possible(w, steps)
    decreases |steps|
  {
    steps == [] || (Apply(w, steps[0]).Rank(ch, u) == 0 && StaysOut(Apply(w, steps[0]), steps[1..], ch, u))
  }

  lemma OutStep(w: World, s: Step, ch: string, u: int)
    requires Enabled(w, s) && w.Rank(ch, u) == 0 && Apply(w, s).Rank(ch, u) == 0
    ensures Horizon(Apply(w, s), ch, u) == Horizon(w, ch, u)
  {
    if s.DoRank? {
      assert Apply(w, s) == SetRank(w, s.ch, s.user, s.r);
    } else {
      assert Apply(w, s).last == w.last;
    }
  }

  lemma {:induction false} OutKeepsHorizon(w: World, steps: seq<Step>, ch: string, u: int)
    requires Possible(w, steps) && w.Rank(ch, u) == 0 && StaysOut(w, steps, ch, u)
    ensures Horizon(Run(w, steps), ch, u) == Horizon(w, ch, u) && Run(w, steps).Rank(ch, u) == 0
    decreases |steps|
  {
    if steps != [] {
      OutStep(w, steps[0], ch, u);
      OutKeepsHorizon(Apply(w, steps[0]), steps[1..], ch, u);
    }
  }

  /** An account without rank in `ch` that gets none back never holds, on any of its devices and under any
      name, the key of an epoch that began after it was removed. */
  lemma RemovedLearnsNothingNew(before: seq<Step>, after: seq<Step>, ch: string, u: int, d: int, epoch: nat)
    requires Possible(Init(), before) && RunRelays(Init(), before, u)
    requires var w := Run(Init(), before);
             && Possible(w, after) && RunRelays(w, after, u)
             && w.Rank(ch, u) == 0 && StaysOut(w, after, ch, u) && epoch > w.Epoch(ch)
    requires var w' := Run(Run(Init(), before), after);
             d in w'.devs && w'.devs[d].user == u && (ch, epoch) in w'.made
    ensures var w' := Run(Run(Init(), before), after);
            forall k :: k in w'.devs[d].keys ==> w'.devs[d].keys[k] != w'.made[(ch, epoch)]
  {
    RunWithin(Init(), before, u);
    var w := Run(Init(), before);
    RunWithin(w, after, u);
    OutKeepsHorizon(w, after, ch, u);
    var w' := Run(w, after);
    assert Horizon(w, ch, u) <= w.Epoch(ch);
    assert DevWithin(w', u, w'.devs[d]) && DevTrue(w'.made, w'.sent, w'.devs[d]);
    forall k | k in w'.devs[d].keys ensures w'.devs[d].keys[k] != w'.made[(ch, epoch)] {
      assert KeyWithin(w', u, k);
      assert k != (ch, epoch);
    }
  }
}
