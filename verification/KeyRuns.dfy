/** The key protocol over whole runs: agreement, one generator per epoch, and what an account that was
    removed cannot learn. */
module KeyRuns {
  import opened Util
  import opened Crypto
  import opened Device
  import opened KeyEpochs
  import opened KeyProof

  // ---- each step keeps the invariant ------------------------------------------------------------

  lemma SealsGrow(made: Made, sent: map<Msg, string>, k: (string, nat), key: Key)
    requires SealsTrue(made, sent) && k !in made
    ensures SealsTrue(made[k := key], sent)
  {
    forall m | m in sent ensures TrueSeal(made[k := key], sent, m) {
      assert TrueSeal(made, sent, m);
    }
  }

  lemma NetGrows(made: Made, sent: map<Msg, string>, k: (string, nat), key: Key, e: Event)
    requires TrueEvent(made, sent, e) && k !in made
    ensures TrueEvent(made[k := key], sent, e)
  {
  }

  lemma DrawKeeps(w: World, a: Answer, ch: string, epoch: nat, key: Key)
    requires KeyInv(w) && a.dev in w.devs && Draws(w, a, ch)
    requires (ch, epoch) !in w.made && 1 <= epoch <= MAX_EPOCH
    ensures var made := w.made[(ch, epoch) := key];
            && SealsTrue(made, w.sent) && NetTrue(made, w.sent, w.net)
            && DevsTrue(made, w.sent, w.devs[a.dev := Handle(w.devs[a.dev], Reply(a, ch, epoch, key))])
  {
    var d' := Handle(w.devs[a.dev], Reply(a, ch, epoch, key));
    var made := w.made[(ch, epoch) := key];
    SealsGrow(w.made, w.sent, (ch, epoch), key);
    DrawTrue(w.made, w.sent, w.devs[a.dev], a, ch, epoch, key);
    forall d | d in w.devs ensures DevTrue(made, w.sent, w.devs[d]) {
      DevTrueGrows(w.made, w.sent, (ch, epoch), key, w.devs[d]);
    }
    forall p | p in w.net ensures TrueEvent(made, w.sent, p.1) {
      NetGrows(w.made, w.sent, (ch, epoch), key, p.1);
    }
  }

  lemma AnswerCounted(w: World, k: (string, nat), key: Key)
    requires Counted(w.live, w.epochs, w.made, w.answers) && Distinct(w.made) && k in w.answers
    requires forall j :: j in w.made ==> w.made[j] != key
    ensures Counted(w.live, w.epochs, w.made, w.answers - {k})
    ensures Counted(w.live, w.epochs, w.made[k := key], w.answers - {k}) && Distinct(w.made[k := key])
  {
  }

  lemma AnswerKeeps(w: World, ch: string, epoch: nat, key: Key)
    requires KeyInv(w) && Enabled(w, DoAnswer(ch, epoch, key))
    ensures KeyInv(Answered(w, ch, epoch, key))
  {
    var a := w.answers[(ch, epoch)];
    AnswerCounted(w, (ch, epoch), key);
    assert InRange(w.epochs, (ch, epoch));
    if Draws(w, a, ch) {
      DrawKeeps(w, a, ch, epoch, key);
    } else {
      assert Handle(w.devs[a.dev], Reply(a, ch, epoch, key)) == w.devs[a.dev];
      assert w.devs[a.dev := w.devs[a.dev]] == w.devs;
    }
  }

  lemma SealIsTrue(w: World, d: int, ch: string, text: string, id: nat, file: bool)
    requires KeyInv(w) && Enabled(w, DoSeal(d, ch, text, id, file))
    ensures var m := Sealing(w, d, ch, text, id, file);
            var sent' := w.sent[m := text];
            SealsTrue(w.made, sent') && (m in w.sent ==> sent' == w.sent)
  {
    var m := Sealing(w, d, ch, text, id, file);
    var sent' := w.sent[m := text];
    assert DevTrue(w.made, w.sent, w.devs[d]);
    if m in w.sent {
      assert TrueSeal(w.made, w.sent, m);
      assert sent' == w.sent;
    }
    forall x | x in sent' ensures TrueSeal(w.made, sent', x) {
      if x != m {
        assert TrueSeal(w.made, w.sent, x);
      }
    }
  }

  lemma ReadsGrow(made: Made, sent: map<Msg, string>, d: Dev, m: Msg, text: string)
    requires DevTrue(made, sent, d) && m !in sent
    ensures DevTrue(made, sent[m := text], d)
  {
    forall s | s in d.shown ensures TrueShown(sent[m := text], s) {
      assert TrueShown(sent, s);
    }
  }

  lemma EventGrows(made: Made, sent: map<Msg, string>, e: Event, m: Msg, text: string)
    requires TrueEvent(made, sent, e)
    ensures TrueEvent(made, sent[m := text], e)
  {
  }

  lemma SealKeeps(w: World, d: int, ch: string, text: string, id: nat, file: bool)
    requires KeyInv(w) && Enabled(w, DoSeal(d, ch, text, id, file))
    ensures KeyInv(w.(sent := w.sent[Sealing(w, d, ch, text, id, file) := text]))
  {
    var m := Sealing(w, d, ch, text, id, file);
    SealIsTrue(w, d, ch, text, id, file);
    if m !in w.sent {
      forall x | x in w.devs ensures DevTrue(w.made, w.sent[m := text], w.devs[x]) {
        ReadsGrow(w.made, w.sent, w.devs[x], m, text);
      }
      forall p | p in w.net ensures TrueEvent(w.made, w.sent[m := text], p.1) {
        EventGrows(w.made, w.sent, p.1, m, text);
      }
    }
  }

  lemma DeliveredTrue(w: World, d: int, e: Event)
    requires KeyInv(w) && Enabled(w, DoDeliver(d, e))
    ensures DevTrue(w.made, w.sent, Handle(w.devs[d], e))
  {
    if (d, e) in w.net {
      assert TrueEvent(w.made, w.sent, (d, e).1);
    }
    HandleTrue(w.made, w.sent, w.devs[d], e);
  }

  lemma MisdeliveredTrue(w: World, d: int, ch: string, epoch: nat, from: Option<int>, writer: int, share: Up)
    requires KeyInv(w) && Enabled(w, DoMisdeliver(d, ch, epoch, from, writer, share))
    ensures DevTrue(w.made, w.sent, OnKeyShare(w.devs[d], ch, epoch, from, share.wrapped))
  {
    assert DevTrue(w.made, w.sent, w.devs[writer]);
    assert TrueUp(w.made, share);
    MisdeliveryHarmless(w.made, w.sent, w.devs[d], ch, epoch, from, share);
  }

  lemma DevChangeKeeps(w: World, d: int, d': Dev)
    requires KeyInv(w) && DevTrue(w.made, w.sent, d')
    ensures KeyInv(w.(devs := w.devs[d := d']))
  {
  }

  lemma NewFramesTrue(w: World, s: Step, more: set<(int, Event)>)
    requires KeyInv(w) && Enabled(w, s)
    requires match s
             case DoInfo(d, ch) => more == {(d, GotInfo(Info(ch, true, w.Epoch(ch))))}
             case DoAsk(d, ch, epoch) => more == Asked(w, d, ch, epoch)
             case DoRelay(_, share) => more == Relayed(w, share)
             case DoPeers(d, ch, epoch, peers) => more == {(d, GotPeers(ch, epoch, w.devs[d].keys[(ch, epoch)], peers))}
             case _ => false
    ensures NetTrue(w.made, w.sent, more)
  {
    match s
    case DoInfo(_, _) =>
    case DoAsk(_, _, _) =>
    case DoRelay(d, share) =>
      assert DevTrue(w.made, w.sent, w.devs[d]);
      assert TrueUp(w.made, share);
    case DoPeers(d, ch, epoch, _) =>
      assert DevTrue(w.made, w.sent, w.devs[d]);
      assert (ch, epoch) in w.devs[d].keys;
  }

  lemma NetChangeKeeps(w: World, more: set<(int, Event)>)
    requires KeyInv(w) && NetTrue(w.made, w.sent, more)
    ensures KeyInv(w.(net := w.net + more))
  {
  }

  lemma CreateCounted(w: World, d: int, ch: string)
    requires KeyInv(w) && ch !in w.epochs
    ensures Counted(w.live + {ch}, w.epochs[ch := 1], w.made, w.answers[(ch, 1) := Answer(d, true)])
  {
    forall k | k in w.made ensures InRange(w.epochs[ch := 1], k) {
      assert InRange(w.epochs, k);
    }
  }

  lemma RotateCounted(w: World, d: int, ch: string)
    requires KeyInv(w) && ch in w.live && w.Epoch(ch) < MAX_EPOCH
    ensures Counted(w.live, w.epochs[ch := w.Epoch(ch) + 1], w.made,
            w.answers[(ch, w.Epoch(ch) + 1) := Answer(d, false)])
  {
    forall k | k in w.made ensures InRange(w.epochs[ch := w.Epoch(ch) + 1], k) && k != (ch, w.Epoch(ch) + 1) {
      assert InRange(w.epochs, k);
    }
  }

  lemma ApplyFrames(w: World, s: Step)
    requires KeyInv(w) && Enabled(w, s) && (s.DoInfo? || s.DoAsk? || s.DoRelay? || s.DoPeers?)
    ensures KeyInv(Apply(w, s)) && Apply(w, s).made == w.made
  {
    var more := match s
      case DoInfo(d, ch) => {(d, GotInfo(Info(ch, true, w.Epoch(ch))))}
      case DoAsk(d, ch, epoch) => Asked(w, d, ch, epoch)
      case DoRelay(_, share) => Relayed(w, share)
      case DoPeers(d, ch, epoch, peers) => {(d, GotPeers(ch, epoch, w.devs[d].keys[(ch, epoch)], peers))};
    assert Apply(w, s) == w.(net := w.net + more);
    NewFramesTrue(w, s, more);
    NetChangeKeeps(w, more);
  }

  lemma ApplyDevices(w: World, s: Step)
    requires KeyInv(w) && Enabled(w, s) && (s.DoDevice? || s.DoDeliver? || s.DoMisdeliver?)
    ensures KeyInv(Apply(w, s)) && Apply(w, s).made == w.made
  {
    match s
    case DoDevice(d, user, name) => DevChangeKeeps(w, d, Fresh(user, name, d));
    case DoDeliver(d, e) =>
      DeliveredTrue(w, d, e);
      DevChangeKeeps(w, d, Handle(w.devs[d], e));
    case DoMisdeliver(d, ch, epoch, from, writer, share) =>
      MisdeliveredTrue(w, d, ch, epoch, from, writer, share);
      DevChangeKeeps(w, d, OnKeyShare(w.devs[d], ch, epoch, from, share.wrapped));
  }

  /** Steps that touch no device, no frame and no key. */
  lemma ApplyHub(w: World, s: Step)
    requires KeyInv(w) && Enabled(w, s)
    requires s.DoConnect? || s.DoDisconnect? || s.DoSub? || s.DoUnsub? || s.DoRank? || s.DoCreate? || s.DoDelete? ||
             s.DoRotate? || s.DoLose?
    ensures KeyInv(Apply(w, s)) && Apply(w, s).made == w.made
  {
    if s.DoCreate? {
      CreateCounted(w, s.d, s.ch);
      HubMoved(w, Apply(w, s));
    } else if s.DoRotate? {
      RotateCounted(w, s.d, s.ch);
      HubMoved(w, Apply(w, s));
    } else {
      QuietCounted(w, s);
      HubMoved(w, Apply(w, s));
    }
  }

  lemma HubMoved(w: World, w': World)
    requires KeyInv(w) && w'.made == w.made && w'.sent == w.sent && w'.devs == w.devs && w'.net == w.net
    requires Counted(w'.live, w'.epochs, w'.made, w'.answers)
    ensures KeyInv(w')
  {
  }

  lemma QuietCounted(w: World, s: Step)
    requires KeyInv(w) && Enabled(w, s)
    requires s.DoConnect? || s.DoDisconnect? || s.DoSub? || s.DoUnsub? || s.DoRank? || s.DoDelete? || s.DoLose?
    ensures var w' := Apply(w, s);
            && Counted(w'.live, w'.epochs, w'.made, w'.answers)
            && w'.made == w.made && w'.sent == w.sent && w'.devs == w.devs && w'.net == w.net
  {
    match s
    case DoLose(ch, epoch) =>
    case DoDelete(ch) =>
    case _ =>
  }

  lemma ApplyKeeps(w: World, s: Step)
    requires KeyInv(w) && Enabled(w, s)
    ensures KeyInv(Apply(w, s))
  {
    if s.DoAnswer? {
      AnswerKeeps(w, s.ch, s.epoch, s.key);
    } else if s.DoSeal? {
      SealKeeps(w, s.d, s.ch, s.text, s.id, s.file);
    } else if s.DoDevice? || s.DoDeliver? || s.DoMisdeliver? {
      ApplyDevices(w, s);
    } else if s.DoInfo? || s.DoAsk? || s.DoRelay? || s.DoPeers? {
      ApplyFrames(w, s);
    } else {
      ApplyHub(w, s);
    }
  }

  lemma {:induction false} RunKeeps(w: World, steps: seq<Step>)
    requires KeyInv(w) && Possible(w, steps)
    ensures KeyInv(Run(w, steps))
    decreases |steps|
  {
    if steps != [] {
      ApplyKeeps(w, steps[0]);
      RunKeeps(Apply(w, steps[0]), steps[1..]);
    }
  }

  // ---- agreement -----------------------------------------------------------------------------------

  /** Two devices that hold a key for the same channel and epoch hold the same key. */
  lemma KeyAgreement(steps: seq<Step>, d1: int, d2: int, ch: string, epoch: nat)
    requires Possible(Init(), steps)
    requires var w := Run(Init(), steps);
             d1 in w.devs && d2 in w.devs && w.devs[d1].Holds(ch, epoch) && w.devs[d2].Holds(ch, epoch)
    ensures var w := Run(Init(), steps);
            w.devs[d1].keys[(ch, epoch)] == w.devs[d2].keys[(ch, epoch)]
  {
    RunKeeps(Init(), steps);
    var w := Run(Init(), steps);
    assert DevTrue(w.made, w.sent, w.devs[d1]) && DevTrue(w.made, w.sent, w.devs[d2]);
  }

  /** A sealed message opens to its text on every holder of its epoch's key, and under no other header. */
  lemma SealedMessagesOpen(steps: seq<Step>, m: Msg, d: int, ch: string, epoch: nat)
    requires Possible(Init(), steps) && epoch <= MAX_EPOCH
    requires var w := Run(Init(), steps);
             m in w.sent && d in w.devs && w.devs[d].Holds(ch, epoch)
    ensures var w := Run(Init(), steps);
            DecryptText(w.devs[d].keys[(ch, epoch)], ch, epoch, m.body) ==
            if ch == m.ch && epoch == m.epoch then Some(w.sent[m]) else None
  {
    RunKeeps(Init(), steps);
    var w := Run(Init(), steps);
    assert DevTrue(w.made, w.sent, w.devs[d]);
    assert TrueSeal(w.made, w.sent, m);
    OpensWhereSealed(w.made[(m.ch, m.epoch)], m.ch, m.epoch, w.sent[m], w.devs[d].keys[(ch, epoch)], ch, epoch);
  }

  /** What a device has on its screen reads as it was written; it never reported a frame unreadable, and
      it holds back only frames whose key it lacks. */
  lemma ScreensTellTheTruth(steps: seq<Step>, d: int)
    requires Possible(Init(), steps) && d in Run(Init(), steps).devs
    ensures var w := Run(Init(), steps);
            && w.devs[d].failed == []
            && (forall s :: s in w.devs[d].shown ==> s.m in w.sent && (s.Opened? ==> s.text == w.sent[s.m]))
            && forall ch, m :: ch in w.devs[d].views && m in w.devs[d].views[ch].pending ==>
              m in w.sent && m.ch == ch && !w.devs[d].Holds(ch, m.epoch)
  {
    RunKeeps(Init(), steps);
    var w := Run(Init(), steps);
    assert DevTrue(w.made, w.sent, w.devs[d]);
    forall s | s in w.devs[d].shown ensures s.m in w.sent && (s.Opened? ==> s.text == w.sent[s.m]) {
      assert TrueShown(w.sent, s);
    }
  }

  lemma MadeStays(w: World, s: Step, k: (string, nat))
    requires KeyInv(w) && Enabled(w, s) && k in w.made
    ensures k in Apply(w, s).made && Apply(w, s).made[k] == w.made[k]
    ensures s.DoAnswer? ==> (s.ch, s.epoch) != k
  {
    if s.DoAnswer? {
      assert Apply(w, s) == Answered(w, s.ch, s.epoch, s.key);
    } else if s.DoDevice? || s.DoDeliver? || s.DoMisdeliver? {
      ApplyDevices(w, s);
    } else if s.DoInfo? || s.DoAsk? || s.DoRelay? || s.DoPeers? {
      ApplyFrames(w, s);
    } else if s.DoSeal? {
      assert Apply(w, s).made == w.made;
    } else {
      ApplyHub(w, s);
    }
  }

  /** Once an epoch has its key, nobody draws another one for it and the key is never replaced. */
  lemma {:induction false} OneGenerator(w: World, steps: seq<Step>, k: (string, nat))
    requires KeyInv(w) && Possible(w, steps) && k in w.made
    ensures k in Run(w, steps).made && Run(w, steps).made[k] == w.made[k]
    ensures forall i :: 0 <= i < |steps| && steps[i].DoAnswer? ==> (steps[i].ch, steps[i].epoch) != k
    decreases |steps|
  {
    if steps != [] {
      var s := steps[0];
      ApplyKeeps(w, s);
      MadeStays(w, s, k);
      OneGenerator(Apply(w, s), steps[1..], k);
      assert forall i :: 1 <= i < |steps| ==> steps[i] == steps[1..][i - 1];
    }
  }
}
