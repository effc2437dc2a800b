/** Every epoch has one key: whoever holds a key for it holds that key, and what was sealed under it
    opens to what was written, however frames are delayed, repeated or put under other headers. */
module KeyProof {
  import opened Util
  import opened Crypto
  import opened Device
  import opened HeldBack
  import opened KeyEpochs

  type Made = map<(string, nat), Key>

  // ---- one device ------------------------------------------------------------------------------

  /** The wrapped key inside is the one made for the channel and epoch named outside. */
  ghost predicate TrueShare(made: Made, ch: string, epoch: nat, w: Wrapped) {
    (ch, epoch) in made && epoch <= MAX_EPOCH && w.Wrap? && w.ch == ch && w.ad == Aad(ch, epoch) &&
      w.key == made[(ch, epoch)]
  }

  ghost predicate TrueUp(made: Made, up: Up) {
    up.KeyShare? ==> TrueShare(made, up.ch, up.epoch, up.wrapped)
  }

  ghost predicate KeysTrue(made: Made, d: Dev) {
    && (forall k :: k in d.keys ==> k in made && k.1 <= MAX_EPOCH && d.keys[k] == made[k])
    && forall up :: up in d.written ==> TrueUp(made, up)
  }

  ghost predicate TrueSeal(made: Made, sent: map<Msg, string>, m: Msg) {
    && m in sent && (m.ch, m.epoch) in made
    && m.body == EncryptText(made[(m.ch, m.epoch)], m.ch, m.epoch, sent[m])
  }

  ghost predicate SealsTrue(made: Made, sent: map<Msg, string>) {
    forall m :: m in sent ==> TrueSeal(made, sent, m)
  }

  ghost predicate TrueShown(sent: map<Msg, string>, s: Shown) {
    s.m in sent && (s.Opened? ==> s.text == sent[s.m])
  }

  /** Everything on the screen reads as it was written, nothing was unreadable, and whatever is held back
      is a genuine message. */
  ghost predicate ReadsTrue(sent: map<Msg, string>, d: Dev) {
    && Filed(d) && d.failed == []
    && (forall s :: s in d.shown ==> TrueShown(sent, s))
    && forall ch, m :: ch in d.views && m in d.views[ch].pending ==> m in sent
  }

  ghost predicate DevTrue(made: Made, sent: map<Msg, string>, d: Dev) {
    KeysTrue(made, d) && ReadsTrue(sent, d) && Unheld(d)
  }

  ghost predicate TrueEvent(made: Made, sent: map<Msg, string>, e: Event) {
    match e
    case GotMsg(m) => m in sent
    case GotKeyShare(ch, epoch, _, w) => TrueShare(made, ch, epoch, w)
    case GotPeers(ch, epoch, key, _) => (ch, epoch) in made && epoch <= MAX_EPOCH && key == made[(ch, epoch)]
    case GotCreated(_, _) => false
    case GotRotated(_, _, _) => false
    case _ => true
  }

  // ---- reading --------------------------------------------------------------------------------------

  lemma RenderMsgTrue(made: Made, sent: map<Msg, string>, d: Dev, ch: string, m: Msg)
    requires SealsTrue(made, sent) && KeysTrue(made, d) && ReadsTrue(sent, d)
    requires ch in d.views && m in sent && m.ch == ch
    ensures ReadsTrue(sent, RenderMsg(d, ch, m)) && RenderMsg(d, ch, m).keys == d.keys &&
            RenderMsg(d, ch, m).written == d.written
  {
    assert TrueSeal(made, sent, m);
  }

  lemma {:induction false} RenderAllTrue(made: Made, sent: map<Msg, string>, d: Dev, ch: string, ms: seq<Msg>)
    requires SealsTrue(made, sent) && KeysTrue(made, d) && ReadsTrue(sent, d)
    requires ch in d.views && forall m :: m in ms ==> m in sent && m.ch == ch
    ensures ReadsTrue(sent, RenderAll(d, ch, ms)) && RenderAll(d, ch, ms).keys == d.keys &&
            RenderAll(d, ch, ms).written == d.written
  {
    if ms != [] {
      assert ms == ms[..|ms| - 1] + [ms[|ms| - 1]];
      RenderAllTrue(made, sent, d, ch, ms[..|ms| - 1]);
      RenderMsgTrue(made, sent, RenderAll(d, ch, ms[..|ms| - 1]), ch, ms[|ms| - 1]);
    }
  }

  lemma AcceptTrue(made: Made, sent: map<Msg, string>, d: Dev, ch: string, epoch: nat, key: Key)
    requires SealsTrue(made, sent) && KeysTrue(made, d) && ReadsTrue(sent, d)
    requires (ch, epoch) in made && epoch <= MAX_EPOCH && key == made[(ch, epoch)]
    ensures KeysTrue(made, Accept(d, ch, epoch, key)) && ReadsTrue(sent, Accept(d, ch, epoch, key))
  {
    if ch in d.views {
      RenderAllTrue(made, sent, Unlocked(d, ch, epoch, key), ch, d.views[ch].pending);
    }
  }

  lemma {:induction false} ReshareTrue(made: Made, d: Dev, ch: string, epoch: nat, key: Key, peers: seq<Peer>)
    requires KeysTrue(made, d) && (ch, epoch) in made && epoch <= MAX_EPOCH && key == made[(ch, epoch)]
    ensures KeysTrue(made, Reshare(d, ch, epoch, key, peers))
  {
    if peers != [] {
      ReshareTrue(made, d, ch, epoch, key, peers[..|peers| - 1]);
      ReshareKeeps(d, ch, epoch, key, peers[..|peers| - 1]);
    }
  }

  lemma SameContentReads(sent: map<Msg, string>, d: Dev, d': Dev)
    requires ReadsTrue(sent, d) && SameContent(d, d')
    ensures ReadsTrue(sent, d')
  {
    forall ch, m | ch in d'.views && m in d'.views[ch].pending ensures m in sent && m.ch == ch {
      assert m in d.Pending(ch);
    }
  }

  lemma OnMsgTrue(made: Made, sent: map<Msg, string>, d: Dev, m: Msg)
    requires SealsTrue(made, sent) && DevTrue(made, sent, d) && m in sent
    ensures KeysTrue(made, OnMsg(d, m)) && ReadsTrue(sent, OnMsg(d, m))
  {
    var d1 := Ensured(d, m.ch);
    assert ReadsTrue(sent, d1);
    if d1.views[m.ch].e2e && !d1.Holds(m.ch, m.epoch) {
    } else {
      RenderMsgTrue(made, sent, d1, m.ch, m);
    }
  }

  lemma HandleTrue(made: Made, sent: map<Msg, string>, d: Dev, e: Event)
    requires SealsTrue(made, sent) && DevTrue(made, sent, d) && TrueEvent(made, sent, e)
    ensures DevTrue(made, sent, Handle(d, e))
  {
    UnheldKept(d, e);
    match e
    case GotMsg(m) => OnMsgTrue(made, sent, d, m);
    case GotKeyShare(ch, epoch, from, w) =>
      if from.Some? && UnwrapKey(d.pub, from.value, ch, epoch, w).Some? {
        AcceptTrue(made, sent, d, ch, epoch, UnwrapKey(d.pub, from.value, ch, epoch, w).value);
      }
    case GotPeers(ch, epoch, key, peers) =>
      ReshareTrue(made, d, ch, epoch, key, peers);
      ReshareKeeps(d, ch, epoch, key, peers);
    case GotRemoved(ch) =>
    case _ =>
      OthersSameContent(d, e);
      SameContentReads(sent, d, Handle(d, e));
  }

  /** A blob under somebody else's header either opens to the key of that header or is refused. */
  lemma MisdeliveryHarmless(made: Made, sent: map<Msg, string>, d: Dev, ch: string, epoch: nat, from: Option<int>,
      share: Up)
    requires SealsTrue(made, sent) && DevTrue(made, sent, d)
    requires share.KeyShare? && TrueUp(made, share) && epoch <= MAX_EPOCH
    ensures DevTrue(made, sent, OnKeyShare(d, ch, epoch, from, share.wrapped))
  {
    var w := share.wrapped;
    if from.Some? && UnwrapKey(d.pub, from.value, ch, epoch, w).Some? {
      AadInjective(ch, epoch, share.ch, share.epoch);
      HandleTrue(made, sent, d, GotKeyShare(ch, epoch, from, w));
    }
  }

  /** A key drawn here for an epoch that had none. */
  lemma DrawTrue(made: Made, sent: map<Msg, string>, d: Dev, a: Answer, ch: string, epoch: nat, key: Key)
    requires SealsTrue(made, sent) && DevTrue(made, sent, d)
    requires (ch, epoch) !in made && 1 <= epoch <= MAX_EPOCH
    requires a.created || ch in d.views
    ensures DevTrue(made[(ch, epoch) := key], sent, Handle(d, Reply(a, ch, epoch, key)))
  {
    var e := Reply(a, ch, epoch, key);
    forall m | m in d.Pending(ch) ensures m.epoch != epoch {
      assert TrueSeal(made, sent, m);
    }
    UnheldKept(d, e);
    OthersSameContent(d, e);
    SameContentReads(sent, d, Handle(d, e));
    if a.created {
      InitOne(d, Info(ch, true, epoch), key);
    }
  }

  lemma DevTrueGrows(made: Made, sent: map<Msg, string>, k: (string, nat), key: Key, d: Dev)
    requires DevTrue(made, sent, d) && k !in made
    ensures DevTrue(made[k := key], sent, d)
  {
  }

  // ---- one exchange ----------------------------------------------------------------------------------

  /** The answer to a request brings the asking device the key, and no third device can open it. */
  lemma AnswerOpensForTheAsker(d1: Dev, d2: Dev, d3: Dev, ch: string, epoch: nat, from: int)
    requires epoch <= MAX_EPOCH && d1.Holds(ch, epoch) && ch in d1.views && d1.views[ch].e2e
    requires d3.pub != d1.pub && d3.pub != d2.pub
    ensures var out := OnKeyReq(d1, ch, epoch, d2.user, d2.name, Some(d2.pub)).written;
            var up := out[|out| - 1];
            && up.KeyShare? && up.toUser == d2.user && up.toDevice == d2.name
            && (ch, epoch) in OnKeyShare(d2, ch, epoch, Some(up.fromPub), up.wrapped).keys
            && OnKeyShare(d2, ch, epoch, Some(up.fromPub), up.wrapped).keys[(ch, epoch)] == d1.keys[(ch, epoch)]
            && OnKeyShare(d3, ch, epoch, Some(from), up.wrapped) == d3
  {
    var key := d1.keys[(ch, epoch)];
    assert {d2.pub, d1.pub} == {d1.pub, d2.pub};
    assert d3.pub in {d3.pub, from} && d3.pub !in {d1.pub, d2.pub};
    if ch in d2.views {
      RenderAllDevice(Unlocked(d2, ch, epoch, key), ch, d2.views[ch].pending);
    }
  }

  // ---- the whole system -------------------------------------------------------------------------------

  ghost predicate NetTrue(made: Made, sent: map<Msg, string>, net: set<(int, Event)>) {
    forall p :: p in net ==> TrueEvent(made, sent, p.1)
  }

  ghost predicate DevsTrue(made: Made, sent: map<Msg, string>, devs: map<int, Dev>) {
    forall d :: d in devs ==> DevTrue(made, sent, devs[d])
  }

  ghost predicate InRange(epochs: map<string, nat>, k: (string, nat)) {
    k.0 in epochs && 1 <= k.1 <= epochs[k.0]
  }

  /** Every key and every reply on its way belongs to an epoch the hub has counted, and no epoch that has a
      key still has a reply on its way. */
  ghost predicate Counted(live: set<string>, epochs: map<string, nat>, made: Made,
                          answers: map<(string, nat), Answer>)
  {
    && live <= epochs.Keys
    && (forall ch :: ch in epochs ==> 1 <= epochs[ch] <= MAX_EPOCH)
    && (forall k :: k in made ==> InRange(epochs, k) && k !in answers)
    && (forall k :: k in answers ==> InRange(epochs, k))
  }

  ghost predicate Distinct(made: Made) {
    forall j, k :: j in made && k in made && j != k ==> made[j] != made[k]
  }

  ghost predicate KeyInv(w: World) {
    && Counted(w.live, w.epochs, w.made, w.answers) && Distinct(w.made) && SealsTrue(w.made, w.sent)
    && DevsTrue(w.made, w.sent, w.devs) && NetTrue(w.made, w.sent, w.net)
  }
}
