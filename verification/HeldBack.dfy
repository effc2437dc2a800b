/** Ciphertext that arrives before its key: what happens to it when a key does arrive, and that no frame
    is ever lost or shown twice on the way. */
module HeldBack {
  import opened Util
  import opened Crypto
  import opened Device

  // ---- a key arrival splits the pending frames in two, each half in arrival order -----------------

  function Waiting(keys: map<(string, nat), Key>, ch: string, ms: seq<Msg>): seq<Msg> {
    if ms == [] then [] else
      var m := ms[|ms| - 1];
      Waiting(keys, ch, ms[..|ms| - 1]) + if (ch, m.epoch) in keys then [] else [m]
  }

  function ShownOf(keys: map<(string, nat), Key>, ch: string, ms: seq<Msg>): seq<Shown> {
    if ms == [] then [] else
      var m := ms[|ms| - 1];
      var r := ShownOf(keys, ch, ms[..|ms| - 1]);
      if (ch, m.epoch) !in keys then r else
        match DecryptText(keys[(ch, m.epoch)], ch, m.epoch, m.body)
        case Some(text) => r + [Opened(m, text)]
        case None => if m.file then r + [AsSent(m)] else r
  }

  function FailedOf(keys: map<(string, nat), Key>, ch: string, ms: seq<Msg>): seq<Msg> {
    if ms == [] then [] else
      var m := ms[|ms| - 1];
      var r := FailedOf(keys, ch, ms[..|ms| - 1]);
      if (ch, m.epoch) in keys && !m.file && DecryptText(keys[(ch, m.epoch)], ch, m.epoch, m.body).None? then r + [m]
        else r
  }

  /** What a device becomes when `held` is held back, `seen` is shown and `bad` is reported unreadable. */
  function After(d: Dev, ch: string, held: seq<Msg>, seen: seq<Shown>, bad: seq<Msg>): Dev
    requires ch in d.views
  {
    d.(views := d.views[ch := d.views[ch].(pending := d.views[ch].pending + held)], shown := d.shown + seen,
      failed := d.failed + bad)
  }

  lemma NothingAfter(d: Dev, ch: string)
    requires ch in d.views
    ensures After(d, ch, [], [], []) == d
  {
    assert d.views[ch].pending + [] == d.views[ch].pending;
    assert d.views[ch := d.views[ch]] == d.views;
    assert d.shown + [] == d.shown && d.failed + [] == d.failed;
  }

  lemma OneMoreAfter(d: Dev, ch: string, held: seq<Msg>, seen: seq<Shown>, bad: seq<Msg>, h: seq<Msg>, s: seq<Shown>,
      b: seq<Msg>)
    requires ch in d.views
    ensures After(After(d, ch, held, seen, bad), ch, h, s, b) == After(d, ch, held + h, seen + s, bad + b)
  {
    var p := d.views[ch].pending;
    assert p + held + h == p + (held + h);
    assert d.shown + seen + s == d.shown + (seen + s);
    assert d.failed + bad + b == d.failed + (bad + b);
  }

  lemma RenderOneSplits(d: Dev, ch: string, m: Msg)
    requires ch in d.views && d.views[ch].e2e
    ensures RenderMsg(d, ch, m) ==
            After(d, ch, Waiting(d.keys, ch, [m]), ShownOf(d.keys, ch, [m]), FailedOf(d.keys, ch, [m]))
  {
    var held, seen, bad := Waiting(d.keys, ch, [m]), ShownOf(d.keys, ch, [m]), FailedOf(d.keys, ch, [m]);
    assert [m][..0] == [];
    assert Waiting(d.keys, ch, [m][..0]) == [] && ShownOf(d.keys, ch, [m][..0]) == [] &&
      FailedOf(d.keys, ch, [m][..0]) == [];
    NothingAfter(d, ch);
    if !d.Holds(ch, m.epoch) {
      assert held == [m] && seen == [] && bad == [];
    } else {
      var text := DecryptText(d.keys[(ch, m.epoch)], ch, m.epoch, m.body);
      assert held == [];
      if text.Some? {
        assert seen == [Opened(m, text.value)] && bad == [];
      } else if m.file {
        assert seen == [AsSent(m)] && bad == [];
      } else {
        assert seen == [] && bad == [m];
      }
    }
  }

  lemma {:induction false} RenderAllSplits(d: Dev, ch: string, ms: seq<Msg>)
    requires ch in d.views && d.views[ch].e2e
    ensures RenderAll(d, ch, ms) ==
            After(d, ch, Waiting(d.keys, ch, ms), ShownOf(d.keys, ch, ms), FailedOf(d.keys, ch, ms))
  {
    if ms == [] {
      NothingAfter(d, ch);
    } else {
      var front, m := ms[..|ms| - 1], ms[|ms| - 1];
      RenderAllSplits(d, ch, front);
      RenderOneSplits(RenderAll(d, ch, front), ch, m);
      OneMoreAfter(d, ch, Waiting(d.keys, ch, front), ShownOf(d.keys, ch, front), FailedOf(d.keys, ch, front),
                   Waiting(d.keys, ch, [m]), ShownOf(d.keys, ch, [m]), FailedOf(d.keys, ch, [m]));
      Appended(d.keys, ch, ms);
    }
  }

  lemma Appended(keys: map<(string, nat), Key>, ch: string, ms: seq<Msg>)
    requires ms != []
    ensures Waiting(keys, ch, ms) == Waiting(keys, ch, ms[..|ms| - 1]) + Waiting(keys, ch, [ms[|ms| - 1]])
    ensures ShownOf(keys, ch, ms) == ShownOf(keys, ch, ms[..|ms| - 1]) + ShownOf(keys, ch, [ms[|ms| - 1]])
    ensures FailedOf(keys, ch, ms) == FailedOf(keys, ch, ms[..|ms| - 1]) + FailedOf(keys, ch, [ms[|ms| - 1]])
  {
    var m := ms[|ms| - 1];
    assert [m][..0] == [];
    assert Waiting(keys, ch, [m][..0]) == [] && ShownOf(keys, ch, [m][..0]) == [] && FailedOf(keys, ch, [m][..0]) == [];
  }

  /** No frame waits for a key that the device holds. */
  ghost predicate Unheld(d: Dev) {
    forall ch, m :: ch in d.views && m in d.views[ch].pending ==> !d.Holds(ch, m.epoch)
  }

  /** Keeping every frame whose epoch is not `epoch`. */
  function OtherEpochs(ms: seq<Msg>, epoch: nat): seq<Msg> {
    if ms == [] then [] else
      OtherEpochs(ms[..|ms| - 1], epoch) + if ms[|ms| - 1].epoch == epoch then [] else [ms[|ms| - 1]]
  }

  lemma {:induction false} WaitingIsOtherEpochs(keys: map<(string, nat), Key>, ch: string, ms: seq<Msg>, epoch: nat)
    requires forall m :: m in ms ==> ((ch, m.epoch) in keys <==> m.epoch == epoch)
    ensures Waiting(keys, ch, ms) == OtherEpochs(ms, epoch)
  {
    if ms != [] {
      assert ms[|ms| - 1] in ms;
      assert forall m :: m in ms[..|ms| - 1] ==> m in ms;
      WaitingIsOtherEpochs(keys, ch, ms[..|ms| - 1], epoch);
    }
  }

  /** An accepted key releases the pending frames of its epoch, and those only: they are shown or
      reported unreadable in arrival order, and the others keep waiting in arrival order. */
  lemma KeyArrival(d: Dev, ch: string, epoch: nat, from: int, w: Wrapped, key: Key)
    requires Unheld(d) && ch in d.views && d.views[ch].e2e
    requires UnwrapKey(d.pub, from, ch, epoch, w) == Some(key)
    ensures var d' := OnKeyShare(d, ch, epoch, Some(from), w);
            && d'.Pending(ch) == OtherEpochs(d.Pending(ch), epoch)
            && d'.shown == d.shown + ShownOf(d'.keys, ch, d.Pending(ch))
            && d'.failed == d.failed + FailedOf(d'.keys, ch, d.Pending(ch))
            && d'.keys == d.keys[(ch, epoch) := key]
            && (forall c :: c != ch ==> d'.Pending(c) == d.Pending(c))
  {
    AcceptSplits(d, ch, epoch, key);
    WaitingIsOtherEpochs(d.keys[(ch, epoch) := key], ch, d.views[ch].pending, epoch);
  }

  lemma AcceptSplits(d: Dev, ch: string, epoch: nat, key: Key)
    requires ch in d.views && d.views[ch].e2e
    ensures var keys := d.keys[(ch, epoch) := key];
            var v := d.views[ch];
            Accept(d, ch, epoch, key) == d.(
              keys := keys,
              views := d.views[ch := View(true, if epoch > v.epoch then epoch else v.epoch, false,
                                           Waiting(keys, ch, v.pending))],
              shown := d.shown + ShownOf(keys, ch, v.pending), failed := d.failed + FailedOf(keys, ch, v.pending))
  {
    var d1 := Unlocked(d, ch, epoch, key);
    var ms := d.views[ch].pending;
    RenderAllSplits(d1, ch, ms);
    assert [] + Waiting(d1.keys, ch, ms) == Waiting(d1.keys, ch, ms);
  }

  lemma {:induction false} WaitingMembers(keys: map<(string, nat), Key>, ch: string, ms: seq<Msg>)
    ensures forall m :: m in Waiting(keys, ch, ms) <==> m in ms && (ch, m.epoch) !in keys
  {
    if ms != [] {
      WaitingMembers(keys, ch, ms[..|ms| - 1]);
      assert ms == ms[..|ms| - 1] + [ms[|ms| - 1]];
    }
  }

  // ---- conservation ---------------------------------------------------------------------------------

  function MsgsOf(ss: seq<Shown>): (r: seq<Msg>)
    ensures |r| == |ss|
    ensures forall i :: 0 <= i < |ss| ==> r[i] == ss[i].m
  {
    seq(|ss|, i requires 0 <= i < |ss| => ss[i].m)
  }

  /** How often a frame has been shown, reported unreadable, is held back, or was held back in a channel
      that the device has left. */
  function Fate(d: Dev, m: Msg): nat {
    multiset(MsgsOf(d.shown))[m] + multiset(d.failed)[m] + multiset(d.Pending(m.ch))[m] + multiset(d.lost)[m]
  }

  ghost predicate Filed(d: Dev) {
    forall ch, m :: ch in d.views && m in d.views[ch].pending ==> m.ch == ch
  }

  lemma RenderMsgFate(d: Dev, ch: string, x: Msg, m: Msg)
    requires Filed(d) && ch in d.views && x.ch == ch
    ensures Filed(RenderMsg(d, ch, x))
    ensures Fate(RenderMsg(d, ch, x), m) == Fate(d, m) + if x == m then 1 else 0
  {
    var d' := RenderMsg(d, ch, x);
    if |d'.shown| > |d.shown| {
      assert MsgsOf(d'.shown) == MsgsOf(d.shown) + [x];
    }
  }

  lemma {:induction false} RenderAllFate(d: Dev, ch: string, ms: seq<Msg>, m: Msg)
    requires Filed(d) && ch in d.views
    requires forall x :: x in ms ==> x.ch == ch
    ensures Filed(RenderAll(d, ch, ms))
    ensures Fate(RenderAll(d, ch, ms), m) == Fate(d, m) + multiset(ms)[m]
  {
    if ms != [] {
      assert ms == ms[..|ms| - 1] + [ms[|ms| - 1]];
      RenderAllFate(d, ch, ms[..|ms| - 1], m);
      RenderMsgFate(RenderAll(d, ch, ms[..|ms| - 1]), ch, ms[|ms| - 1], m);
    }
  }

  lemma AcceptFate(d: Dev, ch: string, epoch: nat, key: Key, m: Msg)
    requires Filed(d)
    ensures Filed(Accept(d, ch, epoch, key)) && Fate(Accept(d, ch, epoch, key), m) == Fate(d, m)
  {
    if ch in d.views {
      RenderAllFate(Unlocked(d, ch, epoch, key), ch, d.views[ch].pending, m);
      if m.ch != ch {
        assert m !in d.views[ch].pending;
      }
    }
  }

  lemma OnKeyShareFate(d: Dev, ch: string, epoch: nat, from: Option<int>, w: Wrapped, m: Msg)
    requires Filed(d)
    ensures Filed(OnKeyShare(d, ch, epoch, from, w)) && Fate(OnKeyShare(d, ch, epoch, from, w), m) == Fate(d, m)
  {
    if from.Some? && UnwrapKey(d.pub, from.value, ch, epoch, w).Some? {
      AcceptFate(d, ch, epoch, UnwrapKey(d.pub, from.value, ch, epoch, w).value, m);
    }
  }

  lemma OnMsgFate(d: Dev, x: Msg, m: Msg)
    requires Filed(d)
    ensures Filed(OnMsg(d, x)) && Fate(OnMsg(d, x), m) == Fate(d, m) + if x == m then 1 else 0
  {
    var d1 := Ensured(d, x.ch);
    assert Filed(d1) && Fate(d1, m) == Fate(d, m);
    RenderMsgFate(d1, x.ch, x, m);
  }

  lemma DropFate(d: Dev, ch: string, m: Msg)
    requires Filed(d)
    ensures Filed(DropChan(d, ch)) && Fate(DropChan(d, ch), m) == Fate(d, m)
  {
    if ch != m.ch {
      assert m !in d.Pending(ch);
    }
  }

  /** Frames that carry no content change neither what is held back nor what was shown. */
  ghost predicate SameContent(d: Dev, d': Dev) {
    d'.shown == d.shown && d'.failed == d.failed && d'.lost == d.lost && forall c :: d'.Pending(c) == d.Pending(c)
  }

  lemma OthersSameContent(d: Dev, e: Event)
    requires !e.GotMsg? && !e.GotKeyShare? && !e.GotRemoved?
    ensures SameContent(d, Handle(d, e))
  {
    match e
    case GotPeers(ch, epoch, key, peers) => ReshareKeeps(d, ch, epoch, key, peers);
    case GotCreated(i, drawn) => InitKeepsViews(d, [i], [drawn]);
    case _ =>
  }

  lemma SameContentFate(d: Dev, d': Dev, m: Msg)
    requires Filed(d) && SameContent(d, d')
    ensures Filed(d') && Fate(d', m) == Fate(d, m)
  {
    forall ch, x | ch in d'.views && x in d'.views[ch].pending ensures x.ch == ch {
      assert d'.Pending(ch) == d.Pending(ch);
    }
  }

  lemma {:induction false} ReshareKeeps(d: Dev, ch: string, epoch: nat, key: Key, peers: seq<Peer>)
    ensures Reshare(d, ch, epoch, key, peers) == d.(written := Reshare(d, ch, epoch, key, peers).written)
  {
    if peers != [] {
      ReshareKeeps(d, ch, epoch, key, peers[..|peers| - 1]);
    }
  }

  lemma HandleFate(d: Dev, e: Event, m: Msg)
    requires Filed(d)
    ensures Filed(Handle(d, e))
    ensures Fate(Handle(d, e), m) == Fate(d, m) + if e == GotMsg(m) then 1 else 0
  {
    match e
    case GotMsg(x) => OnMsgFate(d, x, m);
    case GotKeyShare(ch, epoch, from, w) => OnKeyShareFate(d, ch, epoch, from, w, m);
    case GotRemoved(ch) => DropFate(d, ch, m);
    case _ =>
      OthersSameContent(d, e);
      SameContentFate(d, Handle(d, e), m);
  }

  /** Every content frame that ever reached the device is accounted for exactly once. */
  lemma {:induction false} FramesConserved(user: int, name: string, pub: int, es: seq<Event>, m: Msg)
    ensures Filed(HandleAll(Device.Fresh(user, name, pub), es))
    ensures Fate(HandleAll(Device.Fresh(user, name, pub), es), m) == multiset(Received(es))[m]
  {
    if es != [] {
      FramesConserved(user, name, pub, es[..|es| - 1], m);
      HandleFate(HandleAll(Device.Fresh(user, name, pub), es[..|es| - 1]), es[|es| - 1], m);
    }
  }

  // ---- what a device holds back really lacks its key --------------------------------------------------

  /** Keys made on the device itself are not tried on held-back frames, so none may be waiting for them. */
  ghost predicate NotAwaited(d: Dev, e: Event) {
    match e
    case GotCreated(i, _) => i.e2e && i.epoch != 0 ==> forall m :: m in d.Pending(i.ch) ==> m.epoch != i.epoch
    case GotRotated(ch, epoch, _) => forall m :: m in d.Pending(ch) ==> m.epoch != epoch
    case _ => true
  }

  lemma AcceptUnheld(d: Dev, ch: string, epoch: nat, key: Key)
    requires Unheld(d)
    ensures Unheld(Accept(d, ch, epoch, key))
  {
    if ch in d.views {
      if d.views[ch].e2e {
        AcceptSplits(d, ch, epoch, key);
        WaitingMembers(d.keys[(ch, epoch) := key], ch, d.views[ch].pending);
      } else {
        ShownPlainly(Unlocked(d, ch, epoch, key), ch, d.views[ch].pending);
      }
    }
  }

  lemma UnheldKept(d: Dev, e: Event)
    requires Unheld(d) && NotAwaited(d, e)
    ensures Unheld(Handle(d, e))
  {
    match e
    case GotKeyShare(ch, epoch, from, w) =>
      if from.Some? && UnwrapKey(d.pub, from.value, ch, epoch, w).Some? {
        AcceptUnheld(d, ch, epoch, UnwrapKey(d.pub, from.value, ch, epoch, w).value);
      }
    case GotPeers(ch, epoch, key, peers) => ReshareKeeps(d, ch, epoch, key, peers);
    case GotCreated(i, drawn) => CreatedUnheld(d, i, drawn);
    case _ =>
  }

  /** A key the device makes itself leaves a frame waiting that it could now read exactly when one was
      waiting for it; nothing else ever does. */
  lemma UnheldExact(d: Dev, e: Event)
    requires Unheld(d)
    ensures Unheld(Handle(d, e)) <==> NotAwaited(d, e)
  {
    if NotAwaited(d, e) {
      UnheldKept(d, e);
    } else {
      var ch := if e.GotCreated? then e.i.ch else e.ch;
      var epoch := if e.GotCreated? then e.i.epoch else e.epoch;
      var m :| m in d.Pending(ch) && m.epoch == epoch;
      if e.GotCreated? { InitOne(d, e.i, e.drawn); }
      assert m in Handle(d, e).Pending(ch) && Handle(d, e).Holds(ch, epoch);
    }
  }

  lemma CreatedUnheld(d: Dev, i: Info, drawn: Key)
    requires Unheld(d) && NotAwaited(d, GotCreated(i, drawn))
    ensures Unheld(Handle(d, GotCreated(i, drawn)))
  {
    InitOne(d, i, drawn);
    OthersSameContent(d, GotCreated(i, drawn));
    var d' := Handle(d, GotCreated(i, drawn));
    forall ch, m | ch in d'.views && m in d'.views[ch].pending ensures !d'.Holds(ch, m.epoch) {
      assert m in d.Pending(ch);
    }
  }

  lemma InitOne(d: Dev, i: Info, drawn: Key)
    ensures InitCreated(d, [i], [drawn]) == if i.e2e && i.epoch != 0 then StoreKey(d, i.ch, i.epoch, drawn) else d
  {
    assert [i][..0] == [] && [drawn][..0] == [];
    assert InitCreated(d, [i][..0], [drawn][..0]) == d;
  }

  lemma {:induction false} ShownPlainly(d: Dev, ch: string, ms: seq<Msg>)
    requires ch in d.views && !d.views[ch].e2e
    ensures RenderAll(d, ch, ms) == d.(shown := RenderAll(d, ch, ms).shown)
  {
    if ms != [] {
      ShownPlainly(d, ch, ms[..|ms| - 1]);
    }
  }

  predicate SameDevice(d: Dev, d': Dev) { d'.user == d.user && d'.name == d.name && d'.pub == d.pub }

  lemma {:induction false} RenderAllDevice(d: Dev, ch: string, ms: seq<Msg>)
    requires ch in d.views
    ensures SameDevice(d, RenderAll(d, ch, ms)) && RenderAll(d, ch, ms).keys == d.keys
  {
    if ms != [] {
      RenderAllDevice(d, ch, ms[..|ms| - 1]);
    }
  }

  // ---- the epoch a device sends under -------------------------------------------------------------------

  function EpochOf(d: Dev, ch: string): nat { if ch in d.views then d.views[ch].epoch else 0 }

  lemma {:induction false} RenderAllViews(d: Dev, ch: string, ms: seq<Msg>, c: string)
    requires ch in d.views
    ensures EpochOf(RenderAll(d, ch, ms), c) == EpochOf(d, c)
  {
    if ms != [] {
      RenderAllViews(d, ch, ms[..|ms| - 1], c);
    }
  }

  /** The epoch a device seals under goes back in exactly two cases: it leaves the channel, or the answer
      to its own rotation arrives after a later epoch was learnt. */
  lemma EpochGoesBack(d: Dev, e: Event, ch: string)
    ensures EpochOf(Handle(d, e), ch) < EpochOf(d, ch) <==>
            || (e == GotRemoved(ch) && EpochOf(d, ch) > 0)
            || (e.GotRotated? && e.ch == ch && e.epoch < EpochOf(d, ch))
  {
    match e
    case GotMsg(m) => assert EpochOf(Handle(d, e), ch) == EpochOf(d, ch);
    case GotKeyShare(c, epoch, from, w) =>
      if from.Some? && UnwrapKey(d.pub, from.value, c, epoch, w).Some? && c in d.views {
        RenderAllViews(Unlocked(d, c, epoch, UnwrapKey(d.pub, from.value, c, epoch, w).value), c, d.views[c].pending,
          ch);
      }
    case GotPeers(c, epoch, key, peers) => ReshareKeeps(d, c, epoch, key, peers);
    case GotCreated(i, drawn) => InitKeepsViews(d, [i], [drawn]);
    case _ =>
  }

  lemma {:induction false} InitKeepsViews(d: Dev, infos: seq<Info>, drawn: seq<Key>)
    requires |drawn| == |infos|
    ensures InitCreated(d, infos, drawn) == d.(keys := InitCreated(d, infos, drawn).keys)
  {
    if infos != [] {
      InitKeepsViews(d, infos[..|infos| - 1], drawn[..|infos| - 1]);
    }
  }

  // ---- when a frame is shown -----------------------------------------------------------------------------

  predicate Encrypted(d: Dev, ch: string) { ch in d.views && d.views[ch].e2e }

  ghost predicate PendingAs(was: Dev, d: Dev, ch: string, ms: seq<Msg>) {
    forall c :: d.Pending(c) == if c == ch then ms else was.Pending(c)
  }

  /** A frame of a plain channel is shown as it was sent, at once. A frame of an encrypted channel waits, last
      in line, exactly when its key is missing; otherwise it is opened and shown, and one that does not open is
      shown unopened when it is a file and reported when it is a text. */
  ghost predicate Rendered(was: Dev, m: Msg, d: Dev) {
    && d.keys == was.keys && d.written == was.written && d.lost == was.lost
    && (forall c :: c in was.views ==> c in d.views && d.views[c].e2e == was.views[c].e2e
                                       && d.views[c].epoch == was.views[c].epoch &&
                                         d.views[c].asked == was.views[c].asked)
    && if !Encrypted(was, m.ch) then
         d.shown == was.shown + [AsSent(m)] && d.failed == was.failed && PendingAs(was, d, m.ch, was.Pending(m.ch))
       else if (m.ch, m.epoch) !in was.keys then
         d.shown == was.shown && d.failed == was.failed && PendingAs(was, d, m.ch, was.Pending(m.ch) + [m])
       else
         var text := DecryptText(was.keys[(m.ch, m.epoch)], m.ch, m.epoch, m.body);
         && PendingAs(was, d, m.ch, was.Pending(m.ch))
         && d.shown == was.shown + (if text.Some? then [Opened(m, text.value)] else if m.file then [AsSent(m)] else [])
         && d.failed == was.failed + if text.None? && !m.file then [m] else []
  }

  lemma MessageRendered(d: Dev, m: Msg)
    ensures Rendered(d, m, Handle(d, GotMsg(m)))
  {
  }

  /** Nothing the device hears makes the channel an encrypted one. */
  predicate TurnsEncrypted(e: Event, ch: string) {
    (e.GotInfo? && e.i.ch == ch && e.i.e2e) || (e.GotCreated? && e.i.ch == ch && e.i.e2e)
  }

  lemma PlainKept(d: Dev, e: Event, ch: string)
    requires !Encrypted(d, ch) && d.Pending(ch) == [] && !TurnsEncrypted(e, ch)
    ensures !Encrypted(Handle(d, e), ch) && Handle(d, e).Pending(ch) == []
  {
    match e
    case GotMsg(m) => MessageRendered(d, m);
    case GotPeers(c, epoch, key, peers) => ReshareKeeps(d, c, epoch, key, peers);
    case GotCreated(i, drawn) => InitOne(d, i, drawn);
    case GotKeyShare(c, epoch, from, w) =>
      if from.Some? && UnwrapKey(d.pub, from.value, c, epoch, w).Some? && c in d.views {
        var key := UnwrapKey(d.pub, from.value, c, epoch, w).value;
        if c == ch {
          ShownPlainly(Unlocked(d, c, epoch, key), c, d.views[c].pending);
        } else {
          RenderAllElsewhere(Unlocked(d, c, epoch, key), c, d.views[c].pending, ch);
        }
      }
    case _ =>
  }

  lemma {:induction false} RenderAllElsewhere(d: Dev, c: string, ms: seq<Msg>, ch: string)
    requires c in d.views && c != ch
    ensures Encrypted(RenderAll(d, c, ms), ch) == Encrypted(d, ch) && RenderAll(d, c, ms).Pending(ch) == d.Pending(ch)
  {
    if ms != [] {
      RenderAllElsewhere(d, c, ms[..|ms| - 1], ch);
    }
  }

  /** In a channel that has never been an encrypted one nothing is ever held back. */
  lemma {:induction false} PlainChannelsWaitForNothing(user: int, name: string, pub: int, es: seq<Event>, ch: string)
    requires forall e :: e in es ==> !TurnsEncrypted(e, ch)
    ensures var d := HandleAll(Device.Fresh(user, name, pub), es); !Encrypted(d, ch) && d.Pending(ch) == []
  {
    if es != [] {
      var front, e := es[..|es| - 1], es[|es| - 1];
      assert e in es && forall x :: x in front ==> x in es;
      PlainChannelsWaitForNothing(user, name, pub, front, ch);
      PlainKept(HandleAll(Device.Fresh(user, name, pub), front), e, ch);
    }
  }
}
