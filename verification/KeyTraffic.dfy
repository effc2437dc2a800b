/** Who is asked for a key, who is answered, and where the frames go: what a device writes when it misses,
    holds or has just drawn a key, and what the hub makes of it. */
module KeyTraffic {
  import opened Util
  import opened Crypto
  import opened Device
  import opened HeldBack
  import opened KeyEpochs

  // ---- sharing a drawn key -----------------------------------------------------------------------

  predicate IsMe(d: Dev, p: Peer) { p.user == d.user && p.device == d.name }

  predicate ForPeer(up: Up, p: Peer) { up.KeyShare? && up.toUser == p.user && up.toDevice == p.device }

  /** Whoever has the peer's device key gets the channel's key for the epoch out of the share. */
  ghost predicate Brings(up: Up, ch: string, epoch: nat, key: Key, pub: int)
    requires up.KeyShare?
  {
    forall r: Dev :: r.pub == pub ==>
      var r' := OnKeyShare(r, ch, epoch, Some(up.fromPub), up.wrapped);
      (ch, epoch) in r'.keys && r'.keys[(ch, epoch)] == key
  }

  /** A share of this key, for some listed peer other than the device itself. */
  ghost predicate ShareFor(d: Dev, up: Up, ch: string, epoch: nat, key: Key, p: Peer) {
    !IsMe(d, p) && ForPeer(up, p) && up.ch == ch && up.epoch == epoch && up.fromPub == d.pub &&
      Brings(up, ch, epoch, key, p.pub)
  }

  ghost predicate FromList(d: Dev, up: Up, ch: string, epoch: nat, key: Key, peers: seq<Peer>) {
    exists p :: p in peers && ShareFor(d, up, ch, epoch, key, p)
  }

  ghost predicate Reached(d: Dev, ups: seq<Up>, ch: string, epoch: nat, key: Key, p: Peer) {
    exists up :: up in ups && ShareFor(d, up, ch, epoch, key, p)
  }

  /** What was written: a share for every peer but this device, and nothing else. */
  ghost predicate Shares(d: Dev, ups: seq<Up>, ch: string, epoch: nat, key: Key, peers: seq<Peer>) {
    && (forall up :: up in ups ==> FromList(d, up, ch, epoch, key, peers))
    && forall p :: p in peers && !IsMe(d, p) ==> Reached(d, ups, ch, epoch, key, p)
  }

  ghost predicate Reshared(d: Dev, d': Dev, ch: string, epoch: nat, key: Key, peers: seq<Peer>) {
    && |d.written| <= |d'.written| && d'.written[..|d.written|] == d.written
    && Shares(d, d'.written[|d.written|..], ch, epoch, key, peers)
    && d' == d.(written := d'.written)
  }

  function ShareOf(d: Dev, ch: string, epoch: nat, key: Key, p: Peer): Up {
    KeyShare(ch, epoch, p.user, p.device, d.pub, WrapKey(d.pub, p.pub, ch, epoch, key))
  }

  lemma WrappedBrings(d: Dev, ch: string, epoch: nat, key: Key, p: Peer)
    ensures Brings(ShareOf(d, ch, epoch, key, p), ch, epoch, key, p.pub)
  {
    var w := WrapKey(d.pub, p.pub, ch, epoch, key);
    forall r: Dev | r.pub == p.pub
      ensures (ch, epoch) in OnKeyShare(r, ch, epoch, Some(d.pub), w).keys
      ensures OnKeyShare(r, ch, epoch, Some(d.pub), w).keys[(ch, epoch)] == key
    {
      assert {r.pub, d.pub} == {d.pub, p.pub};
      if ch in r.views {
        RenderAllDevice(Unlocked(r, ch, epoch, key), ch, r.views[ch].pending);
      }
    }
  }

  lemma ShareIsFor(d: Dev, ch: string, epoch: nat, key: Key, p: Peer)
    requires !IsMe(d, p)
    ensures ShareFor(d, ShareOf(d, ch, epoch, key, p), ch, epoch, key, p)
  {
    WrappedBrings(d, ch, epoch, key, p);
  }

  lemma LastPeer(d: Dev, ch: string, epoch: nat, key: Key, front: seq<Peer>, p: Peer)
    ensures var d1 := Reshare(d, ch, epoch, key, front);
            Reshare(d, ch, epoch, key, front + [p]) ==
            if IsMe(d, p) then d1 else d1.(written := d1.written + [ShareOf(d, ch, epoch, key, p)])
  {
    var peers := front + [p];
    assert peers[..|peers| - 1] == front && peers[|peers| - 1] == p;
  }

  /** Every peer device but this one gets the key, nobody else is written to, and nothing else changes. */
  lemma {:induction false} ReshareReachesPeers(d: Dev, ch: string, epoch: nat, key: Key, peers: seq<Peer>)
    ensures Reshared(d, Reshare(d, ch, epoch, key, peers), ch, epoch, key, peers)
  {
    if peers != [] {
      var front, p := peers[..|peers| - 1], peers[|peers| - 1];
      assert peers == front + [p];
      ReshareReachesPeers(d, ch, epoch, key, front);
      LastPeer(d, ch, epoch, key, front, p);
      if !IsMe(d, p) {
        ShareIsFor(d, ch, epoch, key, p);
      }
      OnePeerWritten(d, Reshare(d, ch, epoch, key, front), Reshare(d, ch, epoch, key, peers), ch, epoch, key, front, p);
    }
  }

  lemma OnePeerWritten(d: Dev, d1: Dev, d2: Dev, ch: string, epoch: nat, key: Key, front: seq<Peer>, p: Peer)
    requires Reshared(d, d1, ch, epoch, key, front)
    requires !IsMe(d, p) ==> ShareFor(d, ShareOf(d, ch, epoch, key, p), ch, epoch, key, p)
    requires d2 == if IsMe(d, p) then d1 else d1.(written := d1.written + [ShareOf(d, ch, epoch, key, p)])
    ensures Reshared(d, d2, ch, epoch, key, front + [p])
  {
    if !IsMe(d, p) {
      var up := ShareOf(d, ch, epoch, key, p);
      var ups := d1.written[|d.written|..];
      assert d2.written[|d.written|..] == ups + [up];
      OnePeerMore(d, ups, ups + [up], up, ch, epoch, key, front, p);
    } else {
      OwnDeviceMore(d, d1.written[|d.written|..], ch, epoch, key, front, p);
    }
  }

  lemma OwnDeviceMore(d: Dev, ups: seq<Up>, ch: string, epoch: nat, key: Key, front: seq<Peer>, p: Peer)
    requires Shares(d, ups, ch, epoch, key, front) && IsMe(d, p)
    ensures Shares(d, ups, ch, epoch, key, front + [p])
  {
    forall x | x in ups ensures FromList(d, x, ch, epoch, key, front + [p]) {
      assert FromList(d, x, ch, epoch, key, front);
      var q :| q in front && ShareFor(d, x, ch, epoch, key, q);
      assert q in front + [p];
    }
    forall q | q in front + [p] && !IsMe(d, q) ensures Reached(d, ups, ch, epoch, key, q) {
      assert q in front;
    }
  }

  lemma OnePeerMore(d: Dev, ups: seq<Up>, all: seq<Up>, up: Up, ch: string, epoch: nat, key: Key, front: seq<Peer>,
                    p: Peer)
    requires Shares(d, ups, ch, epoch, key, front)
    requires ShareFor(d, up, ch, epoch, key, p)
    requires all == ups + [up]
    ensures Shares(d, all, ch, epoch, key, front + [p])
  {
    var peers := front + [p];
    forall x | x in all ensures FromList(d, x, ch, epoch, key, peers) {
      if x in ups {
        assert FromList(d, x, ch, epoch, key, front);
        var q :| q in front && ShareFor(d, x, ch, epoch, key, q);
        assert q in peers;
      } else {
        assert x == up && p in peers;
      }
    }
    forall q | q in peers && !IsMe(d, q) ensures Reached(d, all, ch, epoch, key, q) {
      if q in front {
        assert Reached(d, ups, ch, epoch, key, q);
        var x :| x in ups && ShareFor(d, x, ch, epoch, key, q);
        assert x in all;
      } else {
        assert q == p && up in all;
      }
    }
  }

  /** The answer to `e2epeers`, as the device handles it. */
  lemma PeersGetTheKey(d: Dev, ch: string, epoch: nat, key: Key, peers: seq<Peer>)
    ensures Reshared(d, Handle(d, GotPeers(ch, epoch, key, peers)), ch, epoch, key, peers)
  {
    ReshareReachesPeers(d, ch, epoch, key, peers);
  }

  // ---- asking and answering ---------------------------------------------------------------------------

  /** The channel is encrypted under an epoch whose key the device lacks. */
  predicate Lacks(d: Dev, ch: string) {
    ch in d.views && d.views[ch].e2e && d.views[ch].epoch > 0 && !d.Holds(ch, d.views[ch].epoch)
  }

  /** Learning about a channel makes the device ask for a key it lacks, once until something changes. */
  lemma InfoAsks(d: Dev, i: Info)
    ensures var d' := Handle(d, GotInfo(i));
            var before := if i.ch in d.views then d.views[i.ch] else View(false, 0, false, []);
            && i.ch in d'.views && d'.views[i.ch].e2e == i.e2e
            && d'.views[i.ch].epoch == (if i.epoch > before.epoch then i.epoch else before.epoch)
            && d'.views[i.ch].asked == (before.asked || Lacks(d', i.ch))
            && d'.written == d.written +
                 (if Lacks(d', i.ch) && !before.asked then [KeyReq(i.ch, d'.views[i.ch].epoch)] else [])
            && d'.keys == d.keys && d'.shown == d.shown && forall c :: d'.Pending(c) == d.Pending(c)
  {
  }

  /** Somebody joined an encrypted channel whose key the device lacks: it asks again. */
  lemma JoinAsksAgain(d: Dev, ch: string)
    ensures var d' := Handle(d, GotJoin(ch));
            && d'.written == d.written + (if Lacks(d, ch) then [KeyReq(ch, d.views[ch].epoch)] else [])
            && d'.keys == d.keys && (forall c :: d'.Pending(c) == d.Pending(c))
            && (ch in d.views && !d.views[ch].e2e ==> d' == d)
            && (ch !in d.views ==> d' == d.(views := d.views[ch := View(false, 0, false, [])]))
  {
  }

  /** A request is answered exactly when the device sees the channel as encrypted, holds the key and the asker
      has a device key; the answer is for the asker and brings the key to it. */
  lemma RequestAnswered(d: Dev, ch: string, epoch: nat, user: int, device: string, pub: Option<int>)
    ensures var d' := Handle(d, GotKeyReq(ch, epoch, user, device, pub));
            if ch in d.views && d.views[ch].e2e && pub.Some? && d.Holds(ch, epoch) then
              && |d'.written| == |d.written| + 1 && d' == d.(written := d'.written)
              && d'.written[..|d.written|] == d.written
              && ForPeer(d'.written[|d.written|], Peer(user, device, pub.value))
              && d'.written[|d.written|].ch == ch && d'.written[|d.written|].epoch == epoch
              && Brings(d'.written[|d.written|], ch, epoch, d.keys[(ch, epoch)], pub.value)
            else d' == d
  {
    if ch in d.views && d.views[ch].e2e && pub.Some? && d.Holds(ch, epoch) {
      WrappedBrings(d, ch, epoch, d.keys[(ch, epoch)], Peer(user, device, pub.value));
    }
  }

  // ---- what the hub relays -----------------------------------------------------------------------------

  /** A request reaches every other subscriber of the channel and nobody else, and names the asker. */
  lemma RequestReachesSubscribers(w: World, d: int, ch: string, epoch: nat)
    requires Enabled(w, DoAsk(d, ch, epoch))
    ensures var w' := Apply(w, DoAsk(d, ch, epoch));
            var ask := GotKeyReq(ch, epoch, w.devs[d].user, w.devs[d].name, w.Pub(w.devs[d].user, w.devs[d].name));
            && (forall s :: (s, ch) in w.subs && s != d ==> (s, ask) in w'.net)
            && (forall p :: p in w'.net ==> p in w.net || (p.1 == ask && (p.0, ch) in w.subs && p.0 != d))
            && w.net <= w'.net
  {
    forall s | (s, ch) in w.subs && s != d
      ensures (s, Request(w, d, ch, epoch)) in Asked(w, d, ch, epoch)
    {
      assert (s, ch).0 == s && (s, ch).1 == ch;
    }
  }

  predicate Addressed(w: World, o: int, share: Up)
    requires share.KeyShare?
  {
    o in w.online && o in w.devs && w.devs[o].user == share.toUser && w.devs[o].name == share.toDevice
  }

  /** A share reaches every connected device of the name and account it is addressed to and no other one. */
  lemma ShareReachesAddressee(w: World, d: int, share: Up)
    requires Enabled(w, DoRelay(d, share))
    ensures var w' := Apply(w, DoRelay(d, share));
            var got := GotKeyShare(share.ch, share.epoch, Some(share.fromPub), share.wrapped);
            && (forall o :: Addressed(w, o, share) ==> (o, got) in w'.net)
            && (forall p :: p in w'.net ==> p in w.net || (p.1 == got && Addressed(w, p.0, share)))
            && w.net <= w'.net
  {
  }

  /** A rotation opens the next epoch and leaves it to the rotating device to draw the key; a new channel
      begins with the first epoch, whose key its creator draws. */
  lemma EpochsAreCounted(w: World, d: int, ch: string)
    ensures Enabled(w, DoRotate(d, ch)) ==>
            var w' := Apply(w, DoRotate(d, ch));
            && w'.Epoch(ch) == w.Epoch(ch) + 1 && w'.made == w.made && w'.devs == w.devs
            && (ch, w'.Epoch(ch)) in w'.answers && w'.answers[(ch, w'.Epoch(ch))] == Answer(d, false)
    ensures Enabled(w, DoCreate(d, ch)) ==>
            var w' := Apply(w, DoCreate(d, ch));
            && w'.Epoch(ch) == 1 && ch in w'.live && w'.Sees(ch, w.devs[d].user) && w'.devs == w.devs
            && (ch, 1) in w'.answers && w'.answers[(ch, 1)] == Answer(d, true)
  {
  }

  /** The device that draws a key has it, and seals under it from then on. */
  lemma DrawnKeyIsUsed(d: Dev, ch: string, epoch: nat, key: Key, text: string)
    requires ch in d.views && d.views[ch].e2e
    ensures var d' := Handle(d, GotRotated(ch, epoch, key));
            && d'.Holds(ch, epoch) && d'.keys[(ch, epoch)] == key
            && EncryptForSend(d', ch, text) == Some((EncryptText(key, ch, epoch, text), epoch))
  {
  }

  /** Whoever creates an encrypted channel has its first key and seals under it at once. */
  lemma CreatorHasTheKey(d: Dev, ch: string, epoch: nat, key: Key, text: string)
    requires epoch > 0 && (ch in d.views ==> d.views[ch].epoch <= epoch)
    ensures var d' := Handle(d, GotCreated(Info(ch, true, epoch), key));
            && d'.Holds(ch, epoch) && d'.keys[(ch, epoch)] == key && d'.written == d.written
            && EncryptForSend(d', ch, text) == Some((EncryptText(key, ch, epoch, text), epoch))
  {
    InitOne(d, Info(ch, true, epoch), key);
  }

  /** A new device knows who it is and nothing else. */
  lemma NewDevice(w: World, d: int, user: int, name: string)
    requires Enabled(w, DoDevice(d, user, name))
    ensures var w' := Apply(w, DoDevice(d, user, name));
            && w' == w.(devs := w'.devs) && w'.devs.Keys == w.devs.Keys + {d}
            && (forall o :: o in w.devs ==> w'.devs[o] == w.devs[o])
            && w'.devs[d] == Dev(user, name, d, map[], map[], [], [], [], [])
  {
  }

  /** A device that leaves a channel forgets what it knew about it, but no key and no other channel. */
  lemma LeavingForgets(d: Dev, ch: string)
    ensures var d' := Handle(d, GotRemoved(ch));
            && ch !in d'.views && d'.keys == d.keys && d'.written == d.written && d'.shown == d.shown
            && d'.failed == d.failed && forall c :: c in d.views && c != ch ==>
              c in d'.views && d'.views[c] == d.views[c]
  {
  }

  /** A text of a plain channel goes out as it is. */
  lemma PlainTextGoesOut(d: Dev, ch: string, text: string)
    requires !Encrypted(d, ch)
    ensures EncryptForSend(d, ch, text) == Some((Junk(text), 0))
  {
  }

  // ---- connecting, drawing, sealing -----------------------------------------------------------------------

  /** A device that connects is found under its account and name; going offline ends its subscriptions. */
  lemma ConnectionsExact(w: World, d: int, u: int, name: string)
    requires d in w.devs
    ensures var w' := Apply(w, DoConnect(d));
            && d in w'.online && w'.Pub(w.devs[d].user, w.devs[d].name) == Some(w.devs[d].pub)
            && (u != w.devs[d].user || name != w.devs[d].name ==> w'.Pub(u, name) == w.Pub(u, name))
  {
  }

  lemma DisconnectionsExact(w: World, d: int, u: int, name: string)
    requires d in w.online
    ensures var w' := Apply(w, DoDisconnect(d));
            && w'.online == w.online - {d} && (forall p :: p in w'.subs <==> p in w.subs && p.0 != d)
            && w'.Pub(u, name) == w.Pub(u, name) && w'.devs == w.devs
  {
  }

  lemma SubsExact(w: World, d: int, ch: string)
    ensures Enabled(w, DoSub(d, ch)) ==> Apply(w, DoSub(d, ch)) == w.(subs := w.subs + {(d, ch)})
    ensures Apply(w, DoUnsub(d, ch)) == w.(subs := w.subs - {(d, ch)})
    ensures Enabled(w, DoDelete(ch)) ==> Apply(w, DoDelete(ch)) == w.(live := w.live - {ch})
  {
  }

  /** The reply reaches the device that asked for the epoch, which then has the drawn key, unless it has left a
      channel it rotated. The reply is used up either way. */
  lemma AnswerBringsKey(w: World, ch: string, epoch: nat, key: Key)
    requires Enabled(w, DoAnswer(ch, epoch, key)) && epoch > 0
    ensures var w', a := Apply(w, DoAnswer(ch, epoch, key)), w.answers[(ch, epoch)];
            && w'.answers == w.answers - {(ch, epoch)} && w'.epochs == w.epochs && w'.net == w.net
            && (forall o :: o in w.devs && o != a.dev ==> w'.devs[o] == w.devs[o])
            && if a.created || ch in w.devs[a.dev].views then
                 && w'.devs[a.dev].Holds(ch, epoch) && w'.devs[a.dev].keys[(ch, epoch)] == key
                 && ch in w'.devs[a.dev].views && w'.made == w.made[(ch, epoch) := key]
                 && (a.created ==> w'.devs[a.dev].views[ch].e2e && w'.devs[a.dev].views[ch].epoch >= epoch)
                 && (!a.created ==> w'.devs[a.dev].views[ch].epoch == epoch)
               else w'.devs[a.dev] == w.devs[a.dev] && w'.made == w.made
  {
    InitOne(w.devs[w.answers[(ch, epoch)].dev], Info(ch, true, epoch), key);
  }

  /** A sealed message carries what it is told, under the key of the epoch it names. */
  lemma SealExact(w: World, d: int, ch: string, text: string, id: nat, file: bool)
    requires Enabled(w, DoSeal(d, ch, text, id, file))
    ensures var w', epoch := Apply(w, DoSeal(d, ch, text, id, file)), w.devs[d].views[ch].epoch;
            && w.devs[d].Holds(ch, epoch)
            && var m := Msg(id, ch, file, epoch, EncryptText(w.devs[d].keys[(ch, epoch)], ch, epoch, text));
               w' == w.(sent := w.sent[m := text])
  {
  }

  /** What the hub tells a device about a channel, and what it hands out for a new key's peers. */
  lemma TellsExact(w: World, d: int, ch: string, epoch: nat, peers: seq<Peer>)
    ensures Enabled(w, DoInfo(d, ch)) ==>
            Apply(w, DoInfo(d, ch)) == w.(net := w.net + {(d, GotInfo(Info(ch, true, w.Epoch(ch))))})
    ensures Enabled(w, DoPeers(d, ch, epoch, peers)) ==>
            Apply(w, DoPeers(d, ch, epoch, peers)) ==
            w.(net := w.net + {(d, GotPeers(ch, epoch, w.devs[d].keys[(ch, epoch)], peers))})
  {
  }
}
