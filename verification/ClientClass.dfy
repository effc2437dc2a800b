/** The client's fields and the methods that change them (e2e_client.go, client.go), each proved to do what
    Device defines. */
module ClientClass {
  import opened Util
  import opened Crypto
  import opened Device
  import opened HeldBack
  import opened KeyTraffic

  lemma PrefixSnoc<T>(s: seq<T>, i: nat)
    requires i < |s|
    ensures s[..i + 1] == s[..i] + [s[i]] && s[..i + 1][..i] == s[..i] && s[..i + 1][i] == s[i]
  {
  }

  // ---- what an event leaves behind --------------------------------------------------------------

  /** The frame that arrived, if one did, is accounted for once and every other frame as before. Frames
      wait for keys the device lacks and for no others, unless the device itself made an awaited key. */
  ghost predicate Conserved(was: Dev, e: Event, d: Dev) {
    && Filed(d) && (Unheld(was) ==> (Unheld(d) <==> NotAwaited(was, e)))
    && forall m :: Fate(d, m) == Fate(was, m) + if e == GotMsg(m) then 1 else 0
  }

  lemma HandleDone(d: Dev, e: Event)
    requires Filed(d)
    ensures Conserved(d, e, Handle(d, e))
  {
    if Unheld(d) { UnheldExact(d, e); }
    HandleFate(d, e, Msg(0, "", false, 0, Junk("")));
    forall m ensures Fate(Handle(d, e), m) == Fate(d, m) + if e == GotMsg(m) then 1 else 0 {
      HandleFate(d, e, m);
    }
  }

  class Client {
    const user: int
    const name: string
    const pub: int
    var keys: map<(string, nat), Key>
    var views: map<string, View>
    var shown: seq<Shown>
    var failed: seq<Msg>
    var written: seq<Up>
    ghost var lost: seq<Msg>

    ghost function Snap(): Dev
      reads this
    {
      Dev(user, name, pub, keys, views, shown, failed, written, lost)
    }

    /** Frames wait in their own channel. */
    ghost predicate Valid()
      reads this
    {
      Filed(Snap())
    }

    constructor (user: int, name: string, pub: int)
      ensures Snap() == Device.Fresh(user, name, pub) && Valid() && Unheld(Snap())
    {
      this.user, this.name, this.pub := user, name, pub;
      keys, views := map[], map[];
      shown, failed, written, lost := [], [], [], [];
    }

    method EnsureChan(ch: string)
      modifies this`views
      ensures Snap() == Ensured(old(Snap()), ch)
    {
      if ch !in views {
        views := views[ch := View(false, 0, false, [])];
      }
    }

    method StoreChanKey(ch: string, epoch: nat, key: Key)
      modifies this`keys
      ensures Snap() == StoreKey(old(Snap()), ch, epoch, key)
    {
      keys := keys[(ch, epoch) := key];
    }

    method Write(up: Up)
      modifies this`written
      ensures written == old(written) + [up]
    {
      written := written + [up];
    }

    // ---- asking and answering ------------------------------------------------------------

    method MaybeRequestKey(ch: string)
      requires ch in views
      modifies this`views, this`written
      ensures Snap() == Device.MaybeRequestKey(old(Snap()), ch)
    {
      var v := views[ch];
      if !v.e2e || v.epoch == 0 {
        return;
      }
      if (ch, v.epoch) in keys {
        return;
      }
      if v.asked {
        return;
      }
      views := views[ch := v.(asked := true)];
      Write(KeyReq(ch, v.epoch));
    }

    method ApplyInfo(i: Info)
      requires Valid()
      modifies this`views, this`written
      ensures Snap() == Device.ApplyInfo(old(Snap()), i)
      ensures Conserved(old(Snap()), GotInfo(i), Snap())
      ensures i.ch in views && views[i.ch].epoch >= i.epoch &&
              (i.ch in old(views) ==> views[i.ch].epoch >= old(views)[i.ch].epoch)
    {
      HandleDone(Snap(), GotInfo(i));
      EnsureChan(i.ch);
      var v := views[i.ch].(e2e := i.e2e);
      if i.epoch > v.epoch {
        v := v.(epoch := i.epoch);
      }
      views := views[i.ch := v];
      MaybeRequestKey(i.ch);
    }

    method OnJoin(ch: string)
      requires Valid()
      modifies this`views, this`written
      ensures Snap() == Device.OnJoin(old(Snap()), ch)
      ensures Conserved(old(Snap()), GotJoin(ch), Snap())
    {
      HandleDone(Snap(), GotJoin(ch));
      EnsureChan(ch);
      if views[ch].e2e {
        views := views[ch := views[ch].(asked := false)];
        MaybeRequestKey(ch);
      }
    }

    method OnKeyReq(ch: string, epoch: nat, fromUser: int, fromDev: string, fromPub: Option<int>)
      requires Valid()
      modifies this`written
      ensures Snap() == Device.OnKeyReq(old(Snap()), ch, epoch, fromUser, fromDev, fromPub)
      ensures Conserved(old(Snap()), GotKeyReq(ch, epoch, fromUser, fromDev, fromPub), Snap())
    {
      HandleDone(Snap(), GotKeyReq(ch, epoch, fromUser, fromDev, fromPub));
      if ch !in views || !views[ch].e2e || fromPub.None? {
        return;
      }
      if (ch, epoch) !in keys {
        return;
      }
      Write(KeyShare(ch, epoch, fromUser, fromDev, pub, WrapKey(pub, fromPub.value, ch, epoch, keys[(ch, epoch)])));
    }

    method ReshareToOnlinePeers(ch: string, epoch: nat, key: Key, peers: seq<Peer>)
      requires Valid()
      modifies this`written
      ensures Snap() == Reshare(old(Snap()), ch, epoch, key, peers)
      ensures Reshared(old(Snap()), Snap(), ch, epoch, key, peers)
      ensures Conserved(old(Snap()), GotPeers(ch, epoch, key, peers), Snap())
    {
      HandleDone(Snap(), GotPeers(ch, epoch, key, peers));
      ReshareReachesPeers(Snap(), ch, epoch, key, peers);
      ghost var was := Snap();
      var i := 0;
      while i < |peers|
        invariant 0 <= i <= |peers|
        invariant Snap() == Reshare(was, ch, epoch, key, peers[..i])
      {
        PrefixSnoc(peers, i);
        var p := peers[i];
        if !(p.user == user && p.device == name) {
          Write(KeyShare(ch, epoch, p.user, p.device, pub, WrapKey(pub, p.pub, ch, epoch, key)));
        }
        i := i + 1;
      }
      assert peers[..|peers|] == peers;
    }

    // ---- content ----------------------------------------------------------------------------

    method RenderMsg(ch: string, m: Msg)
      requires ch in views
      modifies this`views, this`shown, this`failed
      ensures Snap() == Device.RenderMsg(old(Snap()), ch, m)
    {
      if views[ch].e2e {
        if (ch, m.epoch) !in keys {
          views := views[ch := views[ch].(pending := views[ch].pending + [m])];
          return;
        }
        var text := DecryptText(keys[(ch, m.epoch)], ch, m.epoch, m.body);
        if text.Some? {
          shown := shown + [Opened(m, text.value)];
          return;
        }
        if !m.file {
          failed := failed + [m];
          return;
        }
      }
      shown := shown + [AsSent(m)];
    }

    method OnMsg(m: Msg)
      requires Valid()
      modifies this`views, this`shown, this`failed
      ensures Snap() == Device.OnMsg(old(Snap()), m)
      ensures Conserved(old(Snap()), GotMsg(m), Snap()) && Rendered(old(Snap()), m, Snap())
    {
      HandleDone(Snap(), GotMsg(m));
      MessageRendered(Snap(), m);
      EnsureChan(m.ch);
      if views[m.ch].e2e && (m.ch, m.epoch) !in keys {
        views := views[m.ch := views[m.ch].(pending := views[m.ch].pending + [m])];
        return;
      }
      RenderMsg(m.ch, m);
    }

    // ---- keys arriving --------------------------------------------------------------------------

    method OnKeyShare(ch: string, epoch: nat, fromPub: Option<int>, w: Wrapped)
      requires Valid()
      modifies this
      ensures Snap() == Device.OnKeyShare(old(Snap()), ch, epoch, fromPub, w)
      ensures Conserved(old(Snap()), GotKeyShare(ch, epoch, fromPub, w), Snap())
    {
      HandleDone(Snap(), GotKeyShare(ch, epoch, fromPub, w));
      if fromPub.None? {
        return;
      }
      var key := UnwrapKey(pub, fromPub.value, ch, epoch, w);
      if key.None? {
        return;
      }
      Accept(ch, epoch, key.value);
    }

    method Accept(ch: string, epoch: nat, key: Key)
      modifies this
      ensures Snap() == Device.Accept(old(Snap()), ch, epoch, key)
    {
      StoreChanKey(ch, epoch, key);
      if ch in views {
        Retry(ch, epoch);
      }
    }

    /** The frames held back in the channel are taken out and rendered one by one; what still cannot be
        read goes back to the end of the list. */
    method Retry(ch: string, epoch: nat)
      requires ch in views
      modifies this`views, this`shown, this`failed
      ensures var v := old(views)[ch];
              Snap() == RenderAll(old(Snap()).(views :=
                old(views)[ch := View(v.e2e, if epoch > v.epoch then epoch else v.epoch, false, [])]), ch, v.pending)
    {
      var v := views[ch];
      if epoch > v.epoch {
        v := v.(epoch := epoch);
      }
      var pending := v.pending;
      views := views[ch := v.(asked := false, pending := [])];
      ghost var was := Snap();
      var i := 0;
      while i < |pending|
        invariant 0 <= i <= |pending|
        invariant Snap() == RenderAll(was, ch, pending[..i])
      {
        PrefixSnoc(pending, i);
        RenderMsg(ch, pending[i]);
        i := i + 1;
      }
      assert pending[..|pending|] == pending;
    }

    /** `draw` holds the random keys. */
    method InitCreatedE2EKeys(infos: seq<Info>, draw: seq<Key>)
      requires |draw| == |infos|
      modifies this`keys
      ensures Snap() == InitCreated(old(Snap()), infos, draw)
    {
      ghost var was := Snap();
      var i := 0;
      while i < |infos|
        invariant 0 <= i <= |infos|
        invariant Snap() == InitCreated(was, infos[..i], draw[..i])
      {
        PrefixSnoc(infos, i);
        PrefixSnoc(draw, i);
        if infos[i].e2e && infos[i].epoch != 0 {
          StoreChanKey(infos[i].ch, infos[i].epoch, draw[i]);
        }
        i := i + 1;
      }
      assert infos[..|infos|] == infos && draw[..|draw|] == draw;
    }

    method OnRotated(ch: string, epoch: nat, draw: Key)
      requires Valid()
      modifies this`keys, this`views
      ensures Snap() == Device.OnRotated(old(Snap()), ch, epoch, draw)
      ensures Conserved(old(Snap()), GotRotated(ch, epoch, draw), Snap())
    {
      HandleDone(Snap(), GotRotated(ch, epoch, draw));
      if ch !in views {
        return;
      }
      views := views[ch := views[ch].(epoch := epoch)];
      StoreChanKey(ch, epoch, draw);
    }

    // ---- sending and leaving -----------------------------------------------------------------------

    method EncryptForSend(ch: string, text: string) returns (r: Option<(Cipher, nat)>)
      ensures r == Device.EncryptForSend(Snap(), ch, text)
      ensures ch in views && views[ch].e2e ==> (r.None? <==> (ch, views[ch].epoch) !in keys)
      ensures ch in views && views[ch].e2e && r.Some? ==>
        (ch, r.value.1) in keys && DecryptText(keys[(ch, r.value.1)], ch, r.value.1, r.value.0) == Some(text)
    {
      if ch !in views || !views[ch].e2e {
        return Some((Junk(text), 0));
      }
      var epoch := views[ch].epoch;
      if (ch, epoch) !in keys {
        return None;
      }
      r := Some((EncryptText(keys[(ch, epoch)], ch, epoch, text), epoch));
    }

    method DropChan(ch: string)
      requires Valid()
      modifies this`views, this`lost
      ensures Snap() == Device.DropChan(old(Snap()), ch)
      ensures Conserved(old(Snap()), GotRemoved(ch), Snap())
    {
      HandleDone(Snap(), GotRemoved(ch));
      lost := lost + if ch in views then views[ch].pending else [];
      views := views - {ch};
    }
  }
}
