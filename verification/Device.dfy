/** One client of end-to-end channels (e2e_client.go, client.go onMsg/renderMsg/applyInfo): the keys it
    holds, its view of each channel, the frames it could not read yet and what became of the others. */
module Device {
  import opened Util
  import opened Crypto

  /** A content frame; `body` is the text of a message or the name of a file. */
  datatype Msg = Msg(id: nat, ch: string, file: bool, epoch: nat, body: Cipher)

  datatype Shown = AsSent(m: Msg) | Opened(m: Msg, text: string)

  datatype Info = Info(ch: string, e2e: bool, epoch: nat)

  datatype Peer = Peer(user: int, device: string, pub: int)

  datatype Up =
    | KeyReq(ch: string, epoch: nat)
    | KeyShare(ch: string, epoch: nat, toUser: int, toDevice: string, fromPub: int, wrapped: Wrapped)

  datatype View = View(e2e: bool, epoch: nat, asked: bool, pending: seq<Msg>)

  /** `pub` names the device, `written` is everything it has sent. `lost` is a history variable: frames
      that were held back in a channel when the device left it. */
  datatype Dev = Dev(
    user: int, name: string, pub: int,
    keys: map<(string, nat), Key>, views: map<string, View>,
    shown: seq<Shown>, failed: seq<Msg>, written: seq<Up>, lost: seq<Msg>)
  {
    predicate Holds(ch: string, epoch: nat) { (ch, epoch) in keys }

    function Pending(ch: string): seq<Msg> { if ch in views then views[ch].pending else [] }
  }

  function Fresh(user: int, name: string, pub: int): Dev {
    Dev(user, name, pub, map[], map[], [], [], [], [])
  }

  function Ensured(d: Dev, ch: string): Dev {
    if ch in d.views then d else d.(views := d.views[ch := View(false, 0, false, [])])
  }

  function StoreKey(d: Dev, ch: string, epoch: nat, key: Key): Dev {
    d.(keys := d.keys[(ch, epoch) := key])
  }

  // ---- asking and answering ----------------------------------------------------------------

  function MaybeRequestKey(d: Dev, ch: string): Dev
    requires ch in d.views
  {
    var v := d.views[ch];
    if !v.e2e || v.epoch == 0 || d.Holds(ch, v.epoch) || v.asked then d
    else d.(views := d.views[ch := v.(asked := true)], written := d.written + [KeyReq(ch, v.epoch)])
  }

  function ApplyInfo(d: Dev, i: Info): Dev {
    var d1 := Ensured(d, i.ch);
    var v := d1.views[i.ch];
    MaybeRequestKey(d1.(views :=
      d1.views[i.ch := v.(e2e := i.e2e, epoch := if i.epoch > v.epoch then i.epoch else v.epoch)]), i.ch)
  }

  /** Somebody joined: a device that may hold the key is there now, so ask again. */
  function OnJoin(d: Dev, ch: string): Dev {
    var d1 := Ensured(d, ch);
    if d1.views[ch].e2e then MaybeRequestKey(d1.(views := d1.views[ch := d1.views[ch].(asked := false)]), ch) else d1
  }

  function OnKeyReq(d: Dev, ch: string, epoch: nat, user: int, device: string, pub: Option<int>): Dev {
    if ch in d.views && d.views[ch].e2e && pub.Some? && d.Holds(ch, epoch)
    then d.(written := d.written + [KeyShare(ch, epoch, user, device, d.pub,
      WrapKey(d.pub, pub.value, ch, epoch, d.keys[(ch, epoch)]))])
    else d
  }

  /** The answer to `e2epeers`: the key, wrapped for every peer device but this one. */
  function Reshare(d: Dev, ch: string, epoch: nat, key: Key, peers: seq<Peer>): Dev {
    if peers == [] then d else
      var d1 := Reshare(d, ch, epoch, key, peers[..|peers| - 1]);
      var p := peers[|peers| - 1];
      if p.user == d.user && p.device == d.name then d1
      else d1.(written := d1.written + [KeyShare(ch, epoch, p.user, p.device, d.pub,
        WrapKey(d.pub, p.pub, ch, epoch, key))])
  }

  // ---- content ---------------------------------------------------------------------------------

  function HoldBack(d: Dev, ch: string, m: Msg): Dev
    requires ch in d.views
  {
    d.(views := d.views[ch := d.views[ch].(pending := d.views[ch].pending + [m])])
  }

  function RenderMsg(d: Dev, ch: string, m: Msg): (d': Dev)
    requires ch in d.views
    ensures d'.views.Keys == d.views.Keys
  {
    if !d.views[ch].e2e then d.(shown := d.shown + [AsSent(m)])
    else if !d.Holds(ch, m.epoch) then HoldBack(d, ch, m)
    else
      var text := DecryptText(d.keys[(ch, m.epoch)], ch, m.epoch, m.body);
      if text.Some? then d.(shown := d.shown + [Opened(m, text.value)])
      else if m.file then d.(shown := d.shown + [AsSent(m)])
      else d.(failed := d.failed + [m])
  }

  function RenderAll(d: Dev, ch: string, ms: seq<Msg>): (d': Dev)
    requires ch in d.views
    ensures d'.views.Keys == d.views.Keys
  {
    if ms == [] then d else RenderMsg(RenderAll(d, ch, ms[..|ms| - 1]), ch, ms[|ms| - 1])
  }

  function OnMsg(d: Dev, m: Msg): Dev {
    var d1 := Ensured(d, m.ch);
    if d1.views[m.ch].e2e && !d1.Holds(m.ch, m.epoch) then HoldBack(d1, m.ch, m) else RenderMsg(d1, m.ch, m)
  }

  // ---- keys arriving -----------------------------------------------------------------------------

  /** A wrapped key: if it opens it is kept, and everything held back in the channel is tried again. */
  function OnKeyShare(d: Dev, ch: string, epoch: nat, from: Option<int>, w: Wrapped): Dev {
    if from.None? then d else
      var key := UnwrapKey(d.pub, from.value, ch, epoch, w);
      if key.None? then d else Accept(d, ch, epoch, key.value)
  }

  function Accept(d: Dev, ch: string, epoch: nat, key: Key): Dev {
    if ch !in d.views then StoreKey(d, ch, epoch, key)
      else RenderAll(Unlocked(d, ch, epoch, key), ch, d.views[ch].pending)
  }

  /** The key is stored and nothing is held back any more. */
  function Unlocked(d: Dev, ch: string, epoch: nat, key: Key): Dev
    requires ch in d.views
  {
    var v := d.views[ch];
    StoreKey(d, ch, epoch, key).(views :=
      d.views[ch := View(v.e2e, if epoch > v.epoch then epoch else v.epoch, false, [])])
  }

  /** The reply to `create`: the first key of each new end-to-end channel is made here. */
  function InitCreated(d: Dev, infos: seq<Info>, drawn: seq<Key>): Dev
    requires |drawn| == |infos|
  {
    if infos == [] then d else
      var n := |infos| - 1;
      var d1 := InitCreated(d, infos[..n], drawn[..n]);
      if infos[n].e2e && infos[n].epoch != 0 then StoreKey(d1, infos[n].ch, infos[n].epoch, drawn[n]) else d1
  }

  /** The reply to `e2erotate`: the channel's new key is made here. */
  function OnRotated(d: Dev, ch: string, epoch: nat, drawn: Key): Dev {
    if ch !in d.views then d
    else StoreKey(d.(views := d.views[ch := d.views[ch].(epoch := epoch)]), ch, epoch, drawn)
  }

  // ---- sending and leaving --------------------------------------------------------------------------

  /** What goes out for a text: nothing at all when the channel is encrypted and its key is missing. */
  function EncryptForSend(d: Dev, ch: string, text: string): Option<(Cipher, nat)> {
    if ch !in d.views || !d.views[ch].e2e then Some((Junk(text), 0))
    else if !d.Holds(ch, d.views[ch].epoch) then None
    else Some((EncryptText(d.keys[(ch, d.views[ch].epoch)], ch, d.views[ch].epoch, text), d.views[ch].epoch))
  }

  function DropChan(d: Dev, ch: string): Dev {
    d.(views := d.views - {ch}, lost := d.lost + d.Pending(ch))
  }

  // ---- events -----------------------------------------------------------------------------------------

  datatype Event =
    | GotMsg(m: Msg)
    | GotInfo(i: Info)
    | GotJoin(ch: string)
    | GotKeyReq(ch: string, epoch: nat, user: int, device: string, pub: Option<int>)
    | GotKeyShare(ch: string, epoch: nat, from: Option<int>, w: Wrapped)
    | GotPeers(ch: string, epoch: nat, key: Key, peers: seq<Peer>)
    | GotCreated(i: Info, drawn: Key)
    | GotRotated(ch: string, epoch: nat, drawn: Key)
    | GotRemoved(ch: string)

  function Handle(d: Dev, e: Event): Dev {
    match e
    case GotMsg(m) => OnMsg(d, m)
    case GotInfo(i) => ApplyInfo(d, i)
    case GotJoin(ch) => OnJoin(d, ch)
    case GotKeyReq(ch, epoch, user, device, pub) => OnKeyReq(d, ch, epoch, user, device, pub)
    case GotKeyShare(ch, epoch, from, w) => OnKeyShare(d, ch, epoch, from, w)
    case GotPeers(ch, epoch, key, peers) => Reshare(d, ch, epoch, key, peers)
    case GotCreated(i, drawn) => ApplyInfo(InitCreated(d, [i], [drawn]), i)
    case GotRotated(ch, epoch, drawn) => OnRotated(d, ch, epoch, drawn)
    case GotRemoved(ch) => DropChan(d, ch)
  }

  function HandleAll(d: Dev, es: seq<Event>): Dev {
    if es == [] then d else Handle(HandleAll(d, es[..|es| - 1]), es[|es| - 1])
  }

  function Received(es: seq<Event>): seq<Msg> {
    if es == [] then [] else
      var e := es[|es| - 1];
      Received(es[..|es| - 1]) + if e.GotMsg? then [e.m] else []
  }
}
