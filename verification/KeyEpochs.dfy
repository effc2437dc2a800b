/** The key protocol of end-to-end channels: the hub's epoch counters and relays (hub.go handleKeyReq,
    handleKeyShare; cmds.go create, e2erotate, e2epeers), every device, and the frames between them.
    Frames may be delayed, reordered, repeated or lost; only the reply to `create` and `e2erotate` is
    delivered at most once, as its request id is forgotten on arrival. */
module KeyEpochs {
  import opened Util
  import opened Crypto
  import opened Device

  const RANK_ADMIN: nat := 4
  const MAX_EPOCH: nat := 0x7FFF_FFFF_FFFF_FFFF

  /** A reply that makes its receiver draw a key. */
  datatype Answer = Answer(dev: int, created: bool)

  /** `epochs` has every channel name ever used, `live` those that exist. `rank` is what the permission
      rules give an account in a channel. History variables: `made`, the key drawn for each epoch;
      `sent`, every sealed message with its text; `last`, the epoch at which an account last lost all rank. */
  datatype World = World(
    live: set<string>, epochs: map<string, nat>, rank: map<(string, int), nat>,
    devs: map<int, Dev>, online: set<int>, subs: set<(int, string)>, dir: map<(int, string), int>,
    net: set<(int, Event)>, answers: map<(string, nat), Answer>,
    made: map<(string, nat), Key>, sent: map<Msg, string>, last: map<(string, int), nat>)
  {
    function Rank(ch: string, u: int): nat { if (ch, u) in rank then rank[(ch, u)] else 0 }

    function Epoch(ch: string): nat { if ch in epochs then epochs[ch] else 0 }

    /** The channel exists for this account (`rankIn` is not `rankNone`). */
    predicate Sees(ch: string, u: int) { ch in live && Rank(ch, u) > 0 }

    function Pub(u: int, device: string): Option<int> { if (u, device) in dir then Some(dir[(u, device)]) else None }
  }

  function Init(): World {
    World({}, map[], map[], map[], {}, {}, map[], {}, map[], map[], map[], map[])
  }

  // ---- steps -----------------------------------------------------------------------------------

  datatype Step =
    | DoDevice(d: int, user: int, name: string)
    | DoConnect(d: int)
    | DoDisconnect(d: int)
    | DoSub(d: int, ch: string)
    | DoUnsub(d: int, ch: string)
    | DoRank(ch: string, user: int, r: nat)       // add, join, kick, ban, leave, role, transfer, usermod
    | DoCreate(d: int, ch: string)
    | DoDelete(ch: string)
    | DoRotate(d: int, ch: string)
    | DoAnswer(ch: string, epoch: nat, key: Key)
    | DoLose(ch: string, epoch: nat)
    | DoInfo(d: int, ch: string)
    | DoAsk(d: int, ch: string, epoch: nat)
    | DoRelay(d: int, share: Up)
    | DoPeers(d: int, ch: string, epoch: nat, peers: seq<Peer>)
    | DoDeliver(d: int, e: Event)
    | DoMisdeliver(d: int, ch: string, epoch: nat, from: Option<int>, writer: int, share: Up)
    | DoSeal(d: int, ch: string, text: string, id: nat, file: bool)

  predicate Deliverable(w: World, d: int, e: Event) {
    match e
    case GotMsg(m) => m in w.sent
    case GotJoin(_) => true
    case GotRemoved(_) => true
    case GotCreated(_, _) => false
    case GotRotated(_, _, _) => false
    case _ => (d, e) in w.net
  }

  predicate WroteShare(w: World, d: int, share: Up) {
    d in w.devs && share.KeyShare? && share in w.devs[d].written
  }

  predicate Enabled(w: World, s: Step) {
    match s
    case DoDevice(d, _, _) => d !in w.devs
    case DoConnect(d) => d in w.devs
    case DoDisconnect(d) => d in w.online
    case DoSub(d, ch) => d in w.online && d in w.devs && w.Sees(ch, w.devs[d].user)
    case DoUnsub(_, _) => true
    case DoRank(ch, _, _) => ch in w.epochs
    case DoCreate(d, ch) => d in w.devs && ch !in w.epochs
    case DoDelete(ch) => ch in w.live
    case DoRotate(d, ch) =>
      d in w.devs && ch in w.live && w.Rank(ch, w.devs[d].user) >= RANK_ADMIN && w.Epoch(ch) < MAX_EPOCH
    case DoAnswer(ch, epoch, key) =>
      && (ch, epoch) in w.answers && w.answers[(ch, epoch)].dev in w.devs
      && forall k :: k in w.made ==> w.made[k] != key
    case DoLose(ch, epoch) => (ch, epoch) in w.answers
    case DoInfo(d, ch) => d in w.devs && w.Sees(ch, w.devs[d].user)
    case DoAsk(d, ch, epoch) => d in w.online && d in w.devs && w.Sees(ch, w.devs[d].user)
    case DoRelay(d, share) =>
      WroteShare(w, d, share) && w.Sees(share.ch, w.devs[d].user) && w.Sees(share.ch, share.toUser)
    case DoPeers(d, ch, epoch, peers) =>
      && d in w.devs && w.devs[d].Holds(ch, epoch) && w.Sees(ch, w.devs[d].user)
      && forall p :: p in peers ==> w.Sees(ch, p.user) && w.Pub(p.user, p.device) == Some(p.pub)
    case DoDeliver(d, e) => d in w.devs && Deliverable(w, d, e)
    case DoMisdeliver(d, _, epoch, _, writer, share) =>
      d in w.devs && epoch <= MAX_EPOCH && WroteShare(w, writer, share)
    case DoSeal(d, ch, text, _, _) =>
      d in w.devs && ch in w.devs[d].views && w.devs[d].views[ch].e2e && EncryptForSend(w.devs[d], ch, text).Some?
  }

  function Request(w: World, d: int, ch: string, epoch: nat): Event
    requires d in w.devs
  {
    GotKeyReq(ch, epoch, w.devs[d].user, w.devs[d].name, w.Pub(w.devs[d].user, w.devs[d].name))
  }

  /** `keyreq` goes to every other subscriber, with the asking device's registered public key. */
  function Asked(w: World, d: int, ch: string, epoch: nat): set<(int, Event)>
    requires d in w.devs
  {
    set s | s in w.subs && s.0 != d && s.1 == ch :: (s.0, Request(w, d, ch, epoch))
  }

  /** `keyshare` goes to the sessions of one account that carry the named device. */
  function Relayed(w: World, share: Up): set<(int, Event)>
    requires share.KeyShare?
  {
    set o | o in w.online && o in w.devs && w.devs[o].user == share.toUser && w.devs[o].name == share.toDevice
      :: (o, GotKeyShare(share.ch, share.epoch, Some(share.fromPub), share.wrapped))
  }

  function Sealing(w: World, d: int, ch: string, text: string, id: nat, file: bool): Msg
    requires d in w.devs && EncryptForSend(w.devs[d], ch, text).Some?
  {
    var c := EncryptForSend(w.devs[d], ch, text).value;
    Msg(id, ch, file, c.1, c.0)
  }

  function Reply(a: Answer, ch: string, epoch: nat, key: Key): Event {
    if a.created then GotCreated(Info(ch, true, epoch), key) else GotRotated(ch, epoch, key)
  }

  /** `e2erotate` draws a key only if the client still shows the channel. */
  predicate Draws(w: World, a: Answer, ch: string)
    requires a.dev in w.devs
  {
    a.created || ch in w.devs[a.dev].views
  }

  function Answered(w: World, ch: string, epoch: nat, key: Key): World
    requires (ch, epoch) in w.answers && w.answers[(ch, epoch)].dev in w.devs
  {
    var a := w.answers[(ch, epoch)];
    w.(answers := w.answers - {(ch, epoch)},
       devs := w.devs[a.dev := Handle(w.devs[a.dev], Reply(a, ch, epoch, key))],
       made := if Draws(w, a, ch) then w.made[(ch, epoch) := key] else w.made)
  }

  function SetRank(w: World, ch: string, u: int, r: nat): World {
    w.(rank := w.rank[(ch, u) := r], last := if r == 0 && w.Rank(ch, u) > 0 then w.last[(ch, u) := w.Epoch(ch)]
      else w.last)
  }

  function Apply(w: World, s: Step): World
    requires Enabled(w, s)
  {
    match s
    case DoDevice(d, user, name) => w.(devs := w.devs[d := Fresh(user, name, d)])
    case DoConnect(d) => w.(online := w.online + {d}, dir := w.dir[(w.devs[d].user, w.devs[d].name) := w.devs[d].pub])
    case DoDisconnect(d) => w.(online := w.online - {d}, subs := set s | s in w.subs && s.0 != d)
    case DoSub(d, ch) => w.(subs := w.subs + {(d, ch)})
    case DoUnsub(d, ch) => w.(subs := w.subs - {(d, ch)})
    case DoRank(ch, u, r) => SetRank(w, ch, u, r)
    case DoCreate(d, ch) =>
      w.(live := w.live + {ch}, epochs := w.epochs[ch := 1], rank := w.rank[(ch, w.devs[d].user) := 5],
         answers := w.answers[(ch, 1) := Answer(d, true)])
    case DoDelete(ch) => w.(live := w.live - {ch})
    case DoRotate(d, ch) =>
      w.(epochs := w.epochs[ch := w.Epoch(ch) + 1], answers := w.answers[(ch, w.Epoch(ch) + 1) := Answer(d, false)])
    case DoAnswer(ch, epoch, key) => Answered(w, ch, epoch, key)
    case DoLose(ch, epoch) => w.(answers := w.answers - {(ch, epoch)})
    case DoInfo(d, ch) => w.(net := w.net + {(d, GotInfo(Info(ch, true, w.Epoch(ch))))})
    case DoAsk(d, ch, epoch) => w.(net := w.net + Asked(w, d, ch, epoch))
    case DoRelay(_, share) => w.(net := w.net + Relayed(w, share))
    case DoPeers(d, ch, epoch, peers) =>
      w.(net := w.net + {(d, GotPeers(ch, epoch, w.devs[d].keys[(ch, epoch)], peers))})
    case DoDeliver(d, e) => w.(devs := w.devs[d := Handle(w.devs[d], e)])
    case DoMisdeliver(d, ch, epoch, from, _, share) =>
      w.(devs := w.devs[d := OnKeyShare(w.devs[d], ch, epoch, from, share.wrapped)])
    case DoSeal(d, ch, text, id, file) => w.(sent := w.sent[Sealing(w, d, ch, text, id, file) := text])
  }

  predicate Possible(w: World, steps: seq<Step>)
    decreases |steps|
  {
    steps == [] || (Enabled(w, steps[0]) && Possible(Apply(w, steps[0]), steps[1..]))
  }

  function Run(w: World, steps: seq<Step>): World
    requires Possible(w, steps)
    decreases |steps|
  {
    if steps == [] then w else Run(Apply(w, steps[0]), steps[1..])
  }
}
