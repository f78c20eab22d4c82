/** Any number of honest nodes that open channels with each other over a network which may lose
    messages but delivers none twice. Channel ids are fresh: no two funding transactions are for
    the same outpoint. */
module Network {
  import opened Options
  import opened Crypto
  import opened Bitcoin
  import opened Channels
  import opened ForceClose
  import opened Nodes

  /** What never changes: the primitives and the key pair behind each node's id. */
  datatype Net = Net(s: Suite, h: Hashes, keys: map<PeerId, KeyPair>)
  {
    ghost predicate Lawful() {
      s.Lawful() && h.Lawful() && forall p :: p in keys ==> Keyed(s, keys[p]) && IdOf(s, keys[p]) == p
    }

    function EnvOf(p: PeerId): Env
      requires p in keys
    {
      Env(s, h, keys[p])
    }
  }

  datatype Packet = Packet(from: PeerId, to: PeerId, reply: Reply, gone: bool)

  datatype World = World(nodes: map<PeerId, Node>, packets: seq<Packet>, chain: set<Transaction>, used: set<ChannelId>)

  datatype Step =
    | New(p: PeerId, peer: PeerId, value: u64, fundTx: FundTx)
    | Close(p: PeerId, id: ChannelId, nonce: Nonce)
    | InsertAt(p: PeerId)
    | Sent(p: PeerId)
    | SendFailed(p: PeerId)
    | FireAt(p: PeerId, watcher: nat, tx: Transaction)
    | Deliver(packet: nat, nonce: Nonce)
    | Lose(packet: nat)
    | MineTx(tx: Transaction)

  /** The node action that taking delivery of a packet begins. */
  function Receive(m: Packet, nonce: Nonce): Action
    requires !m.reply.Silent?
  {
    match m.reply
    case SendOffer(offer) => BeginOffer(m.from, offer, nonce)
    case SendAck(ack) => BeginAck(m.from, ack)
  }

  ghost predicate NodeCan(g: Net, w: World, p: PeerId, a: Action) {
    p in g.keys && p in w.nodes && Enabled(g.EnvOf(p), w.nodes[p], a, w.chain)
  }

  ghost predicate Possible(g: Net, w: World, x: Step) {
    match x
    case New(p, peer, value, f) =>
      NodeCan(g, w, p, BeginNew(peer, value, f)) && p != peer && ChannelIdOf(g.h, f) !in w.used
    case Close(p, id, nonce) => NodeCan(g, w, p, BeginClose(id, nonce))
    case InsertAt(p) => NodeCan(g, w, p, Insert)
    case Sent(p) => NodeCan(g, w, p, Release) && !w.nodes[p].job.reply.Silent?
    case SendFailed(p) => NodeCan(g, w, p, Release)
    case FireAt(p, i, tx) => NodeCan(g, w, p, Fire(i, tx))
    case Deliver(k, nonce) =>
      && k < |w.packets| && !w.packets[k].gone && !w.packets[k].reply.Silent?
      && var m := w.packets[k];
         && NodeCan(g, w, m.to, Receive(m, nonce))
         && (m.reply.SendOffer? ==> UsableToAck(g.EnvOf(m.to), m.from, m.reply.offer, nonce))
    case Lose(k) => k < |w.packets|
    case MineTx(_) => true
  }

  ghost function Act(g: Net, w: World, p: PeerId, a: Action): World
    requires NodeCan(g, w, p, a)
  {
    w.(nodes := w.nodes[p := Next(g.EnvOf(p), w.nodes[p], a, w.chain)])
  }

  function Gone(packets: seq<Packet>, k: nat): seq<Packet>
    requires k < |packets|
  {
    packets[k := packets[k].(gone := true)]
  }

  ghost function After(g: Net, w: World, x: Step): World
    requires Possible(g, w, x)
  {
    match x
    case New(p, peer, value, f) => Act(g, w, p, BeginNew(peer, value, f)).(used := w.used + {ChannelIdOf(g.h, f)})
    case Close(p, id, nonce) => Act(g, w, p, BeginClose(id, nonce))
    case InsertAt(p) => Act(g, w, p, Insert)
    case Sent(p) =>
      var job := w.nodes[p].job;
      Act(g, w, p, Release).(packets := w.packets + [Packet(p, job.to, job.reply, false)])
    case SendFailed(p) => Act(g, w, p, Release)
    case FireAt(p, i, tx) => Act(g, w, p, Fire(i, tx))
    case Deliver(k, nonce) =>
      Act(g, w, w.packets[k].to, Receive(w.packets[k], nonce)).(packets := Gone(w.packets, k))
    case Lose(k) => w.(packets := Gone(w.packets, k))
    case MineTx(tx) => w.(chain := w.chain + {tx})
  }

  ghost function Start(g: Net): World {
    World(map p | p in g.keys :: FRESH_NODE, [], {}, {})
  }

  ghost function Run(g: Net, steps: seq<Step>): Option<World> {
    if steps == [] then Some(Start(g))
    else
      match Run(g, steps[..|steps| - 1])
      case None => None
      case Some(w) =>
        if Possible(g, w, steps[|steps| - 1]) then Some(After(g, w, steps[|steps| - 1])) else None
  }
}
