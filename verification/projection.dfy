/** What a node of the network does is a run of that node alone, in which every opening is of a
    fresh id; so what holds of such runs holds in the network. */
module Projection {
  import opened Options
  import opened Sequences
  import opened Crypto
  import opened Bitcoin
  import opened Channels
  import opened ForceClose
  import opened Nodes
  import opened Network
  import opened Stories
  import opened Agreement
  import Progress

  /** The node that acts in a step, and its action. */
  ghost function Acting(g: Net, w: World, x: Step): Option<(PeerId, Action)>
    requires Possible(g, w, x)
  {
    match x
    case New(p, peer, value, f) => Some((p, BeginNew(peer, value, f)))
    case Close(p, id, nonce) => Some((p, BeginClose(id, nonce)))
    case InsertAt(p) => Some((p, Insert))
    case Sent(p) => Some((p, Release))
    case SendFailed(p) => Some((p, Release))
    case FireAt(p, i, tx) => Some((p, Fire(i, tx)))
    case Deliver(k, nonce) => Some((w.packets[k].to, Receive(w.packets[k], nonce)))
    case Lose(_) => None
    case MineTx(_) => None
  }

  lemma OneActs(g: Net, w: World, x: Step)
    requires Possible(g, w, x)
    ensures match Acting(g, w, x)
            case Some((p, a)) =>
              && NodeCan(g, w, p, a)
              && After(g, w, x).nodes == w.nodes[p := Next(g.EnvOf(p), w.nodes[p], a, w.chain)]
              && After(g, w, x).chain == w.chain
            case None =>
              && After(g, w, x).nodes == w.nodes
              && After(g, w, x).chain == if x.MineTx? then w.chain + {x.tx} else w.chain
  {
    hide Enabled, Next, UsableToAck;
  }

  /** What the step adds to the run of node `p` alone. */
  ghost function Share(g: Net, w: World, x: Step, p: PeerId): seq<SoloAction>
    requires Possible(g, w, x)
  {
    match Acting(g, w, x)
    case Some((q, a)) => if p == q then [Own(a)] else []
    case None => if x.MineTx? then [Mine(x.tx)] else []
  }

  /** The openings of a network are of ids that the opening node does not hold. */
  lemma ActsOnFreshIds(g: Net, w: World, book: Book, x: Step)
    requires Inv(w, book) && Possible(g, w, x)
    ensures match Acting(g, w, x)
            case Some((p, a)) =>
              && (a.BeginNew? ==> HasFundingOutput(a.fundTx))
              && (Progress.Opened(g.EnvOf(p), a).Some? ==> Progress.Opened(g.EnvOf(p), a).value.id !in w.nodes[p].db)
            case None => true
  {
    hide JobOk, UsableToAck, FundingDescriptor, Confirm, WatchersOk;
    match Acting(g, w, x) {
      case None =>
      case Some((p, a)) =>
        assert NodeOk(book, p, w.nodes[p]);
        if x.Deliver? {
          assert PacketOk(book, x.packet, w.packets[x.packet]);
          if w.packets[x.packet].reply.SendOffer? {
            OfferIsFresh(w, book, p, w.packets[x.packet].reply.offer.id, x.packet);
          }
        }
    }
  }

  lemma OfferIsFresh(w: World, book: Book, p: PeerId, id: ChannelId, k: nat)
    requires Inv(w, book) && p in w.nodes && id in book && book[id].to == p && book[id].stage == OfferOnNet(k)
    ensures id !in w.nodes[p].db
  {
    hide JobOk, WatchersOk, PacketOk;
    assert PresentOk(w.nodes, id, book[id]);
    assert NodeOk(book, p, w.nodes[p]);
  }

  /** Each node of the network, with the chain, is where a run of its own leads, and that run opens
      channels under fresh ids only. */
  lemma {:induction false} RunsAlone(g: Net, steps: seq<Step>, p: PeerId) returns (acts: seq<SoloAction>)
    requires g.Lawful() && Network.Run(g, steps).Some? && p in g.keys
    ensures var w := Network.Run(g, steps).value;
            && p in w.nodes
            && Nodes.Run(g.EnvOf(p), acts) == Some(Solo(w.nodes[p], w.chain))
            && Progress.FreshIds(g.EnvOf(p), acts)
  {
    hide Possible, After, Acting, NodeCan, Progress.Opened, Sound, Next, Enabled;
    if steps == [] {
      acts := [];
    } else {
      var front, x := steps[..|steps| - 1], steps[|steps| - 1];
      var acts0 := RunsAlone(g, front, p);
      var w := Network.Run(g, front).value;
      acts := acts0 + Share(g, w, x, p);
      ShareRuns(g, front, w, x, p, acts0);
    }
  }

  lemma ShareRuns(g: Net, front: seq<Step>, w: World, x: Step, p: PeerId, acts0: seq<SoloAction>)
    requires g.Lawful() && Network.Run(g, front) == Some(w) && Possible(g, w, x) && p in g.keys && p in w.nodes
    requires Nodes.Run(g.EnvOf(p), acts0) == Some(Solo(w.nodes[p], w.chain)) && Progress.FreshIds(g.EnvOf(p), acts0)
    ensures var w', acts := After(g, w, x), acts0 + Share(g, w, x, p);
            && p in w'.nodes
            && Nodes.Run(g.EnvOf(p), acts) == Some(Solo(w'.nodes[p], w'.chain))
            && Progress.FreshIds(g.EnvOf(p), acts)
  {
    hide Network.Run, Possible, After, Acting, Progress.Opened, Next, Enabled, NodesGood, MessagesWorth, Inv;
    var book := SoundAlways(g, front);
    OneActs(g, w, x);
    ActsOnFreshIds(g, w, book, x);
    var share := Share(g, w, x, p);
    if |share| == 1 {
      assert (acts0 + share)[..|acts0|] == acts0;
    } else {
      assert acts0 + share == acts0;
    }
  }

  // ---------------------------------------------------------------------------------------
  // What follows for the network
  // ---------------------------------------------------------------------------------------

  lemma NodeIsOrderly(g: Net, steps: seq<Step>, p: PeerId)
    requires g.Lawful() && Network.Run(g, steps).Some? && p in g.keys
    ensures var w := Network.Run(g, steps).value;
            p in w.nodes && Progress.Orderly(w.nodes[p]) && Progress.TidyInsert(w.nodes[p])
  {
    hide Progress.Orderly, Progress.TidyInsert;
    var acts := RunsAlone(g, steps, p);
    Progress.FreshIsTidy(g.EnvOf(p), acts);
    Progress.TidyIsOrderly(g.EnvOf(p), acts);
  }

  /** Among honest nodes that never offer one funding outpoint twice, each step moves each stored
      channel of each node forward or leaves it as it is. */
  lemma ChannelsOnlyMoveForward(g: Net, steps: seq<Step>, x: Step, p: PeerId)
    requires g.Lawful() && Network.Run(g, steps).Some? && p in g.keys
    requires Possible(g, Network.Run(g, steps).value, x)
    ensures var w := Network.Run(g, steps).value;
            var w' := After(g, w, x);
            p in w.nodes && p in w'.nodes && Progress.Forward(w.nodes[p].db, w'.nodes[p].db)
  {
    hide Possible, After, Acting, Network.Run, Progress.Orderly, Progress.TidyInsert, Next, Enabled;
    var w := Network.Run(g, steps).value;
    NodeIsOrderly(g, steps, p);
    OneActs(g, w, x);
    match Acting(g, w, x) {
      case Some((q, a)) =>
        if q == p {
          Progress.OrderlyStep(g.EnvOf(p), w.nodes[p], a, w.chain);
        }
      case None =>
    }
  }

  /** In the network too a watcher that still waits holds what the store holds, no two of a node's
      watchers wait for one channel, and each channel is closed at most once and for good. */
  lemma OneWatcherAndOneClose(g: Net, steps: seq<Step>, p: PeerId)
    requires g.Lawful() && Network.Run(g, steps).Some? && p in g.keys
    ensures var w := Network.Run(g, steps).value;
            && p in w.nodes
            && var n := w.nodes[p];
               && Progress.WatchersHold(n.db, n.watchers) && Progress.OneWatcherEach(n.watchers)
               && Progress.ClosesHold(n.db, n.closes)
  {
    hide Network.Run;
    NodeIsOrderly(g, steps, p);
  }
}
