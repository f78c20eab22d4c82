/** The whole life of a channel, from the offer to the force close: the run that the repository's
    end-to-end test takes exists for every pair of nodes and every value. */
module EndToEnd {
  import opened Options
  import opened Crypto
  import opened Bitcoin
  import opened Channels
  import opened ForceClose
  import opened Nodes
  import opened Network
  import opened Agreement

  /** Two honest nodes, a funding transaction that the funder stands for, and nonces that serve. */
  ghost predicate Scene(g: Net, a: PeerId, b: PeerId, value: u64, f: FundTx, ackNonce: Nonce, closeNonce: Nonce) {
    && g.Lawful() && a in g.keys && b in g.keys && a != b
    && FunderContract(f, value, FundingDescriptor(g.EnvOf(a), b, true))
    && UsableToAck(g.EnvOf(b), a, OfferFor(g.EnvOf(a), value, f), ackNonce)
    && UsableToClose(g.EnvOf(a), LiveChannel(g, a, b, value, f, ackNonce), closeNonce)
  }

  function TheAck(g: Net, a: PeerId, b: PeerId, value: u64, f: FundTx, nonce: Nonce): AckNewChannel
    requires a in g.keys && b in g.keys && HasFundingOutput(f)
  {
    AckFor(g.EnvOf(b), a, OfferFor(g.EnvOf(a), value, f), nonce)
  }

  function ReadyChannel(g: Net, a: PeerId, b: PeerId, value: u64, f: FundTx, nonce: Nonce): Channel
    requires a in g.keys && b in g.keys && HasFundingOutput(f)
  {
    Channel(ChannelIdOf(g.h, f), ReadyToFund(f, CommitState(value, 0), TheAck(g, a, b, value, f, nonce).commitSig), b, value, true)
  }

  function LiveChannel(g: Net, a: PeerId, b: PeerId, value: u64, f: FundTx, nonce: Nonce): Channel
    requires a in g.keys && b in g.keys && HasFundingOutput(f)
  {
    ReadyChannel(g, a, b, value, f, nonce).(
      state := Live(0, CommitState(value, 0), TheAck(g, a, b, value, f, nonce).commitSig))
  }

  ghost predicate AllFunds(w: World) {
    forall p :: p in w.nodes ==> FundsOk(w.nodes[p])
  }

  /** The run leads to this world. */
  ghost predicate Reached(g: Net, steps: seq<Step>, w: World) {
    g.Lawful() && Network.Run(g, steps) == Some(w) && AllFunds(w) && w.nodes.Keys == g.keys.Keys
  }

  lemma FundsAlways(g: Net, steps: seq<Step>, w: World)
    requires g.Lawful() && Network.Run(g, steps) == Some(w)
    ensures Reached(g, steps, w)
  {
    hide Network.Run, FundsOk;
    var book := SoundAlways(g, steps);
    forall p | p in w.nodes
      ensures FundsOk(w.nodes[p])
    {
      assert AllGood(g.EnvOf(p), w.nodes[p], w.chain);
      GoodFunds(g.EnvOf(p), w.nodes[p], w.chain);
    }
  }

  // ---------------------------------------------------------------------------------------
  // Single steps
  // ---------------------------------------------------------------------------------------

  lemma Go(g: Net, steps: seq<Step>, w: World, x: Step) returns (steps': seq<Step>, w': World)
    requires Reached(g, steps, w) && Possible(g, w, x)
    ensures w' == After(g, w, x) && Reached(g, steps', w')
  {
    hide Possible, After, AllFunds;
    steps', w' := steps + [x], After(g, w, x);
    assert steps'[..|steps|] == steps;
    FundsAlways(g, steps', w');
  }

  lemma Begin(g: Net) returns (steps: seq<Step>, w: World)
    requires g.Lawful()
    ensures Reached(g, steps, w) && w == Start(g)
  {
    steps, w := [], Start(g);
    assert Network.Run(g, steps) == Some(w);
    FundsAlways(g, steps, w);
  }

  ghost predicate At(g: Net, steps: seq<Step>, w: World, p: PeerId) {
    Reached(g, steps, w) && p in g.keys && p in w.nodes
  }

  function Set(w: World, p: PeerId, n: Node): World {
    w.(nodes := w.nodes[p := n])
  }

  lemma GoNew(g: Net, steps: seq<Step>, w: World, p: PeerId, peer: PeerId, value: u64, f: FundTx)
    returns (steps': seq<Step>, w': World)
    requires At(g, steps, w, p) && w.nodes[p].job.Idle? && p != peer
    requires FunderContract(f, value, FundingDescriptor(g.EnvOf(p), peer, true)) && ChannelIdOf(g.h, f) !in w.used
    ensures Reached(g, steps', w')
    ensures w' == Set(w, p, w.nodes[p].(job := Inserting(PendingChannel(g.h, peer, value, f), SendOffer(OfferFor(g.EnvOf(p), value, f)))))
                    .(used := w.used + {ChannelIdOf(g.h, f)})
  {
    hide Network.Run, FundingDescriptor, FundsOk, PendingChannel, OfferFor, ChannelIdOf;
    steps', w' := Go(g, steps, w, New(p, peer, value, f));
  }

  /** The node after it has stored the channel it was about to store. */
  function Inserted(n: Node): Node
    requires n.job.Inserting?
  {
    var c, reply := n.job.channel, n.job.reply;
    n.(db := n.db[c.id := c],
       watchers := n.watchers + (if Watches(c) then [Watcher(c, true)] else []),
       closes := n.closes + (if c.state.Closed? then [c.id] else []),
       job := if reply.Silent? then Idle else Replying(c.peerId, reply))
  }

  lemma GoInsert(g: Net, steps: seq<Step>, w: World, p: PeerId) returns (steps': seq<Step>, w': World)
    requires At(g, steps, w, p) && w.nodes[p].job.Inserting?
    ensures Reached(g, steps', w') && w' == Set(w, p, Inserted(w.nodes[p]))
  {
    hide Network.Run, FundsOk;
    steps', w' := Go(g, steps, w, InsertAt(p));
  }

  lemma GoSend(g: Net, steps: seq<Step>, w: World, p: PeerId) returns (steps': seq<Step>, w': World)
    requires At(g, steps, w, p) && w.nodes[p].job.Replying? && !w.nodes[p].job.reply.Silent?
    ensures Reached(g, steps', w')
    ensures var t := w.nodes[p].job;
            w' == Set(w, p, w.nodes[p].(job := Idle)).(packets := w.packets + [Packet(p, t.to, t.reply, false)])
  {
    hide Network.Run, FundsOk;
    steps', w' := Go(g, steps, w, Sent(p));
  }

  ghost predicate Arriving(w: World, k: nat, m: Packet) {
    k < |w.packets| && w.packets[k] == m && !m.gone && m.to in w.nodes && w.nodes[m.to].job.Idle?
  }

  lemma GoOffer(g: Net, steps: seq<Step>, w: World, k: nat, m: Packet, nonce: Nonce) returns (steps': seq<Step>, w': World)
    requires Arriving(w, k, m) && m.reply.SendOffer? && At(g, steps, w, m.to)
    requires UsableToAck(g.EnvOf(m.to), m.from, m.reply.offer, nonce)
    ensures Reached(g, steps', w')
    ensures var job := Inserting(AcceptedChannel(m.from, m.reply.offer), SendAck(AckFor(g.EnvOf(m.to), m.from, m.reply.offer, nonce)));
            w' == Set(w, m.to, w.nodes[m.to].(job := job)).(packets := Gone(w.packets, k))
  {
    hide Network.Run, FundsOk, UsableToAck, AckFor;
    steps', w' := Go(g, steps, w, Deliver(k, nonce));
  }

  lemma GoAck(g: Net, steps: seq<Step>, w: World, k: nat, m: Packet, nonce: Nonce) returns (steps': seq<Step>, w': World)
    requires Arriving(w, k, m) && m.reply.SendAck? && At(g, steps, w, m.to)
    ensures Reached(g, steps', w') && FundsOk(w.nodes[m.to])
    ensures var confirmed := Confirm(g.EnvOf(m.to), w.nodes[m.to].db, m.from, m.reply.ack);
            && confirmed.Success?
            && w' == Set(w, m.to, w.nodes[m.to].(job := Inserting(confirmed.value, Silent))).(packets := Gone(w.packets, k))
  {
    hide Network.Run, FundsOk, Confirm;
    AcksAreNeverRejected(g, steps, k);
    steps', w' := Go(g, steps, w, Deliver(k, nonce));
  }

  lemma GoMine(g: Net, steps: seq<Step>, w: World, tx: Transaction) returns (steps': seq<Step>, w': World)
    requires Reached(g, steps, w)
    ensures Reached(g, steps', w') && w' == w.(chain := w.chain + {tx})
  {
    hide Network.Run, FundsOk;
    steps', w' := Go(g, steps, w, MineTx(tx));
  }

  lemma GoFire(g: Net, steps: seq<Step>, w: World, p: PeerId, c: Channel, tx: Transaction) returns (steps': seq<Step>, w': World)
    requires At(g, steps, w, p) && w.nodes[p].watchers == [Watcher(c, true)] && tx in w.chain && g.h.txid(tx) == c.id.txid
    requires c.state.ReadyToFund? || c.state.WaitingForFund?
    ensures Reached(g, steps', w')
    ensures var c' := c.(state := if c.state.ReadyToFund? then Live(0, c.state.commit, c.state.commitSig) else Funded(tx));
            w' == Set(w, p, w.nodes[p].(watchers := [Watcher(c, false)], db := w.nodes[p].db[c.id := c']))
  {
    hide Reached, Possible, After, Sight;
    FirePossible(g, steps, w, p, c, tx);
    FireSeen(g, steps, w, p, c, tx);
    steps', w' := Go(g, steps, w, FireAt(p, 0, tx));
  }

  lemma FirePossible(g: Net, steps: seq<Step>, w: World, p: PeerId, c: Channel, tx: Transaction)
    requires At(g, steps, w, p) && w.nodes[p].watchers == [Watcher(c, true)] && tx in w.chain && g.h.txid(tx) == c.id.txid
    requires c.state.ReadyToFund? || c.state.WaitingForFund?
    ensures Possible(g, w, FireAt(p, 0, tx)) && FundsOk(w.nodes[p])
  {
    hide Network.Run;
  }

  lemma FireSeen(g: Net, steps: seq<Step>, w: World, p: PeerId, c: Channel, tx: Transaction)
    requires At(g, steps, w, p) && w.nodes[p].watchers == [Watcher(c, true)] && Possible(g, w, FireAt(p, 0, tx))
    requires c.state.ReadyToFund? || c.state.WaitingForFund?
    ensures var c' := c.(state := if c.state.ReadyToFund? then Live(0, c.state.commit, c.state.commitSig) else Funded(tx));
            After(g, w, FireAt(p, 0, tx))
              == Set(w, p, w.nodes[p].(watchers := [Watcher(c, false)], db := w.nodes[p].db[c.id := c']))
  {
    hide Network.Run, FundsOk, Matches, FundingDescriptor;
    WatchersAlwaysMatch(g, steps, p, 0, tx);
    assert [Watcher(c, true)][0 := Watcher(c, false)] == [Watcher(c, false)];
  }

  lemma GoClose(g: Net, steps: seq<Step>, w: World, p: PeerId, id: ChannelId, nonce: Nonce) returns (steps': seq<Step>, w': World)
    requires At(g, steps, w, p) && w.nodes[p].job.Idle? && id in w.nodes[p].db && w.nodes[p].db[id].state.Live?
    requires UsableToClose(g.EnvOf(p), w.nodes[p].db[id], nonce)
    ensures Reached(g, steps', w')
    ensures var c := w.nodes[p].db[id];
            var closing := CloseLive(g.EnvOf(p), c, nonce);
            && c.id == id && Good(g.EnvOf(p), w.chain, c.(state := Closed(closing.tx)))
            && w' == Set(w, p, w.nodes[p].(job := Inserting(c.(state := Closed(closing.tx)), Silent)))
  {
    hide Reached, CloseLive, UsableToClose, Good, Possible, After;
    GoodClosing(g, steps, w, p, id, nonce);
    ClosePossible(g, w, p, id, nonce);
    steps', w' := Go(g, steps, w, Close(p, id, nonce));
  }

  lemma GoodClosing(g: Net, steps: seq<Step>, w: World, p: PeerId, id: ChannelId, nonce: Nonce)
    requires At(g, steps, w, p) && id in w.nodes[p].db && w.nodes[p].db[id].state.Live?
    requires UsableToClose(g.EnvOf(p), w.nodes[p].db[id], nonce)
    ensures FundsOk(w.nodes[p]) && w.nodes[p].db[id].id == id
    ensures var closing := CloseLive(g.EnvOf(p), w.nodes[p].db[id], nonce);
            closing.asserted && Good(g.EnvOf(p), w.chain, w.nodes[p].db[id].(state := Closed(closing.tx)))
  {
    hide Network.Run, FundsOk, CloseLive, UsableToClose, Good;
    var book := SoundAlways(g, steps);
    GoodAt(g, w, p, id);
    ClosedIsGood(g.EnvOf(p), w.chain, w.nodes[p].db[id], nonce);
  }

  lemma ClosePossible(g: Net, w: World, p: PeerId, id: ChannelId, nonce: Nonce)
    requires p in g.keys && p in w.nodes && FundsOk(w.nodes[p])
    requires w.nodes[p].job.Idle? && id in w.nodes[p].db && w.nodes[p].db[id].state.Live?
    requires UsableToClose(g.EnvOf(p), w.nodes[p].db[id], nonce)
    requires CloseLive(g.EnvOf(p), w.nodes[p].db[id], nonce).asserted
    ensures Possible(g, w, Close(p, id, nonce))
    ensures var c := w.nodes[p].db[id];
            After(g, w, Close(p, id, nonce))
              == Set(w, p, w.nodes[p].(job := Inserting(c.(state := Closed(CloseLive(g.EnvOf(p), c, nonce).tx)), Silent)))
  {
    hide FundsOk, CloseLive, UsableToClose;
  }

  // ---------------------------------------------------------------------------------------
  // The run
  // ---------------------------------------------------------------------------------------

  function TheOffer(g: Net, a: PeerId, b: PeerId, value: u64, f: FundTx): Packet
    requires a in g.keys && HasFundingOutput(f)
  {
    Packet(a, b, SendOffer(OfferFor(g.EnvOf(a), value, f)), false)
  }

  /** The opener drafts, stores and sends its offer. */
  lemma OfferPhase(g: Net, a: PeerId, b: PeerId, value: u64, f: FundTx, n1: Nonce, n2: Nonce)
    returns (steps: seq<Step>, w: World)
    requires Scene(g, a, b, value, f, n1, n2)
    ensures At(g, steps, w, a) && At(g, steps, w, b) && w.packets == [TheOffer(g, a, b, value, f)]
    ensures w.nodes[a] == FRESH_NODE.(db := map[ChannelIdOf(g.h, f) := PendingChannel(g.h, b, value, f)])
    ensures w.nodes[b] == FRESH_NODE
  {
    hide Reached, UsableToAck, UsableToClose, OfferFor, FundingDescriptor, FunderContract, ReadyChannel;
    steps, w := Begin(g);
    steps, w := GoNew(g, steps, w, a, b, value, f);
    steps, w := GoInsert(g, steps, w, a);
    steps, w := GoSend(g, steps, w, a);
  }

  /** The other node accepts, stores, watches and acknowledges. */
  lemma AcceptPhase(g: Net, steps0: seq<Step>, w0: World, a: PeerId, b: PeerId, value: u64, f: FundTx, n1: Nonce, n2: Nonce)
    returns (steps: seq<Step>, w: World)
    requires Scene(g, a, b, value, f, n1, n2) && At(g, steps0, w0, a) && At(g, steps0, w0, b)
    requires w0.packets == [TheOffer(g, a, b, value, f)] && w0.nodes[b] == FRESH_NODE
    ensures At(g, steps, w, a) && At(g, steps, w, b) && |w.packets| == 2
    ensures w.packets[1] == Packet(b, a, SendAck(TheAck(g, a, b, value, f, n1)), false)
    ensures w.nodes[a] == w0.nodes[a]
    ensures var c := AcceptedChannel(a, OfferFor(g.EnvOf(a), value, f));
            w.nodes[b] == FRESH_NODE.(db := map[c.id := c], watchers := [Watcher(c, true)])
  {
    hide Reached, UsableToAck, UsableToClose, OfferFor, FundingDescriptor, ReadyChannel, AckFor;
    steps, w := GoOffer(g, steps0, w0, 0, TheOffer(g, a, b, value, f), n1);
    steps, w := GoInsert(g, steps, w, b);
    steps, w := GoSend(g, steps, w, b);
  }

  /** The opener confirms, stores and watches. */
  lemma ConfirmPhase(g: Net, steps0: seq<Step>, w0: World, a: PeerId, b: PeerId, value: u64, f: FundTx, n1: Nonce, n2: Nonce)
    returns (steps: seq<Step>, w: World)
    requires Scene(g, a, b, value, f, n1, n2) && At(g, steps0, w0, a) && At(g, steps0, w0, b) && |w0.packets| == 2
    requires w0.packets[1] == Packet(b, a, SendAck(TheAck(g, a, b, value, f, n1)), false)
    requires w0.nodes[a] == FRESH_NODE.(db := map[ChannelIdOf(g.h, f) := PendingChannel(g.h, b, value, f)])
    ensures At(g, steps, w, a) && At(g, steps, w, b) && w.nodes[b] == w0.nodes[b]
    ensures var c := ReadyChannel(g, a, b, value, f, n1);
            w.nodes[a] == FRESH_NODE.(db := map[c.id := c], watchers := [Watcher(c, true)])
  {
    hide Reached, UsableToAck, UsableToClose, FundingDescriptor, GoodCommitSig;
    FundedOutput(g.h, f, value, FundingDescriptor(g.EnvOf(a), b, true));
    steps, w := GoAck(g, steps0, w0, 1, w0.packets[1], n1);
    steps, w := GoInsert(g, steps, w, a);
  }

  /** The funding transaction appears on the chain, signed in whatever way, and both watchers see it. */
  lemma FundPhase(g: Net, steps0: seq<Step>, w0: World, a: PeerId, b: PeerId, value: u64, f: FundTx, n1: Nonce, n2: Nonce,
                  tx: Transaction)
    returns (steps: seq<Step>, w: World)
    requires Scene(g, a, b, value, f, n1, n2) && At(g, steps0, w0, a) && At(g, steps0, w0, b)
    requires g.h.txid(tx) == ChannelIdOf(g.h, f).txid
    requires var c := ReadyChannel(g, a, b, value, f, n1);
             w0.nodes[a] == FRESH_NODE.(db := map[c.id := c], watchers := [Watcher(c, true)])
    requires var c := AcceptedChannel(a, OfferFor(g.EnvOf(a), value, f));
             w0.nodes[b] == FRESH_NODE.(db := map[c.id := c], watchers := [Watcher(c, true)])
    ensures At(g, steps, w, a) && At(g, steps, w, b)
    ensures var id := ChannelIdOf(g.h, f);
            && w.nodes[a].job.Idle? && w.nodes[a].db == map[id := LiveChannel(g, a, b, value, f, n1)]
            && id in w.nodes[b].db && w.nodes[b].db[id].state == Funded(tx)
  {
    hide Reached, UsableToAck, UsableToClose, FundingDescriptor, AckFor;
    steps, w := GoMine(g, steps0, w0, tx);
    steps, w := GoFire(g, steps, w, a, ReadyChannel(g, a, b, value, f, n1), tx);
    steps, w := GoFire(g, steps, w, b, AcceptedChannel(a, OfferFor(g.EnvOf(a), value, f)), tx);
  }

  lemma ClosePhase(g: Net, steps0: seq<Step>, w0: World, a: PeerId, b: PeerId, value: u64, f: FundTx, n1: Nonce, n2: Nonce)
    returns (steps: seq<Step>, w: World)
    requires Scene(g, a, b, value, f, n1, n2) && At(g, steps0, w0, a) && At(g, steps0, w0, b)
    requires w0.nodes[a].job.Idle? && w0.nodes[a].db == map[ChannelIdOf(g.h, f) := LiveChannel(g, a, b, value, f, n1)]
    ensures At(g, steps, w, a) && At(g, steps, w, b) && w.nodes[b] == w0.nodes[b]
    ensures var id := ChannelIdOf(g.h, f);
            && id in w.nodes[a].db && w.nodes[a].db[id].state.Closed? && id.vout < |f.psbt.unsigned.outputs|
            && Spends(g.s, g.h, w.nodes[a].db[id].state.closeTx, 0, f.psbt.unsigned.outputs[id.vout])
            && Plain(w.nodes[a].db[id].state.closeTx)
            && (Takes(g.s, g.h, w.nodes[a].db[id].state.closeTx, f.psbt.unsigned.outputs[id.vout]) <==> value >= 1000)
  {
    hide Reached, UsableToAck, UsableToClose, FundingDescriptor, AckFor, CloseLive, Spends, Takes, IsFinal, Plain;
    var id, e := ChannelIdOf(g.h, f), g.EnvOf(a);
    FundedOutput(g.h, f, value, FundingDescriptor(e, b, true));
    steps, w := GoClose(g, steps0, w0, a, id, n2);
    steps, w := GoInsert(g, steps, w, a);
  }

  /** A channel can be opened, funded by any signed form of the funding transaction, and force
      closed: the opener ends with the closing transaction, which spends the funding output by the
      chain's rule for scripts and signatures, and the other node with the funding transaction. The
      chain takes the closing transaction exactly when the value covers the fee. */
  lemma ChannelsCanBeOpenedAndClosed(g: Net, a: PeerId, b: PeerId, value: u64, f: FundTx, n1: Nonce, n2: Nonce,
                                    tx: Transaction)
    returns (steps: seq<Step>, w: World)
    requires Scene(g, a, b, value, f, n1, n2) && g.h.txid(tx) == ChannelIdOf(g.h, f).txid
    ensures Network.Run(g, steps) == Some(w)
    ensures var id := ChannelIdOf(g.h, f);
            && a in w.nodes && id in w.nodes[a].db && b in w.nodes && id in w.nodes[b].db
            && w.nodes[b].db[id].state == Funded(tx)
            && w.nodes[a].db[id].state.Closed?
            && id.vout < |f.psbt.unsigned.outputs|
            && Spends(g.s, g.h, w.nodes[a].db[id].state.closeTx, 0, f.psbt.unsigned.outputs[id.vout])
            && Plain(w.nodes[a].db[id].state.closeTx)
            && (Takes(g.s, g.h, w.nodes[a].db[id].state.closeTx, f.psbt.unsigned.outputs[id.vout]) <==> value >= 1000)
  {
    hide Network.Run, UsableToAck, UsableToClose, AckFor, GoodCommitSig, AllFunds, FundsOk, Spends, Takes, IsFinal, Plain, OfferFor, ReadyChannel, LiveChannel;
    steps, w := OfferPhase(g, a, b, value, f, n1, n2);
    steps, w := AcceptPhase(g, steps, w, a, b, value, f, n1, n2);
    steps, w := ConfirmPhase(g, steps, w, a, b, value, f, n1, n2);
    steps, w := FundPhase(g, steps, w, a, b, value, f, n1, n2, tx);
    steps, w := ClosePhase(g, steps, w, a, b, value, f, n1, n2);
  }
}
