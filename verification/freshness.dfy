/** Why channel ids must be fresh: a node whose funder offers the same funding transaction twice can
    be made to close one channel twice. */
module Freshness {
  import opened Options
  import opened Crypto
  import opened Bitcoin
  import opened Channels
  import opened ForceClose
  import opened Nodes

  lemma RunOn(e: Env, acts: seq<SoloAction>, w: Solo, a: Action) returns (acts': seq<SoloAction>, w': Solo)
    requires e.Lawful() && Run(e, acts) == Some(w) && Enabled(e, w.node, a, w.chain)
    ensures acts' == acts + [Own(a)] && w' == w.(node := Next(e, w.node, a, w.chain)) && Run(e, acts') == Some(w')
    ensures AllGood(e, w'.node, w'.chain) && FundsOk(w'.node)
  {
    acts', w' := acts + [Own(a)], w.(node := Next(e, w.node, a, w.chain));
    assert acts'[..|acts|] == acts;
    ChannelsStayGood(e, acts');
  }

  /** What one negotiation of the channel leaves to be stored and watched. */
  function Ready(h: Hashes, peer: PeerId, value: u64, f: FundTx, ack: AckNewChannel): Channel
    requires HasFundingOutput(f)
  {
    Channel(ChannelIdOf(h, f), ReadyToFund(f, CommitState(value, 0), ack.commitSig), peer, value, true)
  }

  /** The peer can make a good acknowledgement for the channel. */
  ghost predicate CanOpen(e: Env, peer: PeerId, value: u64, f: FundTx, ack: AckNewChannel) {
    && e.Lawful()
    && FunderContract(f, value, FundingDescriptor(e, peer, true))
    && ack.id == ChannelIdOf(e.h, f)
    && GoodCommitSig(e, ack.id, peer, CommitState(value, 0), ack.commitSig)
  }

  /** Negotiating the channel once, whatever is stored under its id. */
  lemma Negotiate(e: Env, acts0: seq<SoloAction>, w0: Solo, peer: PeerId, value: u64, f: FundTx, ack: AckNewChannel)
    returns (acts: seq<SoloAction>, w: Solo)
    requires CanOpen(e, peer, value, f, ack) && Run(e, acts0) == Some(w0) && w0.node.job.Idle?
    ensures Run(e, acts) == Some(w) && w.chain == w0.chain && w.node.job.Idle?
    ensures var c := Ready(e.h, peer, value, f, ack);
            && w.node.db == w0.node.db[c.id := PendingChannel(e.h, peer, value, f)][c.id := c]
            && w.node.watchers == w0.node.watchers + [Watcher(c, true)]
            && w.node.closes == w0.node.closes
  {
    hide AllGood, GoodCommitSig, Run;
    ChannelsStayGood(e, acts0);
    acts, w := RunOn(e, acts0, w0, BeginNew(peer, value, f));
    acts, w := RunOn(e, acts, w, Insert);
    acts, w := RunOn(e, acts, w, Release);
    assert w.node.job.Idle? && w.node.db[ack.id] == PendingChannel(e.h, peer, value, f);
    Confirms(e, w.node.db, peer, value, f, ack);
    acts, w := RunOn(e, acts, w, BeginAck(peer, ack));
    acts, w := RunOn(e, acts, w, Insert);
  }

  lemma Confirms(e: Env, db: Db, peer: PeerId, value: u64, f: FundTx, ack: AckNewChannel)
    requires CanOpen(e, peer, value, f, ack)
    requires forall id :: id in db && db[id].state.Pending? ==> HasFundingOutput(db[id].state.fundTx)
    requires ack.id in db && db[ack.id] == PendingChannel(e.h, peer, value, f)
    ensures Confirm(e, db, peer, ack) == Success(Ready(e.h, peer, value, f, ack))
  {
    FundedOutput(e.h, f, value, FundingDescriptor(e, peer, true));
  }

  /** The channel as its watcher stores it. */
  function Lively(c: Channel): Channel
    requires c.state.ReadyToFund?
  {
    c.(state := Live(0, c.state.commit, c.state.commitSig))
  }

  /** A watcher of the channel fires. */
  lemma Fires(e: Env, acts0: seq<SoloAction>, w0: Solo, i: nat, tx: Transaction) returns (acts: seq<SoloAction>, w: Solo)
    requires e.Lawful() && Run(e, acts0) == Some(w0)
    requires i < |w0.node.watchers| && w0.node.watchers[i].live && w0.node.watchers[i].channel.state.ReadyToFund?
    requires tx in w0.chain && e.h.txid(tx) == w0.node.watchers[i].channel.id.txid
    ensures Run(e, acts) == Some(w) && AllGood(e, w.node, w.chain) && FundsOk(w.node)
    ensures var c := w0.node.watchers[i].channel;
            w == w0.(node := w0.node.(db := w0.node.db[c.id := Lively(c)], watchers := w0.node.watchers[i := Watcher(c, false)]))
  {
    hide GoodCommitSig, Run, Matches;
    var c := w0.node.watchers[i].channel;
    ChannelsStayGood(e, acts0);
    SightingIsGood(e, w0.chain, c, tx);
    acts, w := RunOn(e, acts0, w0, Fire(i, tx));
  }

  /** A watcher of the channel fires and the channel is closed. */
  lemma FireAndClose(e: Env, acts0: seq<SoloAction>, w0: Solo, i: nat, tx: Transaction, nonce: Nonce)
    returns (acts: seq<SoloAction>, w: Solo)
    requires e.Lawful() && Run(e, acts0) == Some(w0) && w0.node.job.Idle?
    requires i < |w0.node.watchers| && w0.node.watchers[i].live && w0.node.watchers[i].channel.state.ReadyToFund?
    requires tx in w0.chain && e.h.txid(tx) == w0.node.watchers[i].channel.id.txid
    requires UsableToClose(e, Lively(w0.node.watchers[i].channel), nonce)
    ensures Run(e, acts) == Some(w) && w.chain == w0.chain && w.node.job.Idle?
    ensures w.node.closes == w0.node.closes + [w0.node.watchers[i].channel.id]
    ensures w.node.watchers == w0.node.watchers[i := Watcher(w0.node.watchers[i].channel, false)]
  {
    hide GoodCommitSig, Run, CloseLive, UsableToClose, Good;
    var c := w0.node.watchers[i].channel;
    acts, w := Fires(e, acts0, w0, i, tx);
    assert w.node.db[c.id] == Lively(c) && Good(e, w.chain, w.node.db[c.id]);
    ClosedIsGood(e, w.chain, w.node.db[c.id], nonce);
    acts, w := RunOn(e, acts, w, BeginClose(c.id, nonce));
    acts, w := RunOn(e, acts, w, Insert);
  }

  /** Without fresh ids a closed channel comes back to life and is closed a second time: the same
      funding transaction is offered twice before it is broadcast, so that two watchers wait for
      it, and the second one overwrites Closed with Live. */
  lemma ClosedTwiceWithoutFreshIds(e: Env, peer: PeerId, value: u64, f: FundTx, ack: AckNewChannel, nonce: Nonce)
    returns (acts: seq<SoloAction>, w: Solo)
    requires CanOpen(e, peer, value, f, ack) && UsableToClose(e, Lively(Ready(e.h, peer, value, f, ack)), nonce)
    ensures Run(e, acts) == Some(w) && w.node.closes == [ack.id, ack.id]
  {
    hide GoodCommitSig, Matches, UsableToClose, Next, Enabled;
    var tx := ExtractTx(f.psbt);
    var start := Solo(FRESH_NODE, {});
    acts, w := Negotiate(e, [], start, peer, value, f, ack);
    acts, w := Negotiate(e, acts, w, peer, value, f, ack);
    var mined := w.(chain := w.chain + {tx});
    assert (acts + [Mine(tx)])[..|acts|] == acts;
    acts, w := acts + [Mine(tx)], mined;
    acts, w := FireAndClose(e, acts, w, 0, tx, nonce);
    acts, w := FireAndClose(e, acts, w, 1, tx, nonce);
  }

  /** An offer is stored whatever the node holds under its id. */
  lemma OfferStored(e: Env, acts0: seq<SoloAction>, w0: Solo, from: PeerId, offer: NewChannel, nonce: Nonce)
    returns (acts: seq<SoloAction>, w: Solo)
    requires e.Lawful() && Run(e, acts0) == Some(w0) && w0.node.job.Idle?
    ensures acts0 <= acts && Run(e, acts) == Some(w) && w.chain == w0.chain && w.node.job.Idle? && FundsOk(w.node)
    ensures w.node.db == w0.node.db[offer.id := AcceptedChannel(from, offer)]
  {
    hide AllGood, Run, AckFor;
    ChannelsStayGood(e, acts0);
    acts, w := RunOn(e, acts0, w0, BeginOffer(from, offer, nonce));
    acts, w := RunOn(e, acts, w, Insert);
    acts, w := RunOn(e, acts, w, Release);
  }

  /** A channel that is not Live cannot be closed. */
  lemma CloseRefused(e: Env, n: Node, id: ChannelId, nonce: Nonce, chain: set<Transaction>)
    requires FundsOk(n) && n.job.Idle? && id in n.db && !n.db[id].state.Live?
    ensures Enabled(e, n, BeginClose(id, nonce), chain) && Next(e, n, BeginClose(id, nonce), chain) == n
  {
  }

  /** Negotiating the channel once makes it Live when its transaction appears. */
  lemma MakesLive(e: Env, peer: PeerId, value: u64, f: FundTx, ack: AckNewChannel) returns (acts: seq<SoloAction>, w: Solo)
    requires CanOpen(e, peer, value, f, ack)
    ensures Run(e, acts) == Some(w) && w.node.job.Idle?
    ensures ack.id in w.node.db && w.node.db[ack.id] == Lively(Ready(e.h, peer, value, f, ack))
  {
    hide GoodCommitSig, AllGood, FundsOk, Next, Enabled;
    var tx, start := ExtractTx(f.psbt), Solo(FRESH_NODE, {});
    acts, w := Negotiate(e, [], start, peer, value, f, ack);
    var mined := w.(chain := w.chain + {tx});
    assert (acts + [Mine(tx)])[..|acts|] == acts;
    acts, w := acts + [Mine(tx)], mined;
    acts, w := Fires(e, acts, w, 0, tx);
  }

  /** Without fresh ids a Live channel is lost: an offer under its id, from whichever peer, replaces it
      by a channel that waits for funding, and the node can no longer close it. */
  lemma LiveReplacedWithoutFreshIds(e: Env, peer: PeerId, value: u64, f: FundTx, ack: AckNewChannel,
                                    from: PeerId, offer: NewChannel, nonce: Nonce)
    returns (before: seq<SoloAction>, v: Solo, acts: seq<SoloAction>, w: Solo)
    requires CanOpen(e, peer, value, f, ack) && offer.id == ack.id
    ensures Run(e, before) == Some(v) && ack.id in v.node.db && v.node.db[ack.id].state.Live?
    ensures before <= acts && Run(e, acts) == Some(w)
    ensures ack.id in w.node.db && w.node.db[ack.id] == AcceptedChannel(from, offer)
    ensures forall n :: Enabled(e, w.node, BeginClose(ack.id, n), w.chain)
                        && Next(e, w.node, BeginClose(ack.id, n), w.chain) == w.node
  {
    hide Run, GoodCommitSig, AllGood, FundsOk, Next, Enabled, FunderContract, HasFundingOutput;
    before, v := MakesLive(e, peer, value, f, ack);
    acts, w := OfferStored(e, before, v, from, offer, nonce);
    forall n
      ensures Enabled(e, w.node, BeginClose(ack.id, n), w.chain) && Next(e, w.node, BeginClose(ack.id, n), w.chain) == w.node
    {
      CloseRefused(e, w.node, ack.id, n, w.chain);
    }
  }
}
