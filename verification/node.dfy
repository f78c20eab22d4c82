/** One node among arbitrary peers: the manager's methods, split where they await the store, and
    the funding watchers, which write the store without the manager's lock. Nothing is assumed
    of the messages it receives or of the freshness of channel ids. */
module Nodes {
  import opened Options
  import opened Crypto
  import opened Bitcoin
  import opened Channels
  import opened ForceClose

  datatype Reply = SendOffer(offer: NewChannel) | SendAck(ack: AckNewChannel) | Silent

  /** What the holder of the manager's lock is doing: nothing, about to insert a channel, or
      sending a message before it lets go of the lock. */
  datatype Job = Idle | Inserting(channel: Channel, reply: Reply) | Replying(to: PeerId, reply: Reply)

  datatype Watcher = Watcher(channel: Channel, live: bool)

  /** `closes` lists the channels whose force close succeeded. */
  datatype Node = Node(db: Db, watchers: seq<Watcher>, job: Job, closes: seq<ChannelId>, panicked: bool)

  const FRESH_NODE := Node(map[], [], Idle, [], false)

  datatype Action =
    | BeginNew(peer: PeerId, value: u64, fundTx: FundTx)
    | BeginOffer(from: PeerId, offer: NewChannel, nonce: Nonce)
    | BeginAck(from: PeerId, ack: AckNewChannel)
    | BeginClose(id: ChannelId, nonce: Nonce)
    | Insert
    | Release
    | Fire(watcher: nat, tx: Transaction)

  ghost predicate FundsOk(n: Node) {
    && (forall id :: id in n.db && n.db[id].state.Pending? ==> HasFundingOutput(n.db[id].state.fundTx))
    && (forall i :: 0 <= i < |n.watchers| && n.watchers[i].channel.state.ReadyToFund? ==>
          HasFundingOutput(n.watchers[i].channel.state.fundTx))
  }

  ghost predicate Enabled(e: Env, n: Node, a: Action, chain: set<Transaction>) {
    && FundsOk(n)
    && match a
       case BeginNew(peer, value, f) => n.job.Idle? && FunderContract(f, value, FundingDescriptor(e, peer, true))
       case BeginOffer(_, _, _) => n.job.Idle?
       case BeginAck(_, _) => n.job.Idle?
       case BeginClose(id, nonce) =>
         n.job.Idle? && (id in n.db && n.db[id].state.Live? ==> UsableToClose(e, n.db[id], nonce))
       case Insert => n.job.Inserting?
       case Release => n.job.Replying?
       case Fire(i, tx) =>
         i < |n.watchers| && n.watchers[i].live && tx in chain && e.h.txid(tx) == n.watchers[i].channel.id.txid
  }

  predicate Watches(c: Channel) {
    c.state.ReadyToFund? || c.state.WaitingForFund?
  }

  ghost function Next(e: Env, n: Node, a: Action, chain: set<Transaction>): Node
    requires Enabled(e, n, a, chain)
  {
    match a
    case BeginNew(peer, value, f) =>
      n.(job := Inserting(PendingChannel(e.h, peer, value, f), SendOffer(OfferFor(e, value, f))))
    case BeginOffer(from, offer, nonce) =>
      n.(job := Inserting(AcceptedChannel(from, offer), SendAck(AckFor(e, from, offer, nonce))))
    case BeginAck(from, ack) =>
      (match Confirm(e, n.db, from, ack)
       case Success(c) => n.(job := Inserting(c, Silent))
       case Failure(_) => n)
    case BeginClose(id, nonce) =>
      if id in n.db && n.db[id].state.Live? then
        var closing := CloseLive(e, n.db[id], nonce);
        if closing.asserted then n.(job := Inserting(n.db[id].(state := Closed(closing.tx)), Silent))
        else n.(panicked := true)
      else n
    case Insert =>
      var c, reply := n.job.channel, n.job.reply;
      n.(db := n.db[c.id := c],
         watchers := n.watchers + (if Watches(c) then [Watcher(c, true)] else []),
         closes := n.closes + (if c.state.Closed? then [c.id] else []),
         job := if reply.Silent? then Idle else Replying(c.peerId, reply))
    case Release => n.(job := Idle)
    case Fire(i, tx) =>
      var c := n.watchers[i].channel;
      var seen := Sight(e, c, tx);
      n.(watchers := n.watchers[i := Watcher(c, false)],
         db := if seen.Store? then n.db[c.id := seen.channel] else n.db,
         panicked := n.panicked || seen.Unreachable?)
  }

  // ---------------------------------------------------------------------------------------
  // Good channels
  // ---------------------------------------------------------------------------------------

  /** The chain has the transaction that `id` points into, and there is `out` at its position. */
  ghost predicate OnChain(e: Env, chain: set<Transaction>, id: ChannelId, out: TxOut) {
    exists tx :: tx in chain && e.h.txid(tx) == id.txid && id.vout < |tx.outputs| && tx.outputs[id.vout] == out
  }

  /** Any transaction of that id has the same output there. */
  lemma OnChainPays(e: Env, chain: set<Transaction>, id: ChannelId, out: TxOut, tx: Transaction)
    requires e.h.Lawful() && OnChain(e, chain, id, out) && e.h.txid(tx) == id.txid
    ensures id.vout < |tx.outputs| && tx.outputs[id.vout] == out
  {
    var tx0 :| tx0 in chain && e.h.txid(tx0) == id.txid && id.vout < |tx0.outputs| && tx0.outputs[id.vout] == out;
    SameOutputs(e.h, tx, tx0);
  }

  /** What every stored or captured channel is worth, by its state. */
  ghost predicate Good(e: Env, chain: set<Transaction>, c: Channel) {
    && c.iAmInitiator == !(c.state.WaitingForFund? || c.state.Funded?)
    && match c.state
       case Pending(f) =>
         FunderContract(f, c.value, FundingDescriptor(e, c.peerId, true)) && c.id == ChannelIdOf(e.h, f)
       case ReadyToFund(f, commit, sig) =>
         && FunderContract(f, c.value, FundingDescriptor(e, c.peerId, true)) && c.id == ChannelIdOf(e.h, f)
         && commit == CommitState(c.value, 0)
         && GoodCommitSig(e, c.id, c.peerId, commit, sig)
       case Live(index, commit, sig) =>
         && index == 0 && commit == CommitState(c.value, 0)
         && GoodCommitSig(e, c.id, c.peerId, commit, sig)
         && OnChain(e, chain, c.id, FundingOut(e, c.peerId, c.value, true))
       case WaitingForFund => true
       case Funded(tx) =>
         && tx in chain && e.h.txid(tx) == c.id.txid && c.id.vout < |tx.outputs|
         && tx.outputs[c.id.vout] == FundingOut(e, c.peerId, c.value, false)
       case Closed(tx) =>
         && OnChain(e, chain, c.id, FundingOut(e, c.peerId, c.value, true))
         && |tx.inputs| == 1 && tx.inputs[0].previousOutput == c.id
         && Spends(e.s, e.h, tx, 0, FundingOut(e, c.peerId, c.value, true))
         && tx.outputs == StateOutputs(e, c.peerId, CommitState(c.value, 0), true)
         && Plain(tx)
         && (Takes(e.s, e.h, tx, FundingOut(e, c.peerId, c.value, true)) <==> c.value >= 1000)
  }

  ghost predicate AllGood(e: Env, n: Node, chain: set<Transaction>) {
    && (forall id :: id in n.db ==> n.db[id].id == id && Good(e, chain, n.db[id]))
    && (forall i :: 0 <= i < |n.watchers| ==> Watches(n.watchers[i].channel) && Good(e, chain, n.watchers[i].channel))
    && (n.job.Inserting? ==> Good(e, chain, n.job.channel))
    && !n.panicked
  }

  lemma GoodGrows(e: Env, chain: set<Transaction>, more: set<Transaction>, c: Channel)
    requires chain <= more && Good(e, chain, c)
    ensures Good(e, more, c)
  {
  }

  lemma AllGoodGrows(e: Env, n: Node, chain: set<Transaction>, more: set<Transaction>)
    requires chain <= more && AllGood(e, n, chain)
    ensures AllGood(e, n, more)
  {
    forall id | id in n.db
      ensures n.db[id].id == id && Good(e, more, n.db[id])
    {
      GoodGrows(e, chain, more, n.db[id]);
    }
    forall i | 0 <= i < |n.watchers|
      ensures Watches(n.watchers[i].channel) && Good(e, more, n.watchers[i].channel)
    {
      GoodGrows(e, chain, more, n.watchers[i].channel);
    }
    if n.job.Inserting? {
      GoodGrows(e, chain, more, n.job.channel);
    }
  }

  lemma GoodFunds(e: Env, n: Node, chain: set<Transaction>)
    requires AllGood(e, n, chain)
    ensures FundsOk(n)
  {
    assert forall id :: id in n.db ==> Good(e, chain, n.db[id]);
  }

  lemma PendingIsGood(e: Env, chain: set<Transaction>, peer: PeerId, value: u64, f: FundTx)
    requires FunderContract(f, value, FundingDescriptor(e, peer, true))
    ensures Good(e, chain, PendingChannel(e.h, peer, value, f))
  {
  }

  lemma ConfirmedIsGood(e: Env, chain: set<Transaction>, n: Node, from: PeerId, ack: AckNewChannel)
    requires AllGood(e, n, chain) && FundsOk(n) && Confirm(e, n.db, from, ack).Success?
    ensures Good(e, chain, Confirm(e, n.db, from, ack).value)
  {
    var c := n.db[ack.id];
    assert Good(e, chain, c);
    FundedOutput(e.h, c.state.fundTx, c.value, FundingDescriptor(e, c.peerId, true));
  }

  lemma ClosedIsGood(e: Env, chain: set<Transaction>, c: Channel, nonce: Nonce)
    requires e.Lawful() && Good(e, chain, c) && c.state.Live? && UsableToClose(e, c, nonce)
    ensures var closing := CloseLive(e, c, nonce);
            closing.asserted && closing.satisfied && Good(e, chain, c.(state := Closed(closing.tx)))
  {
    hide CloseLive, Spends, Takes, IsFinal, Plain, StateOutputs, FundingDescriptor, GoodCommitSig, UsableToClose;
    CloseSpends(e, c, nonce);
  }

  lemma SightingIsGood(e: Env, chain: set<Transaction>, c: Channel, tx: Transaction)
    requires e.Lawful() && Good(e, chain, c) && Watches(c) && tx in chain && e.h.txid(tx) == c.id.txid
    ensures var seen := Sight(e, c, tx);
            && !seen.Unreachable?
            && (seen.Store? ==> seen.channel.id == c.id && Good(e, chain, seen.channel))
            && (c.state.ReadyToFund? ==> seen.Store?)
  {
    if c.state.ReadyToFund? {
      FundingMatches(e.h, c.state.fundTx, tx);
      FundedOutput(e.h, c.state.fundTx, c.value, FundingDescriptor(e, c.peerId, true));
      assert tx.outputs[c.id.vout] == FundingOut(e, c.peerId, c.value, true);
    }
  }

  /** A watcher of an accepted channel records the funding exactly when the transaction has, at the
      channel's position, an output of the channel's value to the descriptor both must sign for; and
      it never panics. */
  lemma FundedExactlyWhen(e: Env, c: Channel, tx: Transaction)
    requires c.state.WaitingForFund?
    ensures Sight(e, c, tx) == Store(c.(state := Funded(tx))) <==>
              c.id.vout < |tx.outputs| && tx.outputs[c.id.vout] == FundingOut(e, c.peerId, c.value, false)
    ensures Sight(e, c, tx) == Nothing <==>
              !(c.id.vout < |tx.outputs| && tx.outputs[c.id.vout] == FundingOut(e, c.peerId, c.value, false))
  {
    hide FundingDescriptor;
  }

  lemma GoodStep(e: Env, n: Node, a: Action, chain: set<Transaction>)
    requires e.Lawful() && AllGood(e, n, chain) && Enabled(e, n, a, chain)
    ensures AllGood(e, Next(e, n, a, chain), chain)
  {
    match a {
      case BeginNew(peer, value, f) => PendingIsGood(e, chain, peer, value, f);
      case BeginAck(from, ack) =>
        if Confirm(e, n.db, from, ack).Success? {
          ConfirmedIsGood(e, chain, n, from, ack);
        }
      case BeginClose(id, nonce) =>
        if id in n.db && n.db[id].state.Live? {
          ClosedIsGood(e, chain, n.db[id], nonce);
        }
      case Fire(i, tx) => SightingIsGood(e, chain, n.watchers[i].channel, tx);
      case _ =>
    }
  }

  // ---------------------------------------------------------------------------------------
  // Runs of one node
  // ---------------------------------------------------------------------------------------

  datatype Solo = Solo(node: Node, chain: set<Transaction>)
  datatype SoloAction = Own(a: Action) | Mine(tx: Transaction)

  /** The state of a node after a run, if each step was enabled in its turn; the chain grows as it
      likes. */
  ghost function Run(e: Env, acts: seq<SoloAction>): Option<Solo> {
    if acts == [] then Some(Solo(FRESH_NODE, {}))
    else
      match Run(e, acts[..|acts| - 1])
      case None => None
      case Some(w) =>
        match acts[|acts| - 1]
        case Mine(tx) => Some(w.(chain := w.chain + {tx}))
        case Own(a) =>
          if Enabled(e, w.node, a, w.chain) then Some(w.(node := Next(e, w.node, a, w.chain))) else None
  }

  /** In every reachable state every channel in the store, captured by a watcher or about to be
      stored is good: in particular the commit signatures of ReadyToFund and Live verify, Live
      indices are 0, Funded transactions pay the channel's value to the joint descriptor, and no
      assertion and no `unreachable!` was ever hit. */
  lemma {:induction false} ChannelsStayGood(e: Env, acts: seq<SoloAction>)
    requires e.Lawful() && Run(e, acts).Some?
    ensures var w := Run(e, acts).value; AllGood(e, w.node, w.chain) && FundsOk(w.node)
  {
    if acts != [] {
      var front, last := acts[..|acts| - 1], acts[|acts| - 1];
      ChannelsStayGood(e, front);
      var w := Run(e, front).value;
      match last {
        case Mine(tx) => AllGoodGrows(e, w.node, w.chain, w.chain + {tx});
        case Own(a) => GoodStep(e, w.node, a, w.chain);
      }
      GoodFunds(e, Run(e, acts).value.node, Run(e, acts).value.chain);
    }
  }

  /** Force close is always valid: from any Live channel of a reachable state, with whatever peers
      and messages, both assertions hold, the descriptor is satisfied, and the closing transaction
      spends the channel's outpoint on the chain as it is, by the chain's rule for scripts and
      signatures. The chain takes it, and it pays out the on-chain value less the fee, exactly when
      that value covers the fee. */
  lemma ForceCloseIsValid(e: Env, acts: seq<SoloAction>, id: ChannelId, nonce: Nonce)
    requires e.Lawful() && Run(e, acts).Some?
    requires var n := Run(e, acts).value.node; id in n.db && n.db[id].state.Live? && UsableToClose(e, n.db[id], nonce)
    ensures var w := Run(e, acts).value;
            var c := w.node.db[id];
            var closing := CloseLive(e, c, nonce);
            && closing.asserted && closing.satisfied
            && |closing.tx.inputs| == 1 && closing.tx.inputs[0].previousOutput == id
            && Plain(closing.tx)
            && (exists tx :: tx in w.chain && e.h.txid(tx) == id.txid)
            && (forall tx :: tx in w.chain && e.h.txid(tx) == id.txid ==>
                  && id.vout < |tx.outputs|
                  && Spends(e.s, e.h, closing.tx, 0, tx.outputs[id.vout])
                  && (Takes(e.s, e.h, closing.tx, tx.outputs[id.vout]) <==> tx.outputs[id.vout].value >= 1000)
                  && (TotalOut(closing.tx.outputs) == tx.outputs[id.vout].value - 1000
                      <==> tx.outputs[id.vout].value >= 1000))
  {
    ChannelsStayGood(e, acts);
    var w := Run(e, acts).value;
    CloseOnChain(e, w.chain, w.node.db[id], nonce);
  }

  lemma CloseOnChain(e: Env, chain: set<Transaction>, c: Channel, nonce: Nonce)
    requires e.Lawful() && Good(e, chain, c) && c.state.Live? && UsableToClose(e, c, nonce)
    ensures var closing := CloseLive(e, c, nonce);
            && closing.asserted && closing.satisfied
            && |closing.tx.inputs| == 1 && closing.tx.inputs[0].previousOutput == c.id
            && Plain(closing.tx)
            && (exists tx :: tx in chain && e.h.txid(tx) == c.id.txid)
            && (forall tx :: tx in chain && e.h.txid(tx) == c.id.txid ==>
                  && c.id.vout < |tx.outputs|
                  && Spends(e.s, e.h, closing.tx, 0, tx.outputs[c.id.vout])
                  && (Takes(e.s, e.h, closing.tx, tx.outputs[c.id.vout]) <==> tx.outputs[c.id.vout].value >= 1000)
                  && (TotalOut(closing.tx.outputs) == tx.outputs[c.id.vout].value - 1000
                      <==> tx.outputs[c.id.vout].value >= 1000))
  {
    hide CloseLive, Spends, Takes, IsFinal, Plain, StateOutputs, TotalOut, FundingDescriptor, GoodCommitSig, UsableToClose;
    CloseSpends(e, c, nonce);
    ClosePays(e, c.peerId, c.value);
    var out := FundingOut(e, c.peerId, c.value, true);
    assert c.state.commit.FundingValue() == c.value;
    forall tx | tx in chain && e.h.txid(tx) == c.id.txid
      ensures c.id.vout < |tx.outputs| && tx.outputs[c.id.vout] == out
    {
      OnChainPays(e, chain, c.id, out, tx);
    }
  }

  lemma ClosePays(e: Env, peer: PeerId, value: u64)
    ensures TotalOut(StateOutputs(e, peer, CommitState(value, 0), true)) == value - 1000 <==> value >= 1000
  {
    ValueConserved(e, peer, CommitState(value, 0), true);
    assert value == 0 ==> StateOutputs(e, peer, CommitState(value, 0), true) == [];
  }
}
