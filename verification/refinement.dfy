/** The steps into which a node splits its methods come, with nothing in between, to what the
    manager object does in one go. */
module Refinement {
  import opened Options
  import opened Crypto
  import opened Bitcoin
  import opened Channels
  import opened ForceClose
  import opened Nodes
  import Manager

  function BooksOf(n: Node): Manager.Books {
    Manager.Books(n.db, seq(|n.watchers|, i requires 0 <= i < |n.watchers| => n.watchers[i].channel))
  }

  /** The action that takes up a message. */
  function Begins(m: Manager.Envelope): Action {
    match m.message
    case Offer(offer) => BeginOffer(m.from, offer, m.nonce)
    case Ack(ack) => BeginAck(m.from, ack)
  }

  /** The lock holder's remaining steps, without a watcher in between, and the message it sends
      before it lets go of the lock. */
  ghost function Finish(e: Env, n: Node, chain: set<Transaction>): (Node, Reply)
    requires FundsOk(n)
  {
    match n.job
    case Idle => (n, Silent)
    case Replying(_, reply) => (n.(job := Idle), reply)
    case Inserting(_, reply) =>
      var stored := Next(e, n, Insert, chain);
      (stored.(job := Idle), reply)
  }

  lemma BooksAfterInsert(e: Env, n: Node, chain: set<Transaction>)
    requires FundsOk(n) && n.job.Inserting? && Watches(n.job.channel)
    ensures BooksOf(Next(e, n, Insert, chain)) == Manager.StoreAndWatch(BooksOf(n), n.job.channel)
  {
    var c := n.job.channel;
    assert Next(e, n, Insert, chain).watchers == n.watchers + [Watcher(c, true)];
  }

  /** Taking up a message and running to the end of it stores, watches and answers exactly what
      the message handler does. */
  lemma MessageInSteps(e: Env, n: Node, m: Manager.Envelope, chain: set<Transaction>)
    requires FundsOk(n) && n.job.Idle?
    ensures Manager.FundsOk(BooksOf(n).db) && Enabled(e, n, Begins(m), chain)
    ensures var begun := Next(e, n, Begins(m), chain);
            var (books, ack) := Manager.Dispatch(e, BooksOf(n), m);
            && FundsOk(begun)
            && var (done, reply) := Finish(e, begun, chain);
               && BooksOf(done) == books
               && reply == (if ack.Some? then SendAck(ack.value) else Silent)
               && done.job.Idle? && done.closes == n.closes && FundsOk(done)
  {
    hide AckFor, Confirm;
    ConfirmWatches(e, n, m);
    var begun := Next(e, n, Begins(m), chain);
    FundsAfterFinish(e, begun, chain);
    if begun.job.Inserting? {
      BooksAfterInsert(e, begun, chain);
      assert BooksOf(begun) == BooksOf(n);
    }
  }

  /** One message taken up and run to its end by an idle node, and what it answers. */
  ghost predicate ServesOne(e: Env, n: Node, m: Manager.Envelope, n': Node, reply: Reply, chain: set<Transaction>) {
    && FundsOk(n) && n.job.Idle? && Enabled(e, n, Begins(m), chain)
    && var begun := Next(e, n, Begins(m), chain);
       FundsOk(begun) && (n', reply) == Finish(e, begun, chain)
  }

  /** A queue of messages served one after another. */
  ghost predicate ServesInTurn(e: Env, nodes: seq<Node>, queue: seq<Manager.Envelope>, replies: seq<Reply>, chain: set<Transaction>) {
    && |nodes| == |queue| + 1 && |replies| == |queue|
    && forall i :: 0 <= i < |queue| ==> ServesOne(e, nodes[i], queue[i], nodes[i + 1], replies[i], chain)
  }

  /** The acknowledgements among the replies, in order. */
  function AcksAmong(replies: seq<Reply>): seq<AckNewChannel> {
    if replies == [] then []
    else
      var last := replies[|replies| - 1];
      AcksAmong(replies[..|replies| - 1]) + (if last.SendAck? then [last.ack] else [])
  }

  /** Serving a whole queue message by message, from an idle node, stores, watches and answers what the
      message loop does: the acknowledgements sent are exactly the loop's, in order. */
  lemma {:induction false} QueueInSteps(e: Env, nodes: seq<Node>, queue: seq<Manager.Envelope>, replies: seq<Reply>,
                                        chain: set<Transaction>)
    requires ServesInTurn(e, nodes, queue, replies, chain) && FundsOk(nodes[0])
    ensures FundsOk(nodes[|queue|]) && Manager.FundsOk(BooksOf(nodes[0]).db)
    ensures var (books, acks) := Manager.DispatchAll(e, BooksOf(nodes[0]), queue);
            BooksOf(nodes[|queue|]) == books && AcksAmong(replies) == acks
  {
    hide BooksOf, Finish, Next, Enabled, Manager.Dispatch;
    if queue == [] {
      FundsOfBooks(nodes[0]);
    } else {
      var k := |queue| - 1;
      assert ServesOne(e, nodes[k], queue[k], nodes[k + 1], replies[k], chain);
      var front := queue[..k];
      forall i | 0 <= i < k
        ensures ServesOne(e, nodes[..k + 1][i], front[i], nodes[..k + 1][i + 1], replies[..k][i], chain)
      {
        assert ServesOne(e, nodes[i], queue[i], nodes[i + 1], replies[i], chain);
      }
      QueueInSteps(e, nodes[..k + 1], front, replies[..k], chain);
      MessageInSteps(e, nodes[k], queue[k], chain);
    }
  }

  /** Every queue can be served so. */
  lemma {:induction false} QueueIsServed(e: Env, n: Node, queue: seq<Manager.Envelope>, chain: set<Transaction>)
    returns (nodes: seq<Node>, replies: seq<Reply>)
    requires FundsOk(n) && n.job.Idle?
    ensures ServesInTurn(e, nodes, queue, replies, chain) && nodes[0] == n
    ensures FundsOk(nodes[|queue|]) && nodes[|queue|].job.Idle?
  {
    hide Finish, Next, Enabled, Manager.Dispatch, BooksOf;
    if queue == [] {
      nodes, replies := [n], [];
    } else {
      var k := |queue| - 1;
      var front, answers := QueueIsServed(e, n, queue[..k], chain);
      MessageInSteps(e, front[k], queue[k], chain);
      var (done, reply) := Finish(e, Next(e, front[k], Begins(queue[k]), chain), chain);
      nodes, replies := front + [done], answers + [reply];
      forall i | 0 <= i < |queue|
        ensures ServesOne(e, nodes[i], queue[i], nodes[i + 1], replies[i], chain)
      {
        assert i < k ==> ServesOne(e, front[i], queue[..k][i], front[i + 1], answers[i], chain);
      }
    }
  }

  lemma FundsOfBooks(n: Node)
    requires FundsOk(n)
    ensures Manager.FundsOk(BooksOf(n).db)
  {
  }

  lemma FundsAfterFinish(e: Env, n: Node, chain: set<Transaction>)
    requires FundsOk(n)
    ensures n.job.Idle? || n.job.Replying? ==> FundsOk(Finish(e, n, chain).0)
    ensures n.job.Inserting? && !n.job.channel.state.Pending?
            && (n.job.channel.state.ReadyToFund? ==> HasFundingOutput(n.job.channel.state.fundTx))
            ==> FundsOk(Finish(e, n, chain).0)
  {
  }

  lemma ConfirmWatches(e: Env, n: Node, m: Manager.Envelope)
    requires FundsOk(n)
    ensures m.message.Ack? && Confirm(e, n.db, m.from, m.message.ack).Success? ==>
              var c := Confirm(e, n.db, m.from, m.message.ack).value;
              c.state.ReadyToFund? && HasFundingOutput(c.state.fundTx)
  {
  }

  /** Opening a channel in steps stores and offers what the method stores and offers, and watches
      nothing. */
  lemma NewInSteps(e: Env, n: Node, peer: PeerId, value: u64, f: FundTx, chain: set<Transaction>)
    requires FundsOk(n) && n.job.Idle? && FunderContract(f, value, FundingDescriptor(e, peer, true))
    ensures Enabled(e, n, BeginNew(peer, value, f), chain)
    ensures var begun := Next(e, n, BeginNew(peer, value, f), chain);
            && FundsOk(begun)
            && var (done, reply) := Finish(e, begun, chain);
               && BooksOf(done) == Manager.Books(n.db[ChannelIdOf(e.h, f) := PendingChannel(e.h, peer, value, f)], BooksOf(n).watched)
               && reply == SendOffer(OfferFor(e, value, f))
               && done.job.Idle? && done.closes == n.closes
  {
    hide FundingDescriptor, OfferFor;
  }

  /** A watcher that fires writes to the store, or panics, as the watcher's body does with the channel
      it holds; the lock holder's work goes on untouched. */
  lemma WatchInSteps(e: Env, n: Node, i: nat, tx: Transaction, chain: set<Transaction>)
    requires Enabled(e, n, Fire(i, tx), chain) && !n.panicked
    ensures var c := n.watchers[i].channel;
            var seen := Sight(e, c, tx);
            var fired := Next(e, n, Fire(i, tx), chain);
            && BooksOf(fired) == Manager.Books(if seen.Store? then n.db[c.id := seen.channel] else n.db, BooksOf(n).watched)
            && fired.panicked == seen.Unreachable?
            && fired.job == n.job && fired.closes == n.closes
            && !fired.watchers[i].live
            && forall j :: 0 <= j < |n.watchers| && j != i ==> fired.watchers[j] == n.watchers[j]
  {
    hide Sight, FundsOk;
  }

  /** A force close in steps leaves in the store what the method leaves there, and fails where it
      fails. */
  lemma CloseInSteps(e: Env, n: Node, id: ChannelId, nonce: Nonce, chain: set<Transaction>)
    requires FundsOk(n) && n.job.Idle? && Enabled(e, n, BeginClose(id, nonce), chain)
    requires id in n.db ==> n.db[id].id == id
    ensures var begun := Next(e, n, BeginClose(id, nonce), chain);
            && FundsOk(begun)
            && var (done, reply) := Finish(e, begun, chain);
               && reply.Silent? && done.job.Idle? && done.watchers == n.watchers
               && (if id in n.db && n.db[id].state.Live? then
                     var closing := CloseLive(e, n.db[id], nonce);
                     if closing.asserted then
                       done.db == n.db[id := n.db[id].(state := Closed(closing.tx))] && done.closes == n.closes + [id]
                     else done.panicked && done.db == n.db && done.closes == n.closes
                   else done == n)
  {
    hide CloseLive, UsableToClose;
  }
}
