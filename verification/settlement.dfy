/** What becomes of every channel of a network in the end: no channel is ever forgotten. Once nothing
    is left to do, a channel is confirmed by both parties and as funded as the chain shows, or one of
    its two messages was lost, and then neither party counts on it. */
module Settlement {
  import opened Options
  import opened Crypto
  import opened Bitcoin
  import opened Channels
  import opened ForceClose
  import opened Nodes
  import opened Network
  import opened Stories
  import opened Agreement
  import Progress
  import Projection

  // ---------------------------------------------------------------------------------------
  // Where a channel is
  // ---------------------------------------------------------------------------------------

  /** A node is at work on the channel, or a message about it is on its way. */
  ghost predicate Alive(w: World, id: ChannelId) {
    || (exists p :: p in w.nodes && JobAbout(w.nodes[p].job, id))
    || (exists k :: 0 <= k < |w.packets| && PacketAbout(w.packets[k], id))
  }

  predicate ConfirmedAt(n: Node, id: ChannelId) {
    id in n.db && Agreement.Confirmed(n.db[id])
  }

  ghost predicate IsConfirmed(w: World, id: ChannelId) {
    exists p :: p in w.nodes && ConfirmedAt(w.nodes[p], id)
  }

  /** The channel whose message a step loses: sending it fails, or the network drops it. */
  function LostBy(w: World, x: Step): set<ChannelId> {
    match x
    case SendFailed(p) =>
      if p in w.nodes && w.nodes[p].job.Replying? && !w.nodes[p].job.reply.Silent?
      then {IdOfReply(w.nodes[p].job.reply)} else {}
    case Lose(k) =>
      if k < |w.packets| && !w.packets[k].gone && !w.packets[k].reply.Silent?
      then {IdOfReply(w.packets[k].reply)} else {}
    case _ => {}
  }

  /** The channels one of whose messages the run lost. */
  ghost function LostIn(g: Net, steps: seq<Step>): set<ChannelId>
    requires Network.Run(g, steps).Some?
  {
    if steps == [] then {}
    else
      var front, x := steps[..|steps| - 1], steps[|steps| - 1];
      LostIn(g, front) + LostBy(Network.Run(g, front).value, x)
  }

  /** Every channel is alive, confirmed or lost, and a lost one is neither of the others. */
  ghost predicate Accounted(w: World, lost: set<ChannelId>) {
    && (forall id :: id in w.used ==> Alive(w, id) || IsConfirmed(w, id) || id in lost)
    && (forall id :: id in lost ==> id in w.used && !Alive(w, id) && !IsConfirmed(w, id))
  }

  // ---------------------------------------------------------------------------------------
  // How a step moves a channel
  // ---------------------------------------------------------------------------------------

  ghost predicate Moves(w: World, w': World, id: ChannelId, lost: bool) {
    && (id in w.used ==> id in w'.used)
    && (id in w'.used && id !in w.used ==> Alive(w', id))
    && (Alive(w, id) ==> Alive(w', id) || IsConfirmed(w', id) || lost)
    && (IsConfirmed(w, id) ==> IsConfirmed(w', id))
    && (IsConfirmed(w', id) ==> IsConfirmed(w, id) || Alive(w, id))
    && (Alive(w', id) ==> Alive(w, id) || IsConfirmed(w, id) || id !in w.used)
    && (lost ==> id in w.used && !Alive(w', id) && !IsConfirmed(w', id))
  }

  lemma AccountedStep(w: World, w': World, lost: set<ChannelId>, more: set<ChannelId>)
    requires Accounted(w, lost) && forall id :: Moves(w, w', id, id in more)
    ensures Accounted(w', lost + more)
  {
    hide Alive, IsConfirmed;
    forall id | id in w'.used
      ensures Alive(w', id) || IsConfirmed(w', id) || id in lost + more
    {
      assert Moves(w, w', id, id in more);
    }
    forall id | id in lost + more
      ensures id in w'.used && !Alive(w', id) && !IsConfirmed(w', id)
    {
      assert Moves(w, w', id, id in more);
    }
  }

  /** What a node's action does to the channels that the node has confirmed. */
  lemma NodeConfirms(e: Env, n: Node, a: Action, chain: set<Transaction>, id: ChannelId)
    requires Progress.Orderly(n) && Progress.TidyInsert(n) && Enabled(e, n, a, chain)
    ensures var n' := Next(e, n, a, chain);
            && (ConfirmedAt(n, id) ==> ConfirmedAt(n', id))
            && (ConfirmedAt(n', id) ==> ConfirmedAt(n, id) || JobAbout(n.job, id))
  {
    hide FundsOk, Next, Progress.TidyInsert, Progress.OneWatcherEach, Progress.JobHolds, Progress.ClosesHold;
    Progress.OrderlyStep(e, n, a, chain);
    var n' := Next(e, n, a, chain);
    if id in n.db {
      assert Progress.MovesOn(n.db[id], n'.db[id]);
    }
    match a {
      case Insert => StoredByInsert(e, n, chain);
      case Fire(i, tx) => StoredByFire(e, n, i, tx, chain);
      case _ => Progress.StoresUntouched(e, n, a, chain);
    }
  }

  lemma StoredByInsert(e: Env, n: Node, chain: set<Transaction>)
    requires Enabled(e, n, Insert, chain)
    ensures Next(e, n, Insert, chain).db == n.db[n.job.channel.id := n.job.channel]
  {
    hide FundsOk;
  }

  /** A watcher confirms nothing that was not confirmed. */
  lemma StoredByFire(e: Env, n: Node, i: nat, tx: Transaction, chain: set<Transaction>)
    requires Progress.WatchersHold(n.db, n.watchers) && Enabled(e, n, Fire(i, tx), chain)
    ensures var c, db' := n.watchers[i].channel, Next(e, n, Fire(i, tx), chain).db;
            && c.id in n.db && c == n.db[c.id]
            && (db' == n.db || (c.id in db' && db' == n.db[c.id := db'[c.id]] && (Agreement.Confirmed(db'[c.id]) ==> Agreement.Confirmed(c))))
  {
    hide FundsOk, Matches, FundingDescriptor;
    assert Watches(n.watchers[i].channel);
  }

  lemma ConfirmedWhere(w: World, w': World, p: PeerId, n': Node, id: ChannelId)
    requires NodeBecame(w, w', p, n')
    requires ConfirmedAt(w.nodes[p], id) ==> ConfirmedAt(n', id)
    requires ConfirmedAt(n', id) ==> ConfirmedAt(w.nodes[p], id) || JobAbout(w.nodes[p].job, id)
    ensures IsConfirmed(w, id) ==> IsConfirmed(w', id)
    ensures IsConfirmed(w', id) ==> IsConfirmed(w, id) || Alive(w, id)
    ensures ConfirmedAt(n', id) ==> IsConfirmed(w', id)
    ensures ConfirmedAt(w.nodes[p], id) ==> IsConfirmed(w, id)
  {
    hide ConfirmedAt, JobAbout, PacketAbout;
    if IsConfirmed(w, id) {
      var q :| q in w.nodes && ConfirmedAt(w.nodes[q], id);
      assert q in w'.nodes && ConfirmedAt(w'.nodes[q], id);
    }
    if IsConfirmed(w', id) {
      var q :| q in w'.nodes && ConfirmedAt(w'.nodes[q], id);
      assert q in w.nodes && (q != p ==> ConfirmedAt(w.nodes[q], id));
    }
    if ConfirmedAt(n', id) {
      assert p in w'.nodes && ConfirmedAt(w'.nodes[p], id);
    }
  }

  /** Who is at work after node `p` changed and the packets changed as they did. */
  lemma AliveWhere(w: World, w': World, p: PeerId, n': Node, id: ChannelId)
    requires NodeBecame(w, w', p, n')
    requires |w.packets| <= |w'.packets|
    requires forall k :: 0 <= k < |w.packets| && PacketAbout(w.packets[k], id) ==>
               PacketAbout(w'.packets[k], id) || JobAbout(n'.job, id)
    requires forall k :: 0 <= k < |w'.packets| && PacketAbout(w'.packets[k], id) ==>
               (k < |w.packets| && PacketAbout(w.packets[k], id)) || JobAbout(w.nodes[p].job, id)
    ensures Alive(w', id) ==> Alive(w, id) || JobAbout(n'.job, id)
    ensures Alive(w, id) ==> Alive(w', id) || JobAbout(w.nodes[p].job, id)
    ensures JobAbout(n'.job, id) ==> Alive(w', id)
    ensures JobAbout(w.nodes[p].job, id) ==> Alive(w, id)
  {
    hide JobAbout, PacketAbout;
    assert p in w'.nodes && w'.nodes[p] == n';
    if q :| q in w.nodes && JobAbout(w.nodes[q].job, id) {
      assert q in w'.nodes && (q != p ==> JobAbout(w'.nodes[q].job, id));
    }
    if q :| q in w'.nodes && JobAbout(w'.nodes[q].job, id) {
      assert q in w.nodes && (q != p ==> JobAbout(w.nodes[q].job, id));
    }
  }

  /** Steps of a node that leave the network alone. */
  lemma MovesAlone(g: Net, w: World, w': World, p: PeerId, a: Action, id: ChannelId)
    requires NodeCan(g, w, p, a) && Progress.Orderly(w.nodes[p]) && Progress.TidyInsert(w.nodes[p])
    requires NodeBecame(w, w', p, Next(g.EnvOf(p), w.nodes[p], a, w.chain)) && w'.packets == w.packets
    requires id in w.used ==> id in w'.used
    requires var n, n' := w.nodes[p], Next(g.EnvOf(p), w.nodes[p], a, w.chain);
             && (JobAbout(n.job, id) ==> JobAbout(n'.job, id) || ConfirmedAt(n', id))
             && (JobAbout(n'.job, id) ==> JobAbout(n.job, id) || ConfirmedAt(n, id) || id !in w.used)
             && (id in w'.used && id !in w.used ==> JobAbout(n'.job, id))
    ensures Moves(w, w', id, false)
  {
    hide Alive, IsConfirmed, Next, Enabled, JobAbout, ConfirmedAt, PacketAbout, Progress.Orderly, Progress.TidyInsert;
    var n' := Next(g.EnvOf(p), w.nodes[p], a, w.chain);
    NodeConfirms(g.EnvOf(p), w.nodes[p], a, w.chain, id);
    ConfirmedWhere(w, w', p, n', id);
    AliveWhere(w, w', p, n', id);
  }

  lemma JobOfNew(e: Env, n: Node, peer: PeerId, value: u64, f: FundTx, chain: set<Transaction>, id: ChannelId)
    requires Enabled(e, n, BeginNew(peer, value, f), chain)
    ensures !JobAbout(n.job, id)
    ensures JobAbout(Next(e, n, BeginNew(peer, value, f), chain).job, id) <==> id == ChannelIdOf(e.h, f)
  {
    hide FundsOk, OfferFor, ChannelIdOf, FundingDescriptor;
  }

  /** Storing leaves the node at work on the channel, or with the channel confirmed. */
  lemma JobOfInsert(e: Env, book: Book, p: PeerId, n: Node, chain: set<Transaction>, id: ChannelId)
    requires Enabled(e, n, Insert, chain) && JobOk(book, p, n)
    ensures var n' := Next(e, n, Insert, chain);
            && (JobAbout(n.job, id) ==> JobAbout(n'.job, id) || ConfirmedAt(n', id))
            && (JobAbout(n'.job, id) ==> JobAbout(n.job, id))
  {
    hide FundsOk;
  }

  lemma JobOfClose(e: Env, n: Node, cid: ChannelId, nonce: Nonce, chain: set<Transaction>, id: ChannelId)
    requires Enabled(e, n, BeginClose(cid, nonce), chain) && forall c :: c in n.db ==> n.db[c].id == c
    ensures !JobAbout(n.job, id)
    ensures JobAbout(Next(e, n, BeginClose(cid, nonce), chain).job, id) ==> ConfirmedAt(n, id)
  {
    hide FundsOk, CloseLive, UsableToClose;
  }

  lemma JobOfFire(e: Env, n: Node, i: nat, tx: Transaction, chain: set<Transaction>)
    requires Enabled(e, n, Fire(i, tx), chain)
    ensures Next(e, n, Fire(i, tx), chain).job == n.job
  {
    hide FundsOk, Sight;
  }

  /** A step whose acting node is in order, in a sound state. */
  ghost predicate Ready(g: Net, w: World, book: Book, x: Step) {
    && g.Lawful() && Sound(g, w, book) && Possible(g, w, x)
    && forall p :: p in w.nodes ==> Progress.Orderly(w.nodes[p]) && Progress.TidyInsert(w.nodes[p])
  }

  lemma MovesLocally(g: Net, w: World, book: Book, x: Step, id: ChannelId)
    requires Ready(g, w, book, x) && (x.New? || x.Close? || x.InsertAt? || x.FireAt?)
    ensures Moves(w, After(g, w, x), id, false)
  {
    hide Moves, Next, Enabled, Progress.TidyInsert, Good, MessagesWorth, NodesGood, ConfirmedAt, JobAbout, JobOk;
    var w' := After(g, w, x);
    match x {
      case New(p, peer, value, f) =>
        JobOfNew(g.EnvOf(p), w.nodes[p], peer, value, f, w.chain, id);
        MovesAlone(g, w, w', p, BeginNew(peer, value, f), id);
      case Close(p, cid, nonce) =>
        JobOfClose(g.EnvOf(p), w.nodes[p], cid, nonce, w.chain, id);
        MovesAlone(g, w, w', p, BeginClose(cid, nonce), id);
      case InsertAt(p) =>
        NodeAt(w, book, p);
        JobOfInsert(g.EnvOf(p), book, p, w.nodes[p], w.chain, id);
        MovesAlone(g, w, w', p, Insert, id);
      case FireAt(p, i, tx) =>
        JobOfFire(g.EnvOf(p), w.nodes[p], i, tx, w.chain);
        MovesAlone(g, w, w', p, Fire(i, tx), id);
    }
  }

  /** Nobody has confirmed a channel before its story says so. */
  lemma NotYetConfirmed(w: World, book: Book, id: ChannelId)
    requires AllNodesOk(w.nodes, book) && id in book && !book[id].stage.Confirmed?
    ensures !IsConfirmed(w, id)
  {
    hide JobOk, WatchersOk;
    if p :| p in w.nodes && ConfirmedAt(w.nodes[p], id) {
      StoredFacts(w, book, p, id);
    }
  }

  /** A node sends, or fails to send, what it holds ready. */
  lemma MovesSend(g: Net, w: World, book: Book, p: PeerId, lost: bool, id: ChannelId)
    requires Ready(g, w, book, if lost then SendFailed(p) else Sent(p))
    ensures var x := if lost then SendFailed(p) else Sent(p); Moves(w, After(g, w, x), id, id in LostBy(w, x))
  {
    hide NodesGood, MessagesWorth, AllNodesOk, AllPresent, PacketsOk, JobOk, Progress.Orderly, Progress.TidyInsert, FundsOk;
    var x := if lost then SendFailed(p) else Sent(p);
    var w' := After(g, w, x);
    var d := SendFacts(w, book, p);
    NotYetConfirmed(w, book, d);
    ReplyIsAbout(w.nodes[p].job, id);
    SentConfirms(w, w', p, id);
    if lost {
      if id != d {
        AliveWhere(w, w', p, w.nodes[p].(job := Idle), id);
      }
    } else {
      PacketAppended(w, w', p, id);
    }
  }

  lemma ReplyIsAbout(job: Job, id: ChannelId)
    requires job.Replying? && !job.reply.Silent?
    ensures JobAbout(job, id) <==> id == IdOfReply(job.reply)
  {
  }

  lemma SentConfirms(w: World, w': World, p: PeerId, id: ChannelId)
    requires p in w.nodes && NodeBecame(w, w', p, w.nodes[p].(job := Idle))
    ensures IsConfirmed(w', id) <==> IsConfirmed(w, id)
  {
    if q :| q in w'.nodes && ConfirmedAt(w'.nodes[q], id) {
      assert ConfirmedAt(w.nodes[q], id);
    }
    if q :| q in w.nodes && ConfirmedAt(w.nodes[q], id) {
      assert ConfirmedAt(w'.nodes[q], id);
    }
  }

  lemma PacketAppended(w: World, w': World, p: PeerId, id: ChannelId)
    requires p in w.nodes && w.nodes[p].job.Replying? && !w.nodes[p].job.reply.Silent?
    requires NodeBecame(w, w', p, w.nodes[p].(job := Idle))
    requires w'.packets == w.packets + [Packet(p, w.nodes[p].job.to, w.nodes[p].job.reply, false)]
    ensures Alive(w', id) <==> Alive(w, id)
  {
    var job, last := w.nodes[p].job, |w.packets|;
    assert PacketAbout(w'.packets[last], id) <==> JobAbout(job, id);
    if q :| q in w.nodes && JobAbout(w.nodes[q].job, id) {
      assert q in w'.nodes && (q != p ==> JobAbout(w'.nodes[q].job, id));
    }
    if q :| q in w'.nodes && JobAbout(w'.nodes[q].job, id) {
      assert q in w.nodes && JobAbout(w.nodes[q].job, id);
    }
    if k :| 0 <= k < |w.packets| && PacketAbout(w.packets[k], id) {
      assert PacketAbout(w'.packets[k], id);
    }
    if k :| 0 <= k < |w'.packets| && PacketAbout(w'.packets[k], id) {
      assert k < |w.packets| ==> PacketAbout(w.packets[k], id);
    }
  }

  lemma MovesDeliver(g: Net, w: World, book: Book, k: nat, nonce: Nonce, id: ChannelId)
    requires Ready(g, w, book, Deliver(k, nonce))
    ensures Moves(w, After(g, w, Deliver(k, nonce)), id, false)
  {
    hide NodesGood, MessagesWorth, AllNodesOk, AllPresent, PacketsOk, JobOk, Progress.Orderly, Progress.TidyInsert,
         Next, Enabled, JobAbout, Confirm, ConfirmedAt, UsableToAck;
    var w', m := After(g, w, Deliver(k, nonce)), w.packets[k];
    var n, n', d := w.nodes[m.to], Receiver(g, w, k, nonce), IdOfReply(w.packets[k].reply);
    Taken(g, w, book, k, nonce, id);
    NodeConfirms(g.EnvOf(m.to), n, Receive(m, nonce), w.chain, id);
    ConfirmedWhere(w, w', m.to, n', id);
    AliveWhere(w, w', m.to, n', id);
  }

  /** The receiver of a packet takes up the channel that the packet is about. */
  lemma Taken(g: Net, w: World, book: Book, k: nat, nonce: Nonce, id: ChannelId)
    requires g.Lawful() && Sound(g, w, book) && Possible(g, w, Deliver(k, nonce))
    ensures !JobAbout(w.nodes[w.packets[k].to].job, id)
    ensures JobAbout(Receiver(g, w, k, nonce).job, id) <==> id == IdOfReply(w.packets[k].reply)
    ensures PacketAbout(w.packets[k], id) <==> id == IdOfReply(w.packets[k].reply)
  {
    hide Sound, Confirm, AckFor, UsableToAck, AcceptedChannel;
    if w.packets[k].reply.SendOffer? {
      OfferTaken(g, w, k, nonce);
    } else {
      AckTaken(g, w, book, k, nonce);
    }
  }

  /** The network loses a packet. */
  lemma MovesLose(g: Net, w: World, book: Book, k: nat, id: ChannelId)
    requires Ready(g, w, book, Lose(k))
    ensures Moves(w, After(g, w, Lose(k)), id, id in LostBy(w, Lose(k)))
  {
    hide NodesGood, MessagesWorth, AllNodesOk, AllPresent, JobOk, Progress.Orderly, Progress.TidyInsert;
    var w' := After(g, w, Lose(k));
    if w.packets[k].gone {
      assert w'.packets == w.packets;
    } else {
      PacketFacts(w, book, k);
      var d := IdOfReply(w.packets[k].reply);
      PacketIsExclusive(w, book, k, d);
      NotYetConfirmed(w, book, d);
      SameConfirmed(w, w', id);
      PacketGone(w, w', k, id);
    }
  }

  lemma SameConfirmed(w: World, w': World, id: ChannelId)
    requires w'.nodes == w.nodes
    ensures IsConfirmed(w', id) <==> IsConfirmed(w, id)
  {
  }

  lemma PacketGone(w: World, w': World, k: nat, id: ChannelId)
    requires k < |w.packets| && w'.nodes == w.nodes && w'.packets == Gone(w.packets, k)
    requires !w.packets[k].gone && !w.packets[k].reply.Silent?
    ensures Alive(w', id) ==> Alive(w, id)
    ensures Alive(w, id) && id != IdOfReply(w.packets[k].reply) ==> Alive(w', id)
  {
    assert forall j :: 0 <= j < |w.packets| && j != k ==> w'.packets[j] == w.packets[j];
    if id != IdOfReply(w.packets[k].reply) {
      if j :| 0 <= j < |w.packets| && PacketAbout(w.packets[j], id) {
        assert PacketAbout(w'.packets[j], id);
      }
    }
  }

  lemma MovesStep(g: Net, w: World, book: Book, x: Step, id: ChannelId)
    requires Ready(g, w, book, x)
    ensures Moves(w, After(g, w, x), id, id in LostBy(w, x))
  {
    hide Ready, Moves;
    match x {
      case Sent(p) => MovesSend(g, w, book, p, false, id);
      case SendFailed(p) => MovesSend(g, w, book, p, true, id);
      case Deliver(k, nonce) => MovesDeliver(g, w, book, k, nonce, id);
      case Lose(k) => MovesLose(g, w, book, k, id);
      case MineTx(tx) => MovesMine(w, w.(chain := w.chain + {tx}), id);
      case _ => MovesLocally(g, w, book, x, id);
    }
  }

  lemma MovesMine(w: World, w': World, id: ChannelId)
    requires w'.nodes == w.nodes && w'.packets == w.packets && w'.used == w.used
    ensures Moves(w, w', id, false)
  {
  }

  /** After every run of the network, each channel ever opened is at work or on its way, or is
      confirmed, or one of its messages was lost; and a channel whose message was lost is neither. */
  lemma {:induction false} AccountedAlways(g: Net, steps: seq<Step>)
    requires g.Lawful() && Network.Run(g, steps).Some?
    ensures Accounted(Network.Run(g, steps).value, LostIn(g, steps))
  {
    hide Accounted, After, Possible, Moves, Sound, Progress.Orderly, Progress.TidyInsert, LostBy;
    if steps == [] {
      NothingToAccount(g);
    } else {
      var front, x := steps[..|steps| - 1], steps[|steps| - 1];
      AccountedAlways(g, front);
      var w := Network.Run(g, front).value;
      var book := ReadyAt(g, front, x);
      forall id
        ensures Moves(w, After(g, w, x), id, id in LostBy(w, x))
      {
        MovesStep(g, w, book, x, id);
      }
      AccountedStep(w, After(g, w, x), LostIn(g, front), LostBy(w, x));
    }
  }

  lemma NothingToAccount(g: Net)
    ensures Accounted(Start(g), {})
  {
  }

  lemma ReadyAt(g: Net, steps: seq<Step>, x: Step) returns (book: Book)
    requires g.Lawful() && Network.Run(g, steps).Some? && Possible(g, Network.Run(g, steps).value, x)
    ensures Ready(g, Network.Run(g, steps).value, book, x)
  {
    hide Network.Run, Possible, Inv, MessagesWorth, Progress.Orderly, Progress.TidyInsert, AllGood;
    book := SoundAlways(g, steps);
    var w := Network.Run(g, steps).value;
    forall p | p in w.nodes
      ensures Progress.Orderly(w.nodes[p]) && Progress.TidyInsert(w.nodes[p])
    {
      Projection.NodeIsOrderly(g, steps, p);
    }
  }

  /** Some node opened the channel and is still without an acknowledgement. */
  ghost predicate OpenerWaits(w: World, id: ChannelId) {
    exists p :: p in w.nodes && id in w.nodes[p].db && w.nodes[p].db[id].state.Pending?
  }

  lemma OpenerHasStored(w: World, book: Book, id: ChannelId)
    requires Inv(w, book) && id in book && !book[id].stage.Drafting? && !book[id].stage.Confirmed?
    ensures OpenerWaits(w, id)
  {
    hide JobOk, WatchersOk, PacketOk;
    assert PresentOk(w.nodes, id, book[id]);
    StoredFacts(w, book, book[id].from, id);
  }

  lemma LostFromOpener(g: Net, w: World, book: Book, x: Step, id: ChannelId)
    requires Ready(g, w, book, x) && id in LostBy(w, x)
    ensures OpenerWaits(w, id)
  {
    hide NodesGood, MessagesWorth, AllNodesOk, AllPresent, PacketsOk, JobOk, Progress.Orderly, Progress.TidyInsert, OpenerWaits;
    match x {
      case SendFailed(p) => var d := SendFacts(w, book, p);
      case Lose(k) => PacketFacts(w, book, k);
      case _ =>
    }
    OpenerHasStored(w, book, id);
  }

  /** When a message about a channel was lost, the node that opened it holds it as Pending for ever. */
  lemma {:induction false} LostLeavesPending(g: Net, steps: seq<Step>, id: ChannelId)
    requires g.Lawful() && Network.Run(g, steps).Some? && id in LostIn(g, steps)
    ensures OpenerWaits(Network.Run(g, steps).value, id)
  {
    hide Accounted, After, Possible, LostBy, Sound, OpenerWaits, Progress.Orderly, Progress.TidyInsert;
    var front, x := steps[..|steps| - 1], steps[|steps| - 1];
    var w := Network.Run(g, front).value;
    if id in LostIn(g, front) {
      LostLeavesPending(g, front, id);
    } else {
      var book := ReadyAt(g, front, x);
      LostFromOpener(g, w, book, x, id);
    }
    PendingStays(g, steps, id);
  }

  /** A step confirms a Pending channel or leaves it Pending. */
  lemma PendingStays(g: Net, steps: seq<Step>, id: ChannelId)
    requires g.Lawful() && Network.Run(g, steps).Some? && steps != [] && id in LostIn(g, steps)
    requires OpenerWaits(Network.Run(g, steps[..|steps| - 1]).value, id)
    ensures OpenerWaits(Network.Run(g, steps).value, id)
  {
    hide After, Possible, LostIn, Alive, IsConfirmed;
    var front, x := steps[..|steps| - 1], steps[|steps| - 1];
    var w, w' := Network.Run(g, front).value, Network.Run(g, steps).value;
    AccountedAlways(g, steps);
    var p :| p in w.nodes && id in w.nodes[p].db && w.nodes[p].db[id].state.Pending?;
    KeysAreNodes(g, front, p);
    Projection.ChannelsOnlyMoveForward(g, front, x, p);
    assert Progress.MovesOn(w.nodes[p].db[id], w'.nodes[p].db[id]);
    NotConfirmedAt(w', p, id);
  }

  lemma KeysAreNodes(g: Net, steps: seq<Step>, p: PeerId)
    requires g.Lawful() && Network.Run(g, steps).Some? && p in Network.Run(g, steps).value.nodes
    ensures p in g.keys
  {
    hide Network.Run, Inv, MessagesWorth;
    var book := SoundAlways(g, steps);
  }

  lemma NotConfirmedAt(w: World, p: PeerId, id: ChannelId)
    requires !IsConfirmed(w, id) && p in w.nodes
    ensures !ConfirmedAt(w.nodes[p], id)
  {
  }

  // ---------------------------------------------------------------------------------------
  // Nobody waits for nothing
  // ---------------------------------------------------------------------------------------

  /** In the network the channels a node accepted are watched too: each stored WaitingForFund channel
      has a watcher that still waits for it. */
  lemma {:induction false} AcceptedChannelsAreWatched(g: Net, steps: seq<Step>, p: PeerId)
    requires g.Lawful() && Network.Run(g, steps).Some? && p in g.keys
    ensures var w := Network.Run(g, steps).value; p in w.nodes && Progress.NoneStranded(w.nodes[p], false)
  {
    hide Progress.NoneStranded, After, Possible, Projection.Acting, Next, Enabled, Progress.Orderly, Progress.TidyInsert;
    if steps == [] {
      Progress.NothingToStrand(false);
    } else {
      var front, x := steps[..|steps| - 1], steps[|steps| - 1];
      AcceptedChannelsAreWatched(g, front, p);
      var w := Network.Run(g, front).value;
      Projection.OneActs(g, w, x);
      match Projection.Acting(g, w, x) {
        case Some((q, a)) =>
          if q == p {
            StaysWatched(g, front, x, p, a);
          }
        case None =>
      }
    }
  }

  lemma StaysWatched(g: Net, steps: seq<Step>, x: Step, p: PeerId, a: Action)
    requires g.Lawful() && Network.Run(g, steps).Some? && p in g.keys
    requires var w := Network.Run(g, steps).value;
             && Possible(g, w, x) && Projection.Acting(g, w, x) == Some((p, a)) && NodeCan(g, w, p, a)
             && Progress.NoneStranded(w.nodes[p], false)
    ensures var w := Network.Run(g, steps).value;
            Progress.NoneStranded(Next(g.EnvOf(p), w.nodes[p], a, w.chain), false)
  {
    hide Network.Run, Progress.NoneStranded, Next, Enabled, Sight, Progress.TidyInsert;
    var w := Network.Run(g, steps).value;
    Projection.NodeIsOrderly(g, steps, p);
    if a.Fire? {
      assert x == FireAt(p, a.watcher, a.tx);
      WatchersAlwaysMatch(g, steps, p, a.watcher, a.tx);
    }
    FireHasWatcher(g.EnvOf(p), w.nodes[p], a, w.chain);
    Progress.StrandsNone(g.EnvOf(p), w.nodes[p], a, w.chain, false);
  }

  lemma FireHasWatcher(e: Env, n: Node, a: Action, chain: set<Transaction>)
    requires Enabled(e, n, a, chain)
    ensures a.Fire? ==> a.watcher < |n.watchers|
    ensures a.Fire? && n.watchers[a.watcher].channel.state.ReadyToFund? ==>
              HasFundingOutput(n.watchers[a.watcher].channel.state.fundTx)
  {
  }

  // ---------------------------------------------------------------------------------------
  // At rest
  // ---------------------------------------------------------------------------------------

  /** Nothing is left to do: no node is at work, no message is on its way, no watcher can fire. */
  ghost predicate AtRest(g: Net, w: World) {
    && (forall p :: p in w.nodes ==> w.nodes[p].job.Idle?)
    && (forall k :: 0 <= k < |w.packets| ==> w.packets[k].gone)
    && (forall p, i, tx :: !Possible(g, w, FireAt(p, i, tx)))
  }

  ghost predicate OnTheChain(g: Net, w: World, id: ChannelId) {
    exists tx :: tx in w.chain && g.h.txid(tx) == id.txid
  }

  lemma NoneAlive(g: Net, w: World, id: ChannelId)
    requires AtRest(g, w)
    ensures !Alive(w, id)
  {
  }

  /** A stored channel that waits for its funding does so because its transaction is not there. */
  lemma WaitsInVain(g: Net, w: World, p: PeerId, id: ChannelId, own: bool)
    requires AtRest(g, w) && NodesGood(g, w) && p in w.nodes && id in w.nodes[p].db
    requires Progress.NoneStranded(w.nodes[p], own) && Progress.Awaiting(w.nodes[p].db[id], own)
    ensures !OnTheChain(g, w, id)
  {
    hide Good, Progress.Awaiting;
    GoodAt(g, w, p, id);
    GoodFunds(g.EnvOf(p), w.nodes[p], w.chain);
    forall i, t
      ensures !Enabled(g.EnvOf(p), w.nodes[p], Fire(i, t), w.chain)
    {
      assert !Possible(g, w, FireAt(p, i, t));
    }
    forall tx | tx in w.chain
      ensures g.h.txid(tx) != id.txid
    {
      Progress.Unfireable(g.EnvOf(p), w.nodes[p], w.chain, w.nodes[p].db[id], tx);
    }
  }

  /** Confirmed channels at rest are as funded as the chain shows, for both parties. */
  lemma ConfirmedAtRest(g: Net, steps: seq<Step>, a: PeerId, id: ChannelId)
    requires g.Lawful() && Network.Run(g, steps).Some? && AtRest(g, Network.Run(g, steps).value)
    requires var w := Network.Run(g, steps).value; a in w.nodes && ConfirmedAt(w.nodes[a], id)
    ensures var w := Network.Run(g, steps).value;
            var c := w.nodes[a].db[id];
            && (c.state.ReadyToFund? <==> !OnTheChain(g, w, id))
            && c.peerId in w.nodes && id in w.nodes[c.peerId].db
            && w.nodes[c.peerId].db[id].state.WaitingForFund? == !OnTheChain(g, w, id)
            && w.nodes[c.peerId].db[id].state.Funded? == OnTheChain(g, w, id)
  {
    hide Network.Run, AtRest, Progress.NoneStranded, Inv, MessagesWorth;
    var w := Network.Run(g, steps).value;
    var book := SoundAlways(g, steps);
    TwoPartyAgreement(g, steps, a, id);
    var c := w.nodes[a].db[id];
    var b := c.peerId;
    GoodAt(g, w, a, id);
    GoodAt(g, w, b, id);
    OpenedAreWatched(g, steps, a);
    AcceptedChannelsAreWatched(g, steps, b);
    if c.state.ReadyToFund? {
      WaitsInVain(g, w, a, id, true);
    }
    if w.nodes[b].db[id].state.WaitingForFund? {
      WaitsInVain(g, w, b, id, false);
    }
  }

  lemma OpenedAreWatched(g: Net, steps: seq<Step>, p: PeerId)
    requires g.Lawful() && Network.Run(g, steps).Some? && p in g.keys
    ensures var w := Network.Run(g, steps).value; p in w.nodes && Progress.NoneStranded(w.nodes[p], true)
  {
    hide Progress.NoneStranded;
    var acts := Projection.RunsAlone(g, steps, p);
    Progress.OwnChannelsAreWatched(g.EnvOf(p), acts);
  }

  /** The protocol at rest: of each channel ever opened, either one of its messages was lost, and then
      its opener holds it as Pending and nobody has confirmed it, or none was lost and it is
      confirmed: its opener holds it as ReadyToFund, Live or Closed and the other node as
      WaitingForFund or Funded, and both have seen the funding transaction exactly if the chain has
      it. */
  lemma SettledAtRest(g: Net, steps: seq<Step>, id: ChannelId)
    requires g.Lawful() && Network.Run(g, steps).Some? && AtRest(g, Network.Run(g, steps).value)
    requires id in Network.Run(g, steps).value.used
    ensures var w := Network.Run(g, steps).value;
            && (IsConfirmed(w, id) <==> id !in LostIn(g, steps))
            && (id in LostIn(g, steps) ==> OpenerWaits(w, id))
            && (forall a :: a in w.nodes && ConfirmedAt(w.nodes[a], id) ==>
                  var c := w.nodes[a].db[id];
                  && (c.state.ReadyToFund? <==> !OnTheChain(g, w, id))
                  && c.peerId in w.nodes && id in w.nodes[c.peerId].db
                  && w.nodes[c.peerId].db[id].state.WaitingForFund? == !OnTheChain(g, w, id)
                  && w.nodes[c.peerId].db[id].state.Funded? == OnTheChain(g, w, id))
  {
    hide Network.Run, LostIn, AtRest, Alive, IsConfirmed, OnTheChain, Agreement.Confirmed;
    var w := Network.Run(g, steps).value;
    AccountedAlways(g, steps);
    NoneAlive(g, w, id);
    if id in LostIn(g, steps) {
      LostLeavesPending(g, steps, id);
    }
    forall a | a in w.nodes && ConfirmedAt(w.nodes[a], id)
      ensures id in w.nodes[a].db
      ensures var c := w.nodes[a].db[id];
              && (c.state.ReadyToFund? <==> !OnTheChain(g, w, id))
              && c.peerId in w.nodes && id in w.nodes[c.peerId].db
              && w.nodes[c.peerId].db[id].state.WaitingForFund? == !OnTheChain(g, w, id)
              && w.nodes[c.peerId].db[id].state.Funded? == OnTheChain(g, w, id)
    {
      ConfirmedAtRest(g, steps, a, id);
    }
  }
}
