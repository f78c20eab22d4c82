/** What honest nodes agree on, in every reachable state of the network. */
module Agreement {
  import opened Options
  import opened Crypto
  import opened Bitcoin
  import opened Channels
  import opened ForceClose
  import opened Nodes
  import opened Network
  import opened Stories

  // ---------------------------------------------------------------------------------------
  // What messages are worth
  // ---------------------------------------------------------------------------------------

  /** An offer carries its maker's publishing key; an acknowledgement carries a commit signature
      that its receiver, the maker of the offer, will find good. */
  ghost predicate Worth(g: Net, book: Book, reply: Reply) {
    match reply
    case SendOffer(offer) =>
      offer.id in book && book[offer.id].from in g.keys
      && offer.publishingKey == PublishingKey(g.s, g.keys[book[offer.id].from])
    case SendAck(ack) =>
      && ack.id in book && book[ack.id].from in g.keys
      && var t := book[ack.id];
         GoodCommitSig(g.EnvOf(t.from), ack.id, t.to, CommitState(t.value, 0), ack.commitSig)
    case Silent => true
  }

  ghost predicate JobWorth(g: Net, book: Book, job: Job) {
    match job
    case Idle => true
    case Inserting(_, reply) => Worth(g, book, reply)
    case Replying(_, reply) => Worth(g, book, reply)
  }

  ghost predicate MessagesWorth(g: Net, w: World, book: Book) {
    && (forall p :: p in w.nodes ==> JobWorth(g, book, w.nodes[p].job))
    && (forall k :: 0 <= k < |w.packets| && !w.packets[k].gone ==> Worth(g, book, w.packets[k].reply))
  }

  ghost predicate NodesGood(g: Net, w: World) {
    && w.nodes.Keys == g.keys.Keys
    && forall p :: p in w.nodes ==> AllGood(g.EnvOf(p), w.nodes[p], w.chain)
  }

  ghost predicate Sound(g: Net, w: World, book: Book) {
    Inv(w, book) && NodesGood(g, w) && MessagesWorth(g, w, book)
  }

  lemma WorthExtends(g: Net, book: Book, book': Book, reply: Reply)
    requires Extends(book, book') && Worth(g, book, reply)
    ensures Worth(g, book', reply)
  {
    if !reply.Silent? {
      assert IdOfReply(reply) in book;
    }
  }

  /** Messages keep their worth when one node's job changes to something worthy and each packet
      left was there before or is worthy too. */
  lemma WorthFrame(g: Net, w: World, w': World, book: Book, book': Book, p: PeerId, n': Node)
    requires MessagesWorth(g, w, book) && Extends(book, book') && NodeBecame(w, w', p, n')
    requires JobWorth(g, book', n'.job)
    requires forall k :: 0 <= k < |w'.packets| && !w'.packets[k].gone ==>
               (k < |w.packets| && w'.packets[k] == w.packets[k]) || Worth(g, book', w'.packets[k].reply)
    ensures MessagesWorth(g, w', book')
  {
    hide Worth, Extends;
    forall q | q in w'.nodes
      ensures JobWorth(g, book', w'.nodes[q].job)
    {
      if q != p {
        assert JobWorth(g, book, w.nodes[q].job);
        match w.nodes[q].job {
          case Idle =>
          case Inserting(_, reply) => WorthExtends(g, book, book', reply);
          case Replying(_, reply) => WorthExtends(g, book, book', reply);
        }
      }
    }
    forall k | 0 <= k < |w'.packets| && !w'.packets[k].gone
      ensures Worth(g, book', w'.packets[k].reply)
    {
      if k < |w.packets| && w'.packets[k] == w.packets[k] {
        WorthExtends(g, book, book', w.packets[k].reply);
      }
    }
  }

  lemma GoodAfter(g: Net, w: World, w': World, p: PeerId, a: Action)
    requires g.Lawful() && NodesGood(g, w) && NodeCan(g, w, p, a)
    requires NodeBecame(w, w', p, Next(g.EnvOf(p), w.nodes[p], a, w.chain)) && w'.chain == w.chain
    ensures NodesGood(g, w')
  {
    hide AllGood, Enabled, Next;
    GoodStep(g.EnvOf(p), w.nodes[p], a, w.chain);
  }

  // ---------------------------------------------------------------------------------------
  // Every step is sound
  // ---------------------------------------------------------------------------------------

  lemma SoundNew(g: Net, w: World, book: Book, x: Step) returns (book': Book)
    requires g.Lawful() && Sound(g, w, book) && Possible(g, w, x) && x.New?
    ensures Sound(g, After(g, w, x), book')
  {
    hide NodeOk, PacketOk, AllGood, Extends, PresentOk;
    var w', p, d := After(g, w, x), x.p, ChannelIdOf(g.h, x.fundTx);
    var n' := w'.nodes[p];
    book' := NewStep(w, w', book, p, n', d, x.peer, x.value);
    GoodAfter(g, w, w', p, BeginNew(x.peer, x.value, x.fundTx));
    NodeAt(w', book', p);
    WorthFrame(g, w, w', book, book', p, n');
  }

  lemma NodeAt(w: World, book: Book, p: PeerId)
    requires Inv(w, book) && p in w.nodes
    ensures JobOk(book, p, w.nodes[p])
  {
    assert NodeOk(book, p, w.nodes[p]);
  }

  lemma SoundInsert(g: Net, w: World, book: Book, p: PeerId) returns (book': Book)
    requires g.Lawful() && Sound(g, w, book) && Possible(g, w, InsertAt(p))
    ensures Sound(g, After(g, w, InsertAt(p)), book')
  {
    hide NodeOk, PacketOk, AllGood, Extends, PresentOk, JobOk, Worth;
    var w' := After(g, w, InsertAt(p));
    var n, n' := w.nodes[p], w'.nodes[p];
    book' := InsertStep(w, w', book, p, n');
    GoodAfter(g, w, w', p, Insert);
    assert JobWorth(g, book, n.job);
    WorthExtends(g, book, book', n.job.reply);
    WorthFrame(g, w, w', book, book', p, n');
  }

  lemma SoundSend(g: Net, w: World, book: Book, p: PeerId, lost: bool) returns (book': Book)
    requires g.Lawful() && Sound(g, w, book)
    requires Possible(g, w, if lost then SendFailed(p) else Sent(p))
    ensures Sound(g, After(g, w, if lost then SendFailed(p) else Sent(p)), book')
  {
    hide NodeOk, PacketOk, AllGood, Extends, PresentOk, JobOk, Worth;
    var w' := After(g, w, if lost then SendFailed(p) else Sent(p));
    var n, n' := w.nodes[p], w'.nodes[p];
    book' := SendStep(w, w', book, p, lost);
    GoodAfter(g, w, w', p, Release);
    assert JobWorth(g, book, n.job);
    WorthExtends(g, book, book', n.job.reply);
    WorthFrame(g, w, w', book, book', p, n');
  }

  lemma SoundFire(g: Net, w: World, book: Book, p: PeerId, i: nat, tx: Transaction) returns (book': Book)
    requires g.Lawful() && Sound(g, w, book) && Possible(g, w, FireAt(p, i, tx))
    ensures Sound(g, After(g, w, FireAt(p, i, tx)), book')
  {
    hide NodeOk, PacketOk, AllGood, Extends, PresentOk, JobOk, Worth;
    var w' := After(g, w, FireAt(p, i, tx));
    var n, n' := w.nodes[p], w'.nodes[p];
    WatcherAt(g, w, p, i);
    FiresAsToldTo(g.EnvOf(p), n, i, tx, w.chain);
    book' := FireStep(w, w', book, p, i, n');
    GoodAfter(g, w, w', p, Fire(i, tx));
    assert JobWorth(g, book, n.job);
    JobWorthExtends(g, book, book', n.job);
    WorthFrame(g, w, w', book, book', p, n');
  }

  lemma WatcherAt(g: Net, w: World, p: PeerId, i: nat)
    requires NodesGood(g, w) && p in w.nodes && i < |w.nodes[p].watchers|
    ensures Watches(w.nodes[p].watchers[i].channel)
  {
    assert AllGood(g.EnvOf(p), w.nodes[p], w.chain);
  }

  lemma JobWorthExtends(g: Net, book: Book, book': Book, job: Job)
    requires Extends(book, book') && JobWorth(g, book, job)
    ensures JobWorth(g, book', job)
  {
    hide Worth, Extends;
    match job {
      case Idle =>
      case Inserting(_, reply) => WorthExtends(g, book, book', reply);
      case Replying(_, reply) => WorthExtends(g, book, book', reply);
    }
  }

  lemma FiresAsToldTo(e: Env, n: Node, i: nat, tx: Transaction, chain: set<Transaction>)
    requires Enabled(e, n, Fire(i, tx), chain)
    requires Watches(n.watchers[i].channel)
    ensures Fires(n, Next(e, n, Fire(i, tx), chain), i)
  {
    var c := n.watchers[i].channel;
    var seen := Sight(e, c, tx);
    if seen.Store? {
      assert seen.channel == c.(state := seen.channel.state);
    }
  }

  // Delivery -------------------------------------------------------------------------------

  lemma SoundLose(g: Net, w: World, book: Book, k: nat) returns (book': Book)
    requires g.Lawful() && Sound(g, w, book) && Possible(g, w, Lose(k))
    ensures Sound(g, After(g, w, Lose(k)), book')
  {
    hide NodeOk, PacketOk, AllGood, Extends, PresentOk, JobOk, Worth;
    var w' := After(g, w, Lose(k));
    if w.packets[k].gone {
      assert w'.packets == w.packets;
      book' := book;
    } else {
      book' := LoseStep(w, w', book, k);
      LoseWorth(g, w, w', book, book', k);
    }
  }

  lemma LoseWorth(g: Net, w: World, w': World, book: Book, book': Book, k: nat)
    requires MessagesWorth(g, w, book) && Extends(book, book') && k < |w.packets|
    requires w' == w.(packets := Gone(w.packets, k))
    ensures MessagesWorth(g, w', book')
  {
    hide Worth, Extends;
    forall p | p in w'.nodes
      ensures JobWorth(g, book', w'.nodes[p].job)
    {
      JobWorthExtends(g, book, book', w.nodes[p].job);
    }
    forall j | 0 <= j < |w'.packets| && !w'.packets[j].gone
      ensures Worth(g, book', w'.packets[j].reply)
    {
      WorthExtends(g, book, book', w.packets[j].reply);
    }
  }

  /** The acknowledgement an honest node makes of an offer is worth something to its maker. */
  lemma AckWorth(g: Net, w: World, book: Book, k: nat, nonce: Nonce)
    requires g.Lawful() && Sound(g, w, book) && Possible(g, w, Deliver(k, nonce)) && w.packets[k].reply.SendOffer?
    ensures var m := w.packets[k]; Worth(g, book, SendAck(AckFor(g.EnvOf(m.to), m.from, m.reply.offer, nonce)))
  {
    hide NodeOk, AllGood, PresentOk, PacketOk, GoodCommitSig, AckFor, UsableToAck, Enabled, PublishingKey;
    var m := w.packets[k];
    var offer := m.reply.offer;
    AckForId(g.EnvOf(m.to), m.from, offer, nonce);
    PacketFacts(w, book, k);
    assert Worth(g, book, m.reply);
    HonestAckIsGood(g.EnvOf(m.from), g.EnvOf(m.to), offer, nonce);
  }

  /** What taking delivery of a packet makes of its receiver. */
  ghost function Receiver(g: Net, w: World, k: nat, nonce: Nonce): Node
    requires Possible(g, w, Deliver(k, nonce))
  {
    var m := w.packets[k];
    Next(g.EnvOf(m.to), w.nodes[m.to], Receive(m, nonce), w.chain)
  }

  lemma OfferTaken(g: Net, w: World, k: nat, nonce: Nonce)
    requires Possible(g, w, Deliver(k, nonce)) && w.packets[k].reply.SendOffer?
    ensures var m := w.packets[k];
            var n' := Receiver(g, w, k, nonce);
            && TakesUp(w.nodes[m.to], n', m.reply.offer.id)
            && n'.job.channel == AcceptedChannel(m.from, m.reply.offer)
            && n'.job.reply == SendAck(AckFor(g.EnvOf(m.to), m.from, m.reply.offer, nonce))
  {
    hide AckFor;
  }

  lemma SoundOffer(g: Net, w: World, book: Book, k: nat, nonce: Nonce) returns (book': Book)
    requires g.Lawful() && Sound(g, w, book) && Possible(g, w, Deliver(k, nonce)) && w.packets[k].reply.SendOffer?
    ensures Sound(g, After(g, w, Deliver(k, nonce)), book')
  {
    hide NodeOk, PacketOk, AllGood, Extends, PresentOk, JobOk, Worth, AckFor, AcceptedChannel, Enabled, UsableToAck;
    var w', m := After(g, w, Deliver(k, nonce)), w.packets[k];
    var n' := Receiver(g, w, k, nonce);
    OfferTaken(g, w, k, nonce);
    AckWorth(g, w, book, k, nonce);
    AckForId(g.EnvOf(m.to), m.from, m.reply.offer, nonce);
    book' := OfferStep(w, w', book, k, n');
    GoodAfter(g, w, w', m.to, Receive(m, nonce));
    WorthExtends(g, book, book', n'.job.reply);
    WorthFrame(g, w, w', book, book', m.to, n');
  }

  lemma AckForId(e: Env, peer: PeerId, offer: NewChannel, nonce: Nonce)
    ensures AckFor(e, peer, offer, nonce).id == offer.id
  {
  }

  /** The receiver of an acknowledgement holds the channel as Pending and accepts the signature. */
  lemma AckAccepted(g: Net, w: World, book: Book, k: nat)
    requires g.Lawful() && Sound(g, w, book)
    requires k < |w.packets| && !w.packets[k].gone && w.packets[k].reply.SendAck?
    requires w.packets[k].to in w.nodes && FundsOk(w.nodes[w.packets[k].to])
    ensures var m := w.packets[k];
            var db := w.nodes[m.to].db;
            && m.reply.ack.id in db && db[m.reply.ack.id].state.Pending?
            && m.to in g.keys
            && Confirm(g.EnvOf(m.to), db, m.from, m.reply.ack).Success?
  {
    hide NodeOk, PacketOk, PresentOk;
    var m := w.packets[k];
    var id, a := m.reply.ack.id, m.to;
    PacketFacts(w, book, k);
    AckStored(w, book, k);
    var c := w.nodes[a].db[id];
    assert Good(g.EnvOf(a), w.chain, c);
    FundedOutput(g.h, c.state.fundTx, c.value, FundingDescriptor(g.EnvOf(a), c.peerId, true));
    assert Worth(g, book, m.reply);
  }

  lemma AckStored(w: World, book: Book, k: nat)
    requires Inv(w, book)
    requires k < |w.packets| && !w.packets[k].gone && w.packets[k].reply.SendAck?
    ensures var m := w.packets[k];
            && m.to in w.nodes && m.reply.ack.id in book && m.reply.ack.id in w.nodes[m.to].db
            && var c := w.nodes[m.to].db[m.reply.ack.id];
               c.state.Pending? && c.id == m.reply.ack.id && c.peerId == m.from && c.value == book[m.reply.ack.id].value
  {
    PacketFacts(w, book, k);
    var m := w.packets[k];
    StoredFacts(w, book, m.to, m.reply.ack.id);
  }

  lemma AckTaken(g: Net, w: World, book: Book, k: nat, nonce: Nonce)
    requires g.Lawful() && Sound(g, w, book) && Possible(g, w, Deliver(k, nonce)) && w.packets[k].reply.SendAck?
    ensures var n, n', id := w.nodes[w.packets[k].to], Receiver(g, w, k, nonce), w.packets[k].reply.ack.id;
            && TakesUp(n, n', id) && n'.job.reply.Silent?
            && id in n.db && n'.job.channel == n.db[id].(state := n'.job.channel.state)
            && n'.job.channel.state.ReadyToFund?
  {
    hide Sound, GoodCommitSig;
    AckAccepted(g, w, book, k);
    AckStoredSound(g, w, book, k);
  }

  lemma AckStoredSound(g: Net, w: World, book: Book, k: nat)
    requires Sound(g, w, book)
    requires k < |w.packets| && !w.packets[k].gone && w.packets[k].reply.SendAck?
    ensures var m := w.packets[k];
            && m.to in w.nodes && m.reply.ack.id in w.nodes[m.to].db
            && w.nodes[m.to].db[m.reply.ack.id].id == m.reply.ack.id
  {
    AckStored(w, book, k);
  }

  lemma SoundAck(g: Net, w: World, book: Book, k: nat, nonce: Nonce) returns (book': Book)
    requires g.Lawful() && Sound(g, w, book) && Possible(g, w, Deliver(k, nonce)) && w.packets[k].reply.SendAck?
    ensures Sound(g, After(g, w, Deliver(k, nonce)), book')
  {
    hide NodeOk, PacketOk, AllGood, Extends, PresentOk, JobOk, Worth, Confirm;
    var w', m := After(g, w, Deliver(k, nonce)), w.packets[k];
    var n' := Receiver(g, w, k, nonce);
    AckTaken(g, w, book, k, nonce);
    book' := AckStep(w, w', book, k, n');
    GoodAfter(g, w, w', m.to, Receive(m, nonce));
    SilentWorth(g, book');
    WorthFrame(g, w, w', book, book', m.to, n');
  }

  lemma SilentWorth(g: Net, book: Book)
    ensures Worth(g, book, Silent)
  {
  }

  // Closing and mining ---------------------------------------------------------------------

  lemma CloseTaken(g: Net, w: World, p: PeerId, id: ChannelId, nonce: Nonce)
    requires g.Lawful() && NodesGood(g, w) && Possible(g, w, Close(p, id, nonce))
    ensures var n, n' := w.nodes[p], After(g, w, Close(p, id, nonce)).nodes[p];
            if id in n.db && n.db[id].state.Live? then
              && TakesUp(n, n', id) && n'.job.reply.Silent?
              && n'.job.channel == n.db[id].(state := n'.job.channel.state) && n'.job.channel.state.Closed?
            else n' == n
  {
    hide CloseLive, Good, UsableToClose, FundsOk, Confirm, Sight;
    var n := w.nodes[p];
    if id in n.db && n.db[id].state.Live? {
      assert AllGood(g.EnvOf(p), n, w.chain);
      ClosedIsGood(g.EnvOf(p), w.chain, n.db[id], nonce);
    }
  }

  lemma SoundClose(g: Net, w: World, book: Book, p: PeerId, id: ChannelId, nonce: Nonce)
    requires g.Lawful() && Sound(g, w, book) && Possible(g, w, Close(p, id, nonce))
    ensures Sound(g, After(g, w, Close(p, id, nonce)), book)
  {
    hide NodeOk, PacketOk, PresentOk, JobOk, Worth, AllGood, Enabled, CloseLive, Next;
    var w', n := After(g, w, Close(p, id, nonce)), w.nodes[p];
    var n' := w'.nodes[p];
    GoodAfter(g, w, w', p, BeginClose(id, nonce));
    SilentWorth(g, book);
    CloseTaken(g, w, p, id, nonce);
    if id in n.db && n.db[id].state.Live? {
      CloseStep(w, w', book, p, n', id);
      WorthFrame(g, w, w', book, book, p, n');
    } else {
      assert w'.nodes == w.nodes;
    }
  }

  lemma SoundMine(g: Net, w: World, book: Book, tx: Transaction)
    requires g.Lawful() && Sound(g, w, book)
    ensures Sound(g, w.(chain := w.chain + {tx}), book)
  {
    hide NodeOk, PacketOk, PresentOk, JobOk, Worth, Good;
    forall p | p in w.nodes
      ensures AllGood(g.EnvOf(p), w.nodes[p], w.chain + {tx})
    {
      AllGoodGrows(g.EnvOf(p), w.nodes[p], w.chain, w.chain + {tx});
    }
  }

  lemma SoundStep(g: Net, w: World, book: Book, x: Step) returns (book': Book)
    requires g.Lawful() && Sound(g, w, book) && Possible(g, w, x)
    ensures Sound(g, After(g, w, x), book')
  {
    hide Sound;
    match x {
      case New(_, _, _, _) => book' := SoundNew(g, w, book, x);
      case Close(p, id, nonce) =>
        book' := book;
        SoundClose(g, w, book, p, id, nonce);
      case InsertAt(p) => book' := SoundInsert(g, w, book, p);
      case Sent(p) => book' := SoundSend(g, w, book, p, false);
      case SendFailed(p) => book' := SoundSend(g, w, book, p, true);
      case FireAt(p, i, tx) => book' := SoundFire(g, w, book, p, i, tx);
      case Deliver(k, nonce) =>
        if w.packets[k].reply.SendOffer? {
          book' := SoundOffer(g, w, book, k, nonce);
        } else {
          book' := SoundAck(g, w, book, k, nonce);
        }
      case Lose(k) => book' := SoundLose(g, w, book, k);
      case MineTx(tx) =>
        book' := book;
        SoundMine(g, w, book, tx);
    }
  }

  lemma SoundStart(g: Net)
    ensures Sound(g, Start(g), map[])
  {
  }

  /** Every reachable state of the network has a sound book of stories. */
  lemma {:induction false} SoundAlways(g: Net, steps: seq<Step>) returns (book: Book)
    requires g.Lawful() && Network.Run(g, steps).Some?
    ensures Sound(g, Network.Run(g, steps).value, book)
  {
    hide Sound;
    if steps == [] {
      SoundStart(g);
      book := map[];
    } else {
      var front := steps[..|steps| - 1];
      var book0 := SoundAlways(g, front);
      book := SoundStep(g, Network.Run(g, front).value, book0, steps[|steps| - 1]);
    }
  }

  // ---------------------------------------------------------------------------------------
  // What follows
  // ---------------------------------------------------------------------------------------

  predicate Confirmed(c: Channel) {
    c.state.ReadyToFund? || c.state.Live? || c.state.Closed?
  }

  predicate Awaits(c: Channel) {
    c.state.WaitingForFund? || c.state.Funded?
  }

  /** Agreement: once the opening node holds a channel as ReadyToFund, Live or Closed, the other
      node holds the same id as WaitingForFund or Funded, with the same value, the opposite role,
      and the same idea of the funding output; the commit state gives everything to party one. */
  lemma TwoPartyAgreement(g: Net, steps: seq<Step>, a: PeerId, id: ChannelId)
    requires g.Lawful() && Network.Run(g, steps).Some?
    requires var w := Network.Run(g, steps).value; a in w.nodes && id in w.nodes[a].db && Confirmed(w.nodes[a].db[id])
    ensures var w := Network.Run(g, steps).value;
            var c := w.nodes[a].db[id];
            var b := c.peerId;
            && b in w.nodes && b != a && id in w.nodes[b].db
            && a in g.keys && b in g.keys
            && var d := w.nodes[b].db[id];
               && Awaits(d) && d.id == c.id && d.peerId == a && d.value == c.value
               && c.iAmInitiator && !d.iAmInitiator
               && (c.state.ReadyToFund? || c.state.Live? ==> c.state.commit == CommitState(d.value, 0))
               && FundingOut(g.EnvOf(a), b, c.value, true) == FundingOut(g.EnvOf(b), a, d.value, false)
  {
    var book := SoundAlways(g, steps);
    var w := Network.Run(g, steps).value;
    ConfirmedFacts(w, book, a, id);
    var c := w.nodes[a].db[id];
    GoodAt(g, w, a, id);
    BothAgree(g.EnvOf(a), g.EnvOf(c.peerId), id, CommitState(0, 0), c.value, true);
  }

  lemma GoodAt(g: Net, w: World, p: PeerId, id: ChannelId)
    requires NodesGood(g, w) && p in w.nodes && id in w.nodes[p].db
    ensures p in g.keys && w.nodes[p].db[id].id == id && Good(g.EnvOf(p), w.chain, w.nodes[p].db[id])
  {
    assert AllGood(g.EnvOf(p), w.nodes[p], w.chain);
  }

  lemma ConfirmedFacts(w: World, book: Book, a: PeerId, id: ChannelId)
    requires Inv(w, book) && a in w.nodes && id in w.nodes[a].db && Confirmed(w.nodes[a].db[id])
    ensures var c := w.nodes[a].db[id];
            && c.peerId in w.nodes && c.peerId != a && id in w.nodes[c.peerId].db
            && var d := w.nodes[c.peerId].db[id];
               Awaits(d) && d.id == id && d.peerId == a && d.value == c.value && c.iAmInitiator && !d.iAmInitiator
  {
    hide NodeOk, PacketOk, JobOk;
    StoredFacts(w, book, a, id);
    assert PresentOk(w.nodes, id, book[id]);
    StoredFacts(w, book, book[id].to, id);
  }

  /** The initiator never turns down an acknowledgement: whenever one arrives and the node is free,
      the channel is Pending and the commit signature is good. */
  lemma AcksAreNeverRejected(g: Net, steps: seq<Step>, k: nat)
    requires g.Lawful() && Network.Run(g, steps).Some?
    requires var w := Network.Run(g, steps).value; k < |w.packets| && !w.packets[k].gone && w.packets[k].reply.SendAck?
    ensures var w := Network.Run(g, steps).value;
            var m := w.packets[k];
            && m.to in w.nodes && m.to in g.keys && FundsOk(w.nodes[m.to])
            && Confirm(g.EnvOf(m.to), w.nodes[m.to].db, m.from, m.reply.ack).Success?
  {
    hide Good, NodeOk, PacketOk, Confirm, GoodCommitSig;
    var book := SoundAlways(g, steps);
    var w := Network.Run(g, steps).value;
    AckStored(w, book, k);
    var p := w.packets[k].to;
    assert AllGood(g.EnvOf(p), w.nodes[p], w.chain);
    GoodFunds(g.EnvOf(p), w.nodes[p], w.chain);
    AckAccepted(g, w, book, k);
  }

  /** Neither party's watcher is ever disappointed: whichever transaction of the channel's id the
      chain shows, it is what the watcher expects, and the watcher stores the channel as Live or as
      Funded. */
  lemma WatchersAlwaysMatch(g: Net, steps: seq<Step>, p: PeerId, i: nat, tx: Transaction)
    requires g.Lawful() && Network.Run(g, steps).Some?
    requires var w := Network.Run(g, steps).value; Possible(g, w, FireAt(p, i, tx))
    ensures var w := Network.Run(g, steps).value;
            var c := w.nodes[p].watchers[i].channel;
            var seen := Sight(g.EnvOf(p), c, tx);
            && seen.Store?
            && (if c.state.ReadyToFund? then seen.channel.state.Live? else seen.channel.state == Funded(tx))
  {
    hide Network.Run, Sound, Possible, Sight;
    var book := SoundAlways(g, steps);
    MatchesIn(g, Network.Run(g, steps).value, book, p, i, tx);
  }

  lemma MatchesIn(g: Net, w: World, book: Book, p: PeerId, i: nat, tx: Transaction)
    requires g.Lawful() && Sound(g, w, book) && Possible(g, w, FireAt(p, i, tx))
    ensures var c := w.nodes[p].watchers[i].channel;
            var seen := Sight(g.EnvOf(p), c, tx);
            && seen.Store?
            && (if c.state.ReadyToFund? then seen.channel.state.Live? else seen.channel.state == Funded(tx))
  {
    hide MessagesWorth, Inv, Good, Matches;
    var c := w.nodes[p].watchers[i].channel;
    assert AllGood(g.EnvOf(p), w.nodes[p], w.chain);
    SightingIsGood(g.EnvOf(p), w.chain, c, tx);
    if c.state.WaitingForFund? {
      OpenerKnowsFunding(g, w, book, p, i, tx);
    }
  }

  /** The opener's record of a channel fixes what any transaction of its id pays. */
  lemma FundingKnown(e: Env, chain: set<Transaction>, c: Channel, tx: Transaction)
    requires e.h.Lawful() && Good(e, chain, c) && c.iAmInitiator && e.h.txid(tx) == c.id.txid
    ensures c.id.vout < |tx.outputs| && tx.outputs[c.id.vout] == FundingOut(e, c.peerId, c.value, true)
  {
    match c.state {
      case Pending(f) =>
        FundingMatches(e.h, f, tx);
        FundedOutput(e.h, f, c.value, FundingDescriptor(e, c.peerId, true));
      case ReadyToFund(f, _, _) =>
        FundingMatches(e.h, f, tx);
        FundedOutput(e.h, f, c.value, FundingDescriptor(e, c.peerId, true));
      case Live(_, _, _) => OnChainPays(e, chain, c.id, FundingOut(e, c.peerId, c.value, true), tx);
      case Closed(_) => OnChainPays(e, chain, c.id, FundingOut(e, c.peerId, c.value, true), tx);
      case _ =>
    }
  }

  lemma OpenerKnowsFunding(g: Net, w: World, book: Book, p: PeerId, i: nat, tx: Transaction)
    requires g.Lawful() && Inv(w, book) && NodesGood(g, w) && Possible(g, w, FireAt(p, i, tx))
    requires w.nodes[p].watchers[i].channel.state.WaitingForFund?
    ensures var c := w.nodes[p].watchers[i].channel;
            c.id.vout < |tx.outputs| && tx.outputs[c.id.vout] == FundingOut(g.EnvOf(p), c.peerId, c.value, false)
  {
    hide NodeOk, PacketOk, JobOk, Sight;
    var c := w.nodes[p].watchers[i].channel;
    var a := WatcherOpener(w, book, p, i);
    GoodAt(g, w, a, c.id);
    FundingKnown(g.EnvOf(a), w.chain, w.nodes[a].db[c.id], tx);
    BothAgree(g.EnvOf(a), g.EnvOf(p), c.id, CommitState(0, 0), c.value, true);
  }

  /** The opener of a channel that its other party has stored. */
  lemma OpenerOf(w: World, book: Book, p: PeerId, id: ChannelId) returns (a: PeerId)
    requires Inv(w, book) && p in w.nodes && id in w.nodes[p].db && Awaits(w.nodes[p].db[id])
    ensures var c := w.nodes[p].db[id];
            && c.id == id && a == c.peerId && a != p && a in w.nodes && id in w.nodes[a].db
            && var d := w.nodes[a].db[id];
               d.id == id && d.iAmInitiator && d.peerId == p && d.value == c.value
  {
    hide PacketOk, JobOk, NodeOk;
    StoredFacts(w, book, p, id);
    assert PresentOk(w.nodes, id, book[id]);
    a := book[id].from;
    StoredFacts(w, book, a, id);
  }

  /** Funded means paid: the transaction stored with a Funded channel is on the chain under the
      channel's txid, and its output at the channel's position carries exactly the channel's value
      to the joint descriptor, which is the same one the opener derives; the opener holds the
      channel too, at that value. */
  lemma FundedMeansPaid(g: Net, steps: seq<Step>, p: PeerId, id: ChannelId)
    requires g.Lawful() && Network.Run(g, steps).Some?
    requires var w := Network.Run(g, steps).value; p in w.nodes && id in w.nodes[p].db && w.nodes[p].db[id].state.Funded?
    ensures var w := Network.Run(g, steps).value;
            var c := w.nodes[p].db[id];
            var a, tx := c.peerId, c.state.tx;
            && p in g.keys && a in g.keys && a != p
            && tx in w.chain && g.h.txid(tx) == id.txid && id.vout < |tx.outputs|
            && tx.outputs[id.vout] == TxOut(c.value, FundingDescriptor(g.EnvOf(p), a, false).ScriptPubkey())
            && FundingDescriptor(g.EnvOf(p), a, false) == FundingDescriptor(g.EnvOf(a), p, true)
            && a in w.nodes && id in w.nodes[a].db
            && w.nodes[a].db[id].peerId == p && w.nodes[a].db[id].value == c.value && w.nodes[a].db[id].iAmInitiator
  {
    hide Network.Run, MessagesWorth, Inv;
    var book := SoundAlways(g, steps);
    var w := Network.Run(g, steps).value;
    var a := OpenerOf(w, book, p, id);
    GoodAt(g, w, p, id);
    GoodAt(g, w, a, id);
    SharedKeys(g.s, g.keys[a], g.keys[p], true);
  }

  lemma WatcherOpener(w: World, book: Book, p: PeerId, i: nat) returns (a: PeerId)
    requires Inv(w, book) && p in w.nodes && i < |w.nodes[p].watchers| && w.nodes[p].watchers[i].live
    requires w.nodes[p].watchers[i].channel.state.WaitingForFund?
    ensures var c := w.nodes[p].watchers[i].channel;
            && a == c.peerId && a in w.nodes && c.id in w.nodes[a].db
            && var d := w.nodes[a].db[c.id];
               d.id == c.id && d.iAmInitiator && d.peerId == p && d.value == c.value
  {
    hide PacketOk, JobOk;
    var n := w.nodes[p];
    var c := n.watchers[i].channel;
    assert NodeOk(book, p, n) && WatcherOk(book, p, n.db, i, n.watchers[i]);
    a := OpenerOf(w, book, p, c.id);
  }
}
