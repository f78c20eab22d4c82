/** The invariant behind the network's safety: the story of every channel id. It says who is at
    work on which channel at each moment and holds no matter what the signatures are. */
module Stories {
  import opened Options
  import opened Crypto
  import opened Bitcoin
  import opened Channels
  import opened Nodes
  import opened Network

  // ---------------------------------------------------------------------------------------
  // The story of a channel
  // ---------------------------------------------------------------------------------------

  /** How far the opening of a channel has come. A message on the network is packet `k`. */
  datatype Stage =
    | Drafting
    | Offering
    | OfferOnNet(k: nat)
    | OfferLost
    | Accepting
    | Acking
    | AckOnNet(k: nat)
    | AckLost
    | Confirming
    | Confirmed

  /** A channel id's story: who opened it to whom, for what, how far it came, and the watchers of
      the two parties that still wait. */
  datatype Story = Story(from: PeerId, to: PeerId, value: u64, stage: Stage,
                         fromWatch: Option<nat>, toWatch: Option<nat>)

  type Book = map<ChannelId, Story>

  /** The accepting party has stored the channel. */
  predicate Accepted(t: Stage) {
    t.Acking? || t.AckOnNet? || t.AckLost? || t.Confirming? || t.Confirmed?
  }

  /** Later stories of the same openings, and perhaps new openings. */
  ghost predicate Extends(book: Book, book': Book) {
    forall id :: id in book ==>
      id in book' && book'[id].from == book[id].from && book'[id].to == book[id].to && book'[id].value == book[id].value
  }

  /** What a party may have stored for the channel. */
  predicate StoredOk(t: Story, p: PeerId, c: Channel) {
    if p == t.from then
      && c.peerId == t.to && c.value == t.value && c.iAmInitiator
      && !t.stage.Drafting?
      && (!t.stage.Confirmed? ==> c.state.Pending?)
      && (t.stage.Confirmed? ==> c.state.ReadyToFund? || c.state.Live? || c.state.Closed?)
      && (t.fromWatch.Some? ==> c.state.ReadyToFund?)
    else
      && p == t.to && c.peerId == t.from && c.value == t.value && !c.iAmInitiator
      && Accepted(t.stage)
      && (c.state.WaitingForFund? || c.state.Funded?)
      && (t.toWatch.Some? ==> c.state.WaitingForFund?)
  }

  ghost predicate DbOk(book: Book, p: PeerId, db: Db) {
    forall id :: id in db ==> id in book && StoredOk(book[id], p, db[id])
  }

  /** Both parties have stored the channel from the stage on at which they do. */
  ghost predicate PresentOk(nodes: map<PeerId, Node>, id: ChannelId, t: Story) {
    && t.from in nodes && t.from != t.to
    && (!t.stage.Drafting? ==> id in nodes[t.from].db)
    && (Accepted(t.stage) ==> t.to in nodes && id in nodes[t.to].db)
    && (!Accepted(t.stage) ==> t.toWatch.None?)
    && (!t.stage.Confirmed? ==> t.fromWatch.None?)
  }

  predicate InsertingOk(t: Story, p: PeerId, db: Db, c: Channel, reply: Reply) {
    && c.value == t.value
    && (if p == t.from then c.peerId == t.to && c.iAmInitiator else p == t.to && c.peerId == t.from && !c.iAmInitiator)
    && match c.state
       case Pending(_) =>
         t.stage.Drafting? && p == t.from && reply.SendOffer? && reply.offer.id == c.id && reply.offer.fundingSatoshis == t.value
       case WaitingForFund => t.stage.Accepting? && p == t.to && reply.SendAck? && reply.ack.id == c.id
       case ReadyToFund(_, _, _) => t.stage.Confirming? && p == t.from && reply.Silent?
       case Closed(_) =>
         t.stage.Confirmed? && p == t.from && c.id in db && db[c.id].state.Live? && reply.Silent?
       case _ => false
  }

  /** Who is at work on which channel. */
  predicate JobOk(book: Book, p: PeerId, n: Node) {
    match n.job
    case Idle => true
    case Inserting(c, reply) => c.id in book && InsertingOk(book[c.id], p, n.db, c, reply)
    case Replying(to, SendOffer(offer)) =>
      && offer.id in book
      && var t := book[offer.id];
         t.stage.Offering? && p == t.from && to == t.to && offer.fundingSatoshis == t.value
    case Replying(to, SendAck(ack)) =>
      && ack.id in book
      && var t := book[ack.id];
         t.stage.Acking? && p == t.to && to == t.from
    case Replying(_, Silent) => false
  }

  predicate PacketOk(book: Book, k: nat, m: Packet) {
    !m.gone ==>
      match m.reply
      case SendOffer(offer) =>
        && offer.id in book
        && var t := book[offer.id];
           t.stage == OfferOnNet(k) && m.from == t.from && m.to == t.to && offer.fundingSatoshis == t.value
      case SendAck(ack) =>
        && ack.id in book
        && var t := book[ack.id];
           t.stage == AckOnNet(k) && m.from == t.to && m.to == t.from
      case Silent => false
  }

  /** A watcher that still waits holds what the store holds. */
  predicate WatcherOk(book: Book, p: PeerId, db: Db, i: nat, v: Watcher) {
    v.live ==>
      && v.channel.id in book && v.channel.id in db && db[v.channel.id] == v.channel
      && Watches(v.channel)
      && var t := book[v.channel.id];
         if v.channel.state.ReadyToFund? then p == t.from && t.fromWatch == Some(i)
         else p == t.to && t.toWatch == Some(i)
  }

  ghost predicate WatchersOk(book: Book, p: PeerId, n: Node) {
    forall i :: 0 <= i < |n.watchers| ==> WatcherOk(book, p, n.db, i, n.watchers[i])
  }

  ghost predicate NodeOk(book: Book, p: PeerId, n: Node) {
    && (forall id :: id in n.db ==> n.db[id].id == id)
    && DbOk(book, p, n.db)
    && JobOk(book, p, n)
    && WatchersOk(book, p, n)
  }

  ghost predicate AllPresent(nodes: map<PeerId, Node>, book: Book) {
    forall id :: id in book ==> PresentOk(nodes, id, book[id])
  }

  ghost predicate AllNodesOk(nodes: map<PeerId, Node>, book: Book) {
    forall p :: p in nodes ==> NodeOk(book, p, nodes[p])
  }

  ghost predicate OthersOk(nodes: map<PeerId, Node>, book: Book, p: PeerId) {
    forall q :: q in nodes && q != p ==> NodeOk(book, q, nodes[q])
  }

  ghost predicate PacketsOk(packets: seq<Packet>, book: Book) {
    forall k :: 0 <= k < |packets| ==> PacketOk(book, k, packets[k])
  }

  ghost predicate Inv(w: World, book: Book) {
    && book.Keys == w.used
    && AllPresent(w.nodes, book)
    && AllNodesOk(w.nodes, book)
    && PacketsOk(w.packets, book)
  }

  // ---------------------------------------------------------------------------------------
  // Steps keep the story
  // ---------------------------------------------------------------------------------------

  /** The node's job is about channel `d`. */
  predicate JobAbout(job: Job, d: ChannelId) {
    match job
    case Idle => false
    case Inserting(c, _) => c.id == d
    case Replying(_, SendOffer(offer)) => offer.id == d
    case Replying(_, SendAck(ack)) => ack.id == d
    case Replying(_, Silent) => false
  }

  predicate PacketAbout(m: Packet, d: ChannelId) {
    !m.gone &&
    match m.reply
    case SendOffer(offer) => offer.id == d
    case SendAck(ack) => ack.id == d
    case Silent => false
  }

  /** The stages at which a node's job can be about a channel, by the part the node plays. */
  lemma JobStage(book: Book, p: PeerId, n: Node, d: ChannelId)
    requires JobOk(book, p, n) && JobAbout(n.job, d)
    ensures d in book
    ensures var t := book[d];
            if t.stage.Drafting? || t.stage.Offering? || t.stage.Confirming? || t.stage.Confirmed? then p == t.from
            else (t.stage.Accepting? || t.stage.Acking?) && p == t.to
  {
  }

  lemma PacketStage(book: Book, k: nat, m: Packet, d: ChannelId)
    requires PacketOk(book, k, m) && PacketAbout(m, d)
    ensures d in book && (book[d].stage == OfferOnNet(k) || book[d].stage == AckOnNet(k))
  {
  }

  /** Two stories of the same opening that agree on what node `p` watches. */
  predicate SameFor(u: Story, t: Story, p: PeerId) {
    && t.from == u.from && t.to == u.to && t.value == u.value
    && (p == u.from ==> t.fromWatch == u.fromWatch)
    && (p == u.to ==> t.toWatch == u.toWatch)
  }

  /** Changing the story of `d` leaves a node right that is not at work on `d` and whose store and
      watchers agree with the new story. */
  lemma NodeFrame(book: Book, p: PeerId, n: Node, d: ChannelId, t: Story)
    requires NodeOk(book, p, n) && !JobAbout(n.job, d)
    requires d in n.db ==> StoredOk(t, p, n.db[d])
    requires d in book ==> SameFor(book[d], t, p)
    ensures NodeOk(book[d := t], p, n)
  {
    forall i | 0 <= i < |n.watchers|
      ensures WatcherOk(book[d := t], p, n.db, i, n.watchers[i])
    {
      assert WatcherOk(book, p, n.db, i, n.watchers[i]);
    }
  }

  /** Changing the story of `d` leaves the packets right when none is about `d`. */
  lemma PacketsFrame(packets: seq<Packet>, book: Book, d: ChannelId, t: Story)
    requires PacketsOk(packets, book)
    requires forall k :: 0 <= k < |packets| ==> !PacketAbout(packets[k], d)
    ensures PacketsOk(packets, book[d := t])
  {
    forall k | 0 <= k < |packets|
      ensures PacketOk(book[d := t], k, packets[k])
    {
      assert PacketOk(book, k, packets[k]) && !PacketAbout(packets[k], d);
    }
  }

  /** A store that may have gained `d`. */
  ghost predicate Gains(db: Db, db': Db, d: ChannelId) {
    && (forall id :: id in db ==> id in db')
    && (forall id :: id in db' ==> id in db || id == d)
  }

  /** Only node `p` changed, to `n`. */
  ghost predicate NodeBecame(w: World, w': World, p: PeerId, n: Node) {
    p in w.nodes && w'.nodes == w.nodes[p := n]
  }

  /** Nobody but node `p` is at work on `d`, and no packet is about it. */
  ghost predicate Exclusive(w: World, p: PeerId, d: ChannelId) {
    && (forall q :: q in w.nodes && q != p ==> !JobAbout(w.nodes[q].job, d))
    && (forall k :: 0 <= k < |w.packets| ==> !PacketAbout(w.packets[k], d))
  }

  lemma PresentFrame(nodes: map<PeerId, Node>, p: PeerId, n': Node, d: ChannelId, id: ChannelId, t: Story)
    requires p in nodes && Gains(nodes[p].db, n'.db, d) && PresentOk(nodes, id, t)
    ensures id != d ==> PresentOk(nodes[p := n'], id, t)
  {
  }

  /** Putting a step together: node `p` became `n'` and moved the story of `d` on to `t`. */
  lemma Assemble(w: World, w': World, book: Book, p: PeerId, n': Node, d: ChannelId, t: Story)
    requires Inv(w, book) && NodeBecame(w, w', p, n') && Gains(w.nodes[p].db, n'.db, d)
    requires w'.used == w.used + {d}
    requires PresentOk(w'.nodes, d, t)
    requires NodeOk(book[d := t], p, n')
    requires OthersOk(w.nodes, book[d := t], p)
    requires PacketsOk(w'.packets, book[d := t])
    ensures Inv(w', book[d := t])
  {
    var book' := book[d := t];
    forall id: ChannelId | id in book'
      ensures PresentOk(w'.nodes, id, book'[id])
    {
      if id != d {
        PresentFrame(w.nodes, p, n', d, id, book[id]);
      }
    }
  }

  lemma OthersFrame(w: World, book: Book, p: PeerId, d: ChannelId, t: Story)
    requires Inv(w, book)
    requires forall q :: q in w.nodes && q != p ==> !JobAbout(w.nodes[q].job, d)
    requires d in book ==> forall q :: q in w.nodes && q != p ==> SameFor(book[d], t, q)
    requires forall q :: q in w.nodes && q != p && d in w.nodes[q].db ==> StoredOk(t, q, w.nodes[q].db[d])
    ensures OthersOk(w.nodes, book[d := t], p)
  {
    forall q | q in w.nodes && q != p
      ensures NodeOk(book[d := t], q, w.nodes[q])
    {
      NodeFrame(book, q, w.nodes[q], d, t);
    }
  }

  lemma WorkIsExclusive(w: World, book: Book, p: PeerId, d: ChannelId)
    requires Inv(w, book) && p in w.nodes && JobAbout(w.nodes[p].job, d)
    ensures d in book && Exclusive(w, p, d)
  {
    assert NodeOk(book, p, w.nodes[p]);
    JobStage(book, p, w.nodes[p], d);
    forall q | q in w.nodes && q != p
      ensures !JobAbout(w.nodes[q].job, d)
    {
      assert NodeOk(book, q, w.nodes[q]) && PresentOk(w.nodes, d, book[d]);
      if JobAbout(w.nodes[q].job, d) {
        JobStage(book, q, w.nodes[q], d);
      }
    }
    forall k | 0 <= k < |w.packets|
      ensures !PacketAbout(w.packets[k], d)
    {
      if PacketAbout(w.packets[k], d) {
        PacketStage(book, k, w.packets[k], d);
      }
    }
  }

  /** Nobody mentions an id that has no story. */
  lemma FreshIsExclusive(w: World, book: Book, p: PeerId, d: ChannelId)
    requires Inv(w, book) && d !in book
    ensures Exclusive(w, p, d) && (p in w.nodes ==> !JobAbout(w.nodes[p].job, d))
    ensures forall q :: q in w.nodes ==> d !in w.nodes[q].db
  {
    forall q | q in w.nodes
      ensures !JobAbout(w.nodes[q].job, d) && d !in w.nodes[q].db
    {
      assert NodeOk(book, q, w.nodes[q]);
      if JobAbout(w.nodes[q].job, d) {
        JobStage(book, q, w.nodes[q], d);
      }
    }
    forall k | 0 <= k < |w.packets|
      ensures !PacketAbout(w.packets[k], d)
    {
      if PacketAbout(w.packets[k], d) {
        PacketStage(book, k, w.packets[k], d);
      }
    }
  }

  /** The story after the lock holder of a node stored its channel. */
  function Stored(t: Story, n: Node): Story
    requires n.job.Inserting?
  {
    match n.job.channel.state
    case Pending(_) => t.(stage := Offering)
    case WaitingForFund => t.(stage := Acking, toWatch := Some(|n.watchers|))
    case ReadyToFund(_, _, _) => t.(stage := Confirmed, fromWatch := Some(|n.watchers|))
    case _ => t
  }

  lemma StoredKeepsOther(t: Story, p: PeerId, n: Node, q: PeerId, c: Channel)
    requires n.job.Inserting? && InsertingOk(t, p, n.db, n.job.channel, n.job.reply) && t.from != t.to
    requires q != p && StoredOk(t, q, c)
    ensures StoredOk(Stored(t, n), q, c)
  {
  }

  ghost predicate Inserts(n: Node, n': Node) {
    && n.job.Inserting?
    && var c := n.job.channel;
       && n'.db == n.db[c.id := c]
       && n'.watchers == n.watchers + (if Watches(c) then [Watcher(c, true)] else [])
       && n'.job == if n.job.reply.Silent? then Idle else Replying(c.peerId, n.job.reply)
  }

  lemma InsertDb(book: Book, p: PeerId, n: Node, n': Node)
    requires Inserts(n, n') && NodeOk(book, p, n) && book[n.job.channel.id].from != book[n.job.channel.id].to
    requires !book[n.job.channel.id].stage.Confirmed? ==> book[n.job.channel.id].fromWatch.None?
    ensures DbOk(book[n.job.channel.id := Stored(book[n.job.channel.id], n)], p, n'.db)
  {
    var c := n.job.channel;
    var t := Stored(book[c.id], n);
    forall id | id in n'.db
      ensures id in book[c.id := t] && StoredOk(book[c.id := t][id], p, n'.db[id])
    {
      if id != c.id {
        assert StoredOk(book[id], p, n.db[id]);
      } else if c.id in n.db {
        assert StoredOk(book[id], p, n.db[id]);
      }
    }
  }

  lemma InsertWatchers(book: Book, p: PeerId, n: Node, n': Node)
    requires Inserts(n, n') && NodeOk(book, p, n)
    requires !book[n.job.channel.id].stage.Confirmed? ==> book[n.job.channel.id].fromWatch.None?
    requires !Accepted(book[n.job.channel.id].stage) ==> book[n.job.channel.id].toWatch.None?
    ensures WatchersOk(book[n.job.channel.id := Stored(book[n.job.channel.id], n)], p, n')
  {
    var c := n.job.channel;
    var book' := book[c.id := Stored(book[c.id], n)];
    forall i | 0 <= i < |n'.watchers|
      ensures WatcherOk(book', p, n'.db, i, n'.watchers[i])
    {
      if i < |n.watchers| {
        assert WatcherOk(book, p, n.db, i, n.watchers[i]);
      }
    }
  }

  /** The storing node itself. */
  lemma InsertNode(w: World, book: Book, p: PeerId, n': Node)
    requires Inv(w, book) && p in w.nodes && Inserts(w.nodes[p], n')
    ensures var n := w.nodes[p];
            n.job.channel.id in book && NodeOk(book[n.job.channel.id := Stored(book[n.job.channel.id], n)], p, n')
  {
    var n := w.nodes[p];
    assert NodeOk(book, p, n);
    assert PresentOk(w.nodes, n.job.channel.id, book[n.job.channel.id]);
    InsertDb(book, p, n, n');
    InsertWatchers(book, p, n, n');
  }

  lemma InsertOthers(w: World, book: Book, p: PeerId)
    requires Inv(w, book) && p in w.nodes && w.nodes[p].job.Inserting?
    ensures var n := w.nodes[p];
            var d := n.job.channel.id;
            && d in book && Exclusive(w, p, d) && JobOk(book, p, n)
            && OthersOk(w.nodes, book[d := Stored(book[d], n)], p)
  {
    var n := w.nodes[p];
    var d := n.job.channel.id;
    assert NodeOk(book, p, n);
    var t := Stored(book[d], n);
    assert PresentOk(w.nodes, d, book[d]);
    WorkIsExclusive(w, book, p, d);
    forall q | q in w.nodes && q != p && d in w.nodes[q].db
      ensures StoredOk(t, q, w.nodes[q].db[d])
    {
      assert NodeOk(book, q, w.nodes[q]);
      StoredKeepsOther(book[d], p, n, q, w.nodes[q].db[d]);
    }
    OthersFrame(w, book, p, d, t);
  }

  lemma InsertPresent(nodes: map<PeerId, Node>, book: Book, p: PeerId, n': Node)
    requires p in nodes && Inserts(nodes[p], n') && JobOk(book, p, nodes[p])
    requires AllPresent(nodes, book)
    ensures var n := nodes[p];
            var d := n.job.channel.id;
            d in book && PresentOk(nodes[p := n'], d, Stored(book[d], n)) && Gains(n.db, n'.db, d)
  {
    assert PresentOk(nodes, nodes[p].job.channel.id, book[nodes[p].job.channel.id]);
  }

  lemma InsertStep(w: World, w': World, book: Book, p: PeerId, n': Node) returns (book': Book)
    requires Inv(w, book) && NodeBecame(w, w', p, n') && Inserts(w.nodes[p], n')
    requires w'.packets == w.packets && w'.used == w.used
    ensures Inv(w', book') && Extends(book, book')
  {
    hide NodeOk, PacketOk, JobOk, PresentOk;
    var n := w.nodes[p];
    var d := n.job.channel.id;
    InsertOthers(w, book, p);
    InsertPresent(w.nodes, book, p, n');
    InsertNode(w, book, p, n');
    var t := Stored(book[d], n);
    PacketsFrame(w.packets, book, d, t);
    Assemble(w, w', book, p, n', d, t);
    book' := book[d := t];
  }

  // Opening --------------------------------------------------------------------------------

  /** The lock holder starts to open channel `d` to `peer`. */
  ghost predicate Drafts(n: Node, n': Node, d: ChannelId, peer: PeerId, value: u64) {
    && n.job.Idle? && n' == n.(job := n'.job) && n'.job.Inserting?
    && var c, reply := n'.job.channel, n'.job.reply;
       && c.id == d && c.state.Pending? && c.peerId == peer && c.value == value && c.iAmInitiator
       && reply.SendOffer? && reply.offer.id == d && reply.offer.fundingSatoshis == value
  }

  lemma NewStep(w: World, w': World, book: Book, p: PeerId, n': Node, d: ChannelId, peer: PeerId, value: u64)
    returns (book': Book)
    requires Inv(w, book) && NodeBecame(w, w', p, n') && Drafts(w.nodes[p], n', d, peer, value)
    requires d !in w.used && p != peer && w'.used == w.used + {d} && w'.packets == w.packets
    ensures Inv(w', book') && Extends(book, book')
  {
    hide NodeOk, PacketOk, JobOk;
    var t := Story(p, peer, value, Drafting, None, None);
    book' := book[d := t];
    FreshIsExclusive(w, book, p, d);
    OthersFrame(w, book, p, d, t);
    PacketsFrame(w.packets, book, d, t);
    NewNode(book, p, w.nodes[p], n', d, peer, value);
    Assemble(w, w', book, p, n', d, t);
  }

  lemma NewNode(book: Book, p: PeerId, n: Node, n': Node, d: ChannelId, peer: PeerId, value: u64)
    requires NodeOk(book, p, n) && Drafts(n, n', d, peer, value) && d !in book && d !in n.db
    ensures NodeOk(book[d := Story(p, peer, value, Drafting, None, None)], p, n')
  {
    NodeFrame(book, p, n, d, Story(p, peer, value, Drafting, None, None));
  }

  // Sending --------------------------------------------------------------------------------

  /** The channel a reply is about. */
  function IdOfReply(reply: Reply): ChannelId
    requires !reply.Silent?
  {
    match reply
    case SendOffer(offer) => offer.id
    case SendAck(ack) => ack.id
  }

  /** Stages between which the stores need not change. */
  predicate SameStores(t: Stage, u: Stage) {
    && Accepted(t) == Accepted(u) && !t.Drafting? && !u.Drafting? && !t.Confirmed? && !u.Confirmed?
  }

  /** A node that changed its job only. */
  predicate SameButJob(n: Node, n': Node) {
    n' == n.(job := n'.job)
  }

  /** The story of `d` moves on between stages with the same stores, and so do the job of node
      `p` and the packets. */
  lemma Restage(w: World, w': World, book: Book, p: PeerId, n': Node, d: ChannelId, stage: Stage)
    requires Inv(w, book) && d in book && SameStores(book[d].stage, stage)
    requires NodeBecame(w, w', p, n') && SameButJob(w.nodes[p], n') && w'.used == w.used
    requires forall q :: q in w.nodes && q != p ==> !JobAbout(w.nodes[q].job, d)
    requires JobOk(book[d := book[d].(stage := stage)], p, n')
    requires PacketsOk(w'.packets, book[d := book[d].(stage := stage)])
    ensures Inv(w', book[d := book[d].(stage := stage)])
  {
    hide NodeOk, PacketOk, JobOk, PresentOk;
    var t := book[d].(stage := stage);
    RestageNodes(w, book, p, n', d, stage);
    RestagePresent(w, book, p, n', d, stage);
    Assemble(w, w', book, p, n', d, t);
  }

  lemma RestagePresent(w: World, book: Book, p: PeerId, n': Node, d: ChannelId, stage: Stage)
    requires p in w.nodes && SameButJob(w.nodes[p], n')
    requires AllPresent(w.nodes, book) && d in book && SameStores(book[d].stage, stage)
    ensures PresentOk(w.nodes[p := n'], d, book[d].(stage := stage)) && Gains(w.nodes[p].db, n'.db, d)
  {
    assert PresentOk(w.nodes, d, book[d]);
  }

  lemma RestageNodes(w: World, book: Book, p: PeerId, n': Node, d: ChannelId, stage: Stage)
    requires AllNodesOk(w.nodes, book) && d in book && SameStores(book[d].stage, stage)
    requires p in w.nodes && SameButJob(w.nodes[p], n')
    requires forall q :: q in w.nodes && q != p ==> !JobAbout(w.nodes[q].job, d)
    requires JobOk(book[d := book[d].(stage := stage)], p, n')
    ensures OthersOk(w.nodes, book[d := book[d].(stage := stage)], p)
    ensures NodeOk(book[d := book[d].(stage := stage)], p, n')
  {
    var t := book[d].(stage := stage);
    forall q | q in w.nodes && q != p
      ensures NodeOk(book[d := t], q, w.nodes[q])
    {
      assert NodeOk(book, q, w.nodes[q]);
      NodeFrame(book, q, w.nodes[q], d, t);
    }
    assert NodeOk(book, p, w.nodes[p]);
    NodeFrame(book, p, w.nodes[p].(job := Idle), d, t);
  }

  /** The lock holder let go of the lock after its message became packet `k`, or was lost. */
  lemma SendStep(w: World, w': World, book: Book, p: PeerId, lost: bool) returns (book': Book)
    requires Inv(w, book) && p in w.nodes && w.nodes[p].job.Replying?
    requires NodeBecame(w, w', p, w.nodes[p].(job := Idle)) && w'.used == w.used
    requires w'.packets == if lost then w.packets else w.packets + [Packet(p, w.nodes[p].job.to, w.nodes[p].job.reply, false)]
    ensures Inv(w', book') && Extends(book, book')
  {
    hide NodeOk, PacketOk, PacketsOk, PresentOk, AllPresent, AllNodesOk;
    var n := w.nodes[p];
    var d := SendFacts(w, book, p);
    var stage := SentStage(n.job.reply, |w.packets|, lost);
    var t := book[d].(stage := stage);
    PacketsFrame(w.packets, book, d, t);
    SentPackets(w, book, p, d, t);
    Restage(w, w', book, p, n.(job := Idle), d, stage);
    book' := book[d := t];
  }

  function SentStage(reply: Reply, k: nat, lost: bool): Stage {
    if reply.SendOffer? then (if lost then OfferLost else OfferOnNet(k)) else (if lost then AckLost else AckOnNet(k))
  }

  lemma SendFacts(w: World, book: Book, p: PeerId) returns (d: ChannelId)
    requires Inv(w, book) && p in w.nodes && w.nodes[p].job.Replying?
    ensures !w.nodes[p].job.reply.Silent? && d == IdOfReply(w.nodes[p].job.reply)
    ensures d in book && Exclusive(w, p, d) && JobOk(book, p, w.nodes[p])
    ensures book[d].stage == if w.nodes[p].job.reply.SendOffer? then Offering else Acking
  {
    hide NodeOk, PacketOk, JobOk, PresentOk;
    d := ReplyFacts(book, p, w.nodes[p]);
    WorkIsExclusive(w, book, p, d);
  }

  lemma ReplyFacts(book: Book, p: PeerId, n: Node) returns (d: ChannelId)
    requires NodeOk(book, p, n) && n.job.Replying?
    ensures !n.job.reply.Silent? && d == IdOfReply(n.job.reply) && JobAbout(n.job, d) && JobOk(book, p, n)
    ensures d in book && book[d].stage == if n.job.reply.SendOffer? then Offering else Acking
  {
    d := IdOfReply(n.job.reply);
  }

  lemma SentPackets(w: World, book: Book, p: PeerId, d: ChannelId, t: Story)
    requires p in w.nodes && w.nodes[p].job.Replying? && JobOk(book, p, w.nodes[p])
    requires d == IdOfReply(w.nodes[p].job.reply) && t == book[d].(stage := t.stage)
    requires PacketsOk(w.packets, book[d := t])
    ensures t.stage == SentStage(w.nodes[p].job.reply, |w.packets|, false) ==>
              PacketsOk(w.packets + [Packet(p, w.nodes[p].job.to, w.nodes[p].job.reply, false)], book[d := t])
  {
    var all := w.packets + [Packet(p, w.nodes[p].job.to, w.nodes[p].job.reply, false)];
    if t.stage == SentStage(w.nodes[p].job.reply, |w.packets|, false) {
      forall k | 0 <= k < |all|
        ensures PacketOk(book[d := t], k, all[k])
      {
        assert k < |w.packets| ==> PacketOk(book[d := t], k, w.packets[k]);
      }
    }
  }

  // Receiving ------------------------------------------------------------------------------

  /** The lock holder, which held nothing, took up channel `d` for its first or second store. */
  ghost predicate TakesUp(n: Node, n': Node, d: ChannelId) {
    n.job.Idle? && n'.job.Inserting? && SameButJob(n, n') && n'.job.channel.id == d
  }

  lemma PacketIsExclusive(w: World, book: Book, k: nat, d: ChannelId)
    requires Inv(w, book) && k < |w.packets| && PacketAbout(w.packets[k], d)
    ensures d in book && (book[d].stage == OfferOnNet(k) || book[d].stage == AckOnNet(k))
    ensures forall q :: q in w.nodes ==> !JobAbout(w.nodes[q].job, d)
    ensures forall j :: 0 <= j < |w.packets| && j != k ==> !PacketAbout(w.packets[j], d)
  {
    PacketStage(book, k, w.packets[k], d);
    forall q | q in w.nodes
      ensures !JobAbout(w.nodes[q].job, d)
    {
      assert NodeOk(book, q, w.nodes[q]);
      if JobAbout(w.nodes[q].job, d) {
        JobStage(book, q, w.nodes[q], d);
      }
    }
    forall j | 0 <= j < |w.packets| && j != k
      ensures !PacketAbout(w.packets[j], d)
    {
      if PacketAbout(w.packets[j], d) {
        PacketStage(book, j, w.packets[j], d);
      }
    }
  }

  lemma GoneFrame(w: World, book: Book, k: nat, d: ChannelId, t: Story)
    requires Inv(w, book) && k < |w.packets|
    requires forall j :: 0 <= j < |w.packets| && j != k ==> !PacketAbout(w.packets[j], d)
    ensures PacketsOk(Gone(w.packets, k), book[d := t])
  {
    forall j | 0 <= j < |w.packets|
      ensures PacketOk(book[d := t], j, Gone(w.packets, k)[j])
    {
      assert PacketOk(book, j, w.packets[j]);
    }
  }

  /** Packet `k` is about channel `d`: the stage, and whom the packet goes to. */
  lemma PacketFacts(w: World, book: Book, k: nat)
    requires Inv(w, book) && k < |w.packets| && !w.packets[k].gone
    ensures var m := w.packets[k];
            && !m.reply.Silent?
            && var d := IdOfReply(m.reply);
               && d in book && PacketAbout(m, d) && PresentOk(w.nodes, d, book[d])
               && book[d].stage == (if m.reply.SendOffer? then OfferOnNet(k) else AckOnNet(k))
               && m.to == (if m.reply.SendOffer? then book[d].to else book[d].from)
               && m.from == (if m.reply.SendOffer? then book[d].from else book[d].to)
               && (m.reply.SendOffer? ==> m.reply.offer.fundingSatoshis == book[d].value)
  {
    assert PacketOk(book, k, w.packets[k]);
  }

  /** A packet is lost, or is an acknowledgement that its receiver turns down. */
  lemma LoseStep(w: World, w': World, book: Book, k: nat) returns (book': Book)
    requires Inv(w, book) && k < |w.packets| && !w.packets[k].gone
    requires w' == w.(packets := Gone(w.packets, k))
    ensures Inv(w', book') && Extends(book, book')
  {
    hide NodeOk, PacketOk, JobOk, PresentOk;
    PacketFacts(w, book, k);
    var d := IdOfReply(w.packets[k].reply);
    PacketIsExclusive(w, book, k, d);
    var stage := if book[d].stage.OfferOnNet? then OfferLost else AckLost;
    var p := book[d].from;
    GoneFrame(w, book, k, d, book[d].(stage := stage));
    IdleFrame(w, book, p, d, book[d].(stage := stage));
    Restage(w, w', book, p, w.nodes[p], d, stage);
    book' := book[d := book[d].(stage := stage)];
  }

  lemma IdleFrame(w: World, book: Book, p: PeerId, d: ChannelId, t: Story)
    requires AllNodesOk(w.nodes, book) && p in w.nodes && !JobAbout(w.nodes[p].job, d)
    ensures JobOk(book[d := t], p, w.nodes[p]) && w.nodes == w.nodes[p := w.nodes[p]]
  {
    assert NodeOk(book, p, w.nodes[p]);
  }

  /** The receiver of an offer starts to accept it. */
  lemma OfferStep(w: World, w': World, book: Book, k: nat, n': Node) returns (book': Book)
    requires Inv(w, book) && k < |w.packets| && !w.packets[k].gone && w.packets[k].reply.SendOffer?
    requires NodeBecame(w, w', w.packets[k].to, n') && w'.used == w.used && w'.packets == Gone(w.packets, k)
    requires var m := w.packets[k];
             && TakesUp(w.nodes[m.to], n', m.reply.offer.id)
             && n'.job.channel == AcceptedChannel(m.from, m.reply.offer)
             && n'.job.reply.SendAck? && n'.job.reply.ack.id == m.reply.offer.id
    ensures Inv(w', book') && Extends(book, book')
  {
    hide NodeOk, PacketOk, PacketsOk, PresentOk, AllPresent, AllNodesOk;
    var m := w.packets[k];
    var d := m.reply.offer.id;
    PacketFacts(w, book, k);
    PacketIsExclusive(w, book, k, d);
    GoneFrame(w, book, k, d, book[d].(stage := Accepting));
    Restage(w, w', book, m.to, n', d, Accepting);
    book' := book[d := book[d].(stage := Accepting)];
  }

  /** The receiver of an acknowledgement confirms the channel. */
  lemma AckStep(w: World, w': World, book: Book, k: nat, n': Node) returns (book': Book)
    requires Inv(w, book) && k < |w.packets| && !w.packets[k].gone && w.packets[k].reply.SendAck?
    requires NodeBecame(w, w', w.packets[k].to, n') && w'.used == w.used && w'.packets == Gone(w.packets, k)
    requires var n, id := w.nodes[w.packets[k].to], w.packets[k].reply.ack.id;
             && TakesUp(n, n', id) && n'.job.reply.Silent?
             && id in n.db && n'.job.channel == n.db[id].(state := n'.job.channel.state)
             && n'.job.channel.state.ReadyToFund?
    ensures Inv(w', book') && Extends(book, book')
  {
    hide NodeOk, PacketOk, PacketsOk, PresentOk, AllPresent, AllNodesOk;
    var m := w.packets[k];
    var d := m.reply.ack.id;
    PacketFacts(w, book, k);
    PacketIsExclusive(w, book, k, d);
    StoredFacts(w, book, m.to, d);
    GoneFrame(w, book, k, d, book[d].(stage := Confirming));
    Restage(w, w', book, m.to, n', d, Confirming);
    book' := book[d := book[d].(stage := Confirming)];
  }

  lemma StoredFacts(w: World, book: Book, p: PeerId, d: ChannelId)
    requires AllNodesOk(w.nodes, book) && p in w.nodes && d in w.nodes[p].db
    ensures d in book && StoredOk(book[d], p, w.nodes[p].db[d]) && w.nodes[p].db[d].id == d
  {
    assert NodeOk(book, p, w.nodes[p]);
  }

  // Closing --------------------------------------------------------------------------------

  /** The lock holder starts to close a live channel. */
  lemma CloseStep(w: World, w': World, book: Book, p: PeerId, n': Node, id: ChannelId)
    requires Inv(w, book) && NodeBecame(w, w', p, n') && w'.used == w.used && w'.packets == w.packets
    requires var n := w.nodes[p];
             && TakesUp(n, n', id) && n'.job.reply.Silent?
             && id in n.db && n.db[id].state.Live?
             && n'.job.channel == n.db[id].(state := n'.job.channel.state) && n'.job.channel.state.Closed?
    ensures Inv(w', book)
  {
    hide NodeOk, PacketOk, JobOk;
    var n := w.nodes[p];
    StoredFacts(w, book, p, id);
    CloseFacts(w.nodes, book, p, id);
    PresentSameDb(w.nodes, p, n', id, book[id]);
    CloseJob(book, p, n, n', id);
    assert book == book[id := book[id]];
    assert OthersOk(w.nodes, book, p);
    Assemble(w, w', book, p, n', id, book[id]);
  }

  /** Changing a node's job leaves every story's channels where they are. */
  lemma PresentSameDb(nodes: map<PeerId, Node>, p: PeerId, n': Node, id: ChannelId, t: Story)
    requires p in nodes && SameButJob(nodes[p], n') && PresentOk(nodes, id, t)
    ensures PresentOk(nodes[p := n'], id, t) && Gains(nodes[p].db, n'.db, id)
  {
  }

  lemma CloseFacts(nodes: map<PeerId, Node>, book: Book, p: PeerId, id: ChannelId)
    requires AllPresent(nodes, book) && AllNodesOk(nodes, book) && p in nodes && id in book
    ensures PresentOk(nodes, id, book[id]) && NodeOk(book, p, nodes[p]) && OthersOk(nodes, book, p)
    ensures book[id].from != book[id].to
  {
    assert PresentOk(nodes, id, book[id]);
  }

  lemma CloseJob(book: Book, p: PeerId, n: Node, n': Node, id: ChannelId)
    requires NodeOk(book, p, n) && id in book && book[id].from != book[id].to
    requires TakesUp(n, n', id) && n'.job.reply.Silent?
    requires id in n.db && n.db[id].state.Live?
    requires n'.job.channel == n.db[id].(state := n'.job.channel.state) && n'.job.channel.state.Closed?
    ensures NodeOk(book, p, n')
  {
    assert StoredOk(book[id], p, n.db[id]);
    assert JobOk(book, p, n');
    hide JobOk, DbOk;
  }

  // Watching -------------------------------------------------------------------------------

  /** Watcher `i` ended, and stored its channel in its new state or stored nothing. */
  ghost predicate Fires(n: Node, n': Node, i: nat) {
    && i < |n.watchers| && n.watchers[i].live
    && var c := n.watchers[i].channel;
       && n' == n.(db := n'.db, watchers := n.watchers[i := Watcher(c, false)], panicked := n'.panicked)
       && (n'.db == n.db || exists state ::
             && n'.db == n.db[c.id := c.(state := state)]
             && (if c.state.ReadyToFund? then state.Live? else state.Funded?))
  }

  /** The story after watcher `i` of the node ended. */
  function Seen(t: Story, c: Channel): Story {
    if c.state.ReadyToFund? then t.(fromWatch := None) else t.(toWatch := None)
  }

  lemma FireNode(w: World, book: Book, p: PeerId, i: nat, n': Node)
    requires Inv(w, book) && p in w.nodes && Fires(w.nodes[p], n', i)
    ensures var c := w.nodes[p].watchers[i].channel;
            c.id in book && NodeOk(book[c.id := Seen(book[c.id], c)], p, n')
  {
    var n := w.nodes[p];
    assert NodeOk(book, p, n);
    var c := n.watchers[i].channel;
    assert WatcherOk(book, p, n.db, i, n.watchers[i]);
    assert PresentOk(w.nodes, c.id, book[c.id]);
    var t := Seen(book[c.id], c);
    FireDb(book, p, n, i, n');
    FireWatchers(book, p, n, i, n');
    FireJob(book, p, n, i, n');
  }

  lemma FireDb(book: Book, p: PeerId, n: Node, i: nat, n': Node)
    requires NodeOk(book, p, n) && Fires(n, n', i)
    requires WatcherOk(book, p, n.db, i, n.watchers[i])
    requires book[n.watchers[i].channel.id].from != book[n.watchers[i].channel.id].to
    ensures var c := n.watchers[i].channel;
            && DbOk(book[c.id := Seen(book[c.id], c)], p, n'.db)
            && (forall id :: id in n'.db ==> n'.db[id].id == id)
  {
    var c := n.watchers[i].channel;
    assert StoredOk(book[c.id], p, n.db[c.id]);
    forall id | id in n'.db
      ensures var book' := book[c.id := Seen(book[c.id], c)]; id in book' && StoredOk(book'[id], p, n'.db[id])
    {
      if id != c.id {
        assert StoredOk(book[id], p, n.db[id]);
      }
    }
  }

  lemma FireWatchers(book: Book, p: PeerId, n: Node, i: nat, n': Node)
    requires NodeOk(book, p, n) && Fires(n, n', i)
    requires WatcherOk(book, p, n.db, i, n.watchers[i])
    requires book[n.watchers[i].channel.id].from != book[n.watchers[i].channel.id].to
    ensures var c := n.watchers[i].channel; WatchersOk(book[c.id := Seen(book[c.id], c)], p, n')
  {
    var c := n.watchers[i].channel;
    var book' := book[c.id := Seen(book[c.id], c)];
    forall j | 0 <= j < |n'.watchers|
      ensures WatcherOk(book', p, n'.db, j, n'.watchers[j])
    {
      if j != i {
        assert WatcherOk(book, p, n.db, j, n.watchers[j]);
      }
    }
  }

  lemma FireJob(book: Book, p: PeerId, n: Node, i: nat, n': Node)
    requires NodeOk(book, p, n) && Fires(n, n', i)
    requires WatcherOk(book, p, n.db, i, n.watchers[i])
    requires book[n.watchers[i].channel.id].from != book[n.watchers[i].channel.id].to
    ensures var c := n.watchers[i].channel; JobOk(book[c.id := Seen(book[c.id], c)], p, n')
  {
    var c := n.watchers[i].channel;
    assert StoredOk(book[c.id], p, n.db[c.id]);
  }

  lemma WatcherFacts(nodes: map<PeerId, Node>, book: Book, p: PeerId, i: nat)
    requires AllPresent(nodes, book) && AllNodesOk(nodes, book) && p in nodes
    requires i < |nodes[p].watchers| && nodes[p].watchers[i].live
    ensures var c := nodes[p].watchers[i].channel;
            && c.id in book && c.id in nodes[p].db && PresentOk(nodes, c.id, book[c.id])
            && (if c.state.ReadyToFund? then p == book[c.id].from else p == book[c.id].to)
  {
    var n := nodes[p];
    assert NodeOk(book, p, n) && WatcherOk(book, p, n.db, i, n.watchers[i]);
    assert PresentOk(nodes, n.watchers[i].channel.id, book[n.watchers[i].channel.id]);
  }

  lemma FirePresent(nodes: map<PeerId, Node>, book: Book, p: PeerId, i: nat, n': Node)
    requires p in nodes && Fires(nodes[p], n', i)
    requires var c := nodes[p].watchers[i].channel; c.id in book && c.id in nodes[p].db && PresentOk(nodes, c.id, book[c.id])
    ensures var n := nodes[p];
            var c := n.watchers[i].channel;
            PresentOk(nodes[p := n'], c.id, Seen(book[c.id], c)) && Gains(n.db, n'.db, c.id)
  {
  }

  lemma FireStep(w: World, w': World, book: Book, p: PeerId, i: nat, n': Node) returns (book': Book)
    requires Inv(w, book) && NodeBecame(w, w', p, n') && Fires(w.nodes[p], n', i)
    requires w'.used == w.used && w'.packets == w.packets
    ensures Inv(w', book') && Extends(book, book')
  {
    hide NodeOk, PacketOk, JobOk;
    var c := w.nodes[p].watchers[i].channel;
    WatcherFacts(w.nodes, book, p, i);
    FirePresent(w.nodes, book, p, i, n');
    var t := Seen(book[c.id], c);
    FireNode(w, book, p, i, n');
    FireOthers(w, book, p, c.id, t);
    FirePackets(w.packets, book, c.id, t);
    Assemble(w, w', book, p, n', c.id, t);
    book' := book[c.id := t];
  }

  /** Nobody else's part of the story says what `p` watches. */
  lemma FireOthers(w: World, book: Book, p: PeerId, d: ChannelId, t: Story)
    requires Inv(w, book) && d in book && p in w.nodes && book[d].from != book[d].to
    requires t == book[d].(fromWatch := t.fromWatch, toWatch := t.toWatch)
    requires p != book[d].from ==> t.fromWatch == book[d].fromWatch
    requires p != book[d].to ==> t.toWatch == book[d].toWatch
    requires t.fromWatch.Some? ==> t.fromWatch == book[d].fromWatch
    requires t.toWatch.Some? ==> t.toWatch == book[d].toWatch
    ensures OthersOk(w.nodes, book[d := t], p)
  {
    forall q | q in w.nodes && q != p
      ensures NodeOk(book[d := t], q, w.nodes[q])
    {
      assert NodeOk(book, q, w.nodes[q]);
      FireOther(book, q, w.nodes[q], d, t);
    }
  }

  lemma FireOther(book: Book, q: PeerId, n: Node, d: ChannelId, t: Story)
    requires NodeOk(book, q, n) && d in book && book[d].from != book[d].to
    requires t == book[d].(fromWatch := t.fromWatch, toWatch := t.toWatch)
    requires q == book[d].from ==> t.fromWatch == book[d].fromWatch
    requires q == book[d].to ==> t.toWatch == book[d].toWatch
    requires t.fromWatch.Some? ==> t.fromWatch == book[d].fromWatch
    requires t.toWatch.Some? ==> t.toWatch == book[d].toWatch
    ensures NodeOk(book[d := t], q, n)
  {
    forall j | 0 <= j < |n.watchers|
      ensures WatcherOk(book[d := t], q, n.db, j, n.watchers[j])
    {
      assert WatcherOk(book, q, n.db, j, n.watchers[j]);
    }
    forall id | id in n.db
      ensures id in book[d := t] && StoredOk(book[d := t][id], q, n.db[id])
    {
      assert StoredOk(book[id], q, n.db[id]);
    }
  }

  lemma FirePackets(packets: seq<Packet>, book: Book, d: ChannelId, t: Story)
    requires d in book && t == book[d].(fromWatch := t.fromWatch, toWatch := t.toWatch)
    requires PacketsOk(packets, book)
    ensures PacketsOk(packets, book[d := t])
  {
    forall k | 0 <= k < |packets|
      ensures PacketOk(book[d := t], k, packets[k])
    {
      assert PacketOk(book, k, packets[k]);
    }
  }
}
