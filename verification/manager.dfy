/** The channel manager object: each method runs to its end, as under the manager's lock, with no
    watcher in between; `node.dfy` lets watchers in. */
module Manager {
  import opened Options
  import opened Crypto
  import opened Bitcoin
  import opened Channels

  datatype Message = Offer(offer: NewChannel) | Ack(ack: AckNewChannel)
  datatype Envelope = Envelope(from: PeerId, message: Message, nonce: Nonce)

  /** The store and the channels that spawned watchers hold. */
  datatype Books = Books(db: Db, watched: seq<Channel>)

  /** Pending channels have a funding output, as the funder promised. */
  ghost predicate FundsOk(db: Db) {
    forall id :: id in db && db[id].state.Pending? ==> HasFundingOutput(db[id].state.fundTx)
  }

  function StoreAndWatch(b: Books, c: Channel): Books {
    Books(b.db[c.id := c], b.watched + [c])
  }

  /** What handling one message does, and the acknowledgement it answers with. */
  function Dispatch(e: Env, b: Books, m: Envelope): (Books, Option<AckNewChannel>)
    requires FundsOk(b.db)
  {
    match m.message
    case Offer(offer) =>
      (StoreAndWatch(b, AcceptedChannel(m.from, offer)), Some(AckFor(e, m.from, offer, m.nonce)))
    case Ack(ack) =>
      (match Confirm(e, b.db, m.from, ack)
       case Success(c) => (StoreAndWatch(b, c), None)
       case Failure(_) => (b, None))
  }

  lemma DispatchKeepsFunds(e: Env, b: Books, m: Envelope)
    requires FundsOk(b.db)
    ensures FundsOk(Dispatch(e, b, m).0.db)
  {
  }

  /** The books and the acknowledgements after a queue of messages. */
  function DispatchAll(e: Env, b: Books, queue: seq<Envelope>): (r: (Books, seq<AckNewChannel>))
    requires FundsOk(b.db)
    ensures FundsOk(r.0.db)
  {
    if queue == [] then (b, [])
    else
      var (b1, acks) := DispatchAll(e, b, queue[..|queue| - 1]);
      var (b2, ack) := Dispatch(e, b1, queue[|queue| - 1]);
      DispatchKeepsFunds(e, b1, queue[|queue| - 1]);
      (b2, acks + if ack.Some? then [ack.value] else [])
  }

  class ChannelManager {
    const e: Env
    const db: InMemory
    var watched: seq<Channel>

    constructor (e: Env, db: InMemory)
      ensures this.e == e && this.db == db && watched == []
    {
      this.e, this.db, watched := e, db, [];
    }

    function View(): Books
      reads this, db
    {
      Books(db.inner, watched)
    }

    method NewChannel(peer: PeerId, value: u64, f: FundTx) returns (offer: NewChannel)
      requires FunderContract(f, value, FundingDescriptor(e, peer, true))
      modifies db
      ensures db.inner == old(db.inner)[ChannelIdOf(e.h, f) := PendingChannel(e.h, peer, value, f)]
      ensures offer == OfferFor(e, value, f)
    {
      var id := ChannelIdOf(e.h, f);
      db.InsertChannel(Channel(id, Pending(f), peer, value, true));
      offer := Channels.NewChannel(id, value, PublishingKey(e.s, e.me));
    }

    method RecvNewChannel(peer: PeerId, offer: NewChannel, nonce: Nonce) returns (ack: AckNewChannel)
      modifies this, db
      ensures View() == StoreAndWatch(old(View()), AcceptedChannel(peer, offer))
      ensures ack == AckFor(e, peer, offer, nonce)
    {
      var secret := FundingSecret(e.s, e.me, peer, false);
      var digest := StateSighash(e, offer.id, peer, CommitState(offer.fundingSatoshis, 0), false);
      var sig := e.s.encryptedSign(secret, offer.publishingKey, digest, nonce);
      var channel := Channel(offer.id, WaitingForFund, peer, offer.fundingSatoshis, false);
      db.InsertChannel(channel);
      WaitForFunding(channel);
      ack := AckNewChannel(offer.id, sig);
    }

    method RecvNewChannelAck(peer: PeerId, ack: AckNewChannel) returns (r: Result<()>)
      requires FundsOk(db.inner)
      modifies this, db
      ensures var c := Confirm(e, old(db.inner), peer, ack);
              && (c.Success? ==> r == Success(()) && View() == StoreAndWatch(old(View()), c.value))
              && (c.Failure? ==> r == Failure(c.error) && View() == old(View()))
    {
      var found := db.GetChannelForPeer(ack.id, peer);
      if found.None? {
        return Failure(NoSuchChannel);
      }
      var channel := found.value;
      match channel.state {
        case Pending(f) =>
          var commit := CommitState(OutputValue(e.h, f), 0);
          var (_, p2) := FundingKeys(e.s, e.me, peer, true);
          var digest := StateSighash(e, ack.id, peer, commit, true);
          if e.s.verifyEncrypted(p2, PublishingKey(e.s, e.me), digest, ack.commitSig) {
            channel := channel.(state := ReadyToFund(f, commit, ack.commitSig));
            db.InsertChannel(channel);
            WaitForFunding(channel);
            r := Success(());
          } else {
            r := Failure(InvalidSignature);
          }
        case _ =>
          r := Failure(UnexpectedAck);
      }
    }

    /** Spawn a watcher; this is only ever asked for in the two states that wait for a
        transaction. */
    method WaitForFunding(channel: Channel)
      requires channel.state.ReadyToFund? || channel.state.WaitingForFund?
      modifies this`watched
      ensures watched == old(watched) + [channel]
    {
      watched := watched + [channel];
    }

    /** The body of a watcher, given the transaction it waited for. */
    method Watch(channel: Channel, tx: Transaction) returns (panicked: bool)
      requires channel.state.ReadyToFund? || channel.state.WaitingForFund?
      requires channel.state.ReadyToFund? ==> HasFundingOutput(channel.state.fundTx)
      modifies db
      ensures var seen := Sight(e, channel, tx);
              && panicked == seen.Unreachable?
              && db.inner == if seen.Store? then old(db.inner)[channel.id := seen.channel] else old(db.inner)
    {
      panicked := false;
      match channel.state {
        case ReadyToFund(f, commit, sig) =>
          if Matches(e.h, f, tx) {
            db.InsertChannel(channel.(state := Live(0, commit, sig)));
          } else {
            panicked := true;
          }
        case WaitingForFund =>
          var script := FundingDescriptor(e, channel.peerId, false).ScriptPubkey();
          if channel.id.vout < |tx.outputs| {
            var output := tx.outputs[channel.id.vout];
            if output.scriptPubkey == script && output.value == channel.value {
              db.InsertChannel(channel.(state := Funded(tx)));
            }
          }
      }
    }

    method ForceCloseChannel(id: ChannelId, nonce: Nonce) returns (r: Result<Transaction>, panicked: bool)
      modifies db
      ensures id !in old(db.inner) ==> r == Failure(NoSuchChannel) && db.inner == old(db.inner)
      ensures id in old(db.inner) && !old(db.inner)[id].state.Live? ==> r == Failure(NotLive) && db.inner == old(db.inner)
      ensures id in old(db.inner) && old(db.inner)[id].state.Live? && old(db.inner)[id].id == id ==>
                var c := old(db.inner)[id];
                var closing := CloseLive(e, c, nonce);
                && panicked == !closing.asserted
                && (panicked ==> db.inner == old(db.inner))
                && (!panicked ==> r == Success(closing.tx)
                                  && db.inner == old(db.inner)[id := c.(state := Closed(closing.tx))])
    {
      r, panicked := Failure(NotLive), false;
      var found := db.GetChannel(id);
      if found.None? {
        return Failure(NoSuchChannel), false;
      }
      var channel := found.value;
      if channel.state.Live? {
        var commit, initiator := channel.state.commit, channel.iAmInitiator;
        var remoteSig := e.s.decrypt(PublishingSecret(e.s, e.me), channel.state.commitSig);
        var tx := StateTx(e, id, channel.peerId, commit, initiator);
        var secret := FundingSecret(e.s, e.me, channel.peerId, initiator);
        var (local, remote) := FundingKeys(e.s, e.me, channel.peerId, initiator);
        if !initiator {
          local, remote := remote, local;
        }
        var digest := StateSighash(e, id, channel.peerId, commit, initiator);
        var localSig := e.s.sign(secret, digest, nonce);
        var pairs := [(local, localSig), (remote, remoteSig)];
        var sigs: map<Point, PushedSig> := map[];
        ghost var closing := CloseLive(e, channel, nonce);
        for i := 0 to 2
          invariant db.inner == old(db.inner)
          invariant forall j :: 0 <= j < i ==> Accepts(e.s, pairs[j].0, digest, pairs[j].1)
          invariant i == 0 ==> sigs == map[]
          invariant i == 1 ==> sigs == map[local := PushedSig(localSig, All)]
          invariant i == 2 ==> sigs == map[local := PushedSig(localSig, All)][remote := PushedSig(remoteSig, All)]
        {
          var (key, sig) := pairs[i];
          if !Accepts(e.s, key, digest, sig) {
            assert id == channel.id ==> !closing.asserted;
            panicked := true;
            return;
          }
          sigs := sigs[key := PushedSig(sig, All)];
        }
        assert id == channel.id ==> closing.asserted by {
          assert Accepts(e.s, pairs[0].0, digest, pairs[0].1) && Accepts(e.s, pairs[1].0, digest, pairs[1].1);
        }
        var wit := Satisfy(FundingDescriptor(e, channel.peerId, initiator), sigs);
        if wit.Some? {
          tx := tx.(inputs := [tx.inputs[0].(wit := wit.value)]);
        }
        channel := channel.(state := Closed(tx));
        db.InsertChannel(channel);
        r := Success(tx);
      }
    }

    /** Handle one message under the lock. */
    method HandleMessage(m: Envelope) returns (reply: Option<AckNewChannel>)
      requires FundsOk(db.inner)
      modifies this, db
      ensures View() == Dispatch(e, old(View()), m).0 && reply == Dispatch(e, old(View()), m).1
    {
      match m.message {
        case Offer(offer) =>
          var ack := RecvNewChannel(m.from, offer, m.nonce);
          reply := Some(ack);
        case Ack(ack) =>
          var _ := RecvNewChannelAck(m.from, ack);
          reply := None;
      }
    }

    /** The message loop: take queued messages one by one. */
    method ServeMessages(queue: seq<Envelope>) returns (acks: seq<AckNewChannel>)
      requires FundsOk(db.inner)
      modifies this, db
      ensures View() == DispatchAll(e, old(View()), queue).0 && acks == DispatchAll(e, old(View()), queue).1
    {
      acks := [];
      ghost var start := View();
      assert queue[..0] == [];
      for i := 0 to |queue|
        invariant FundsOk(db.inner) && FundsOk(start.db)
        invariant View() == DispatchAll(e, start, queue[..i]).0 && acks == DispatchAll(e, start, queue[..i]).1
      {
        DispatchKeepsFunds(e, View(), queue[i]);
        var reply := HandleMessage(queue[i]);
        if reply.Some? {
          acks := acks + [reply.value];
        }
        assert queue[..i + 1][..i] == queue[..i];
      }
      assert queue[..|queue|] == queue;
    }
  }
}
