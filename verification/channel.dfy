/** Channels, their store, and the decisions of the channel manager. */
module Channels {
  import opened Options
  import opened Crypto
  import opened Bitcoin

  type ChannelId = OutPoint

  datatype CommitState = CommitState(p1: u64, p2: u64)
  {
    function FundingValue(): u64 {
      WrappingAdd(p1, p2)
    }
  }

  datatype ChannelState =
    | Pending(fundTx: FundTx)
    | ReadyToFund(fundTx: FundTx, commit: CommitState, commitSig: EncryptedSignature)
    | WaitingForFund
    | Funded(tx: Transaction)
    | Live(index: u32, commit: CommitState, commitSig: EncryptedSignature)
    | Closed(closeTx: Transaction)

  datatype Channel = Channel(id: ChannelId, state: ChannelState, peerId: PeerId, value: u64, iAmInitiator: bool)

  datatype NewChannel = NewChannel(id: ChannelId, fundingSatoshis: u64, publishingKey: Point)
  datatype AckNewChannel = AckNewChannel(id: ChannelId, commitSig: EncryptedSignature)

  datatype Error = NoSuchChannel | InvalidSignature | UnexpectedAck | NotLive
  datatype Result<+T> = Success(value: T) | Failure(error: Error)

  /** The fixed surroundings of a node: the primitives and its own node keys. */
  datatype Env = Env(s: Suite, h: Hashes, me: KeyPair)
  {
    ghost predicate Lawful() {
      s.Lawful() && h.Lawful() && Keyed(s, me)
    }
  }

  // ---------------------------------------------------------------------------------------
  // The state transaction
  // ---------------------------------------------------------------------------------------

  function FundingDescriptor(e: Env, peer: PeerId, iAmParty1: bool): Descriptor {
    var (p1, p2) := FundingKeys(e.s, e.me, peer, iAmParty1);
    Wsh(p1, p2)
  }

  function FundingScript(e: Env, peer: PeerId, iAmParty1: bool): WitnessScript {
    var (p1, p2) := FundingKeys(e.s, e.me, peer, iAmParty1);
    BothSign(p1, p2)
  }

  const CLOSE_FEE: u64 := 1000

  function StateOutputs(e: Env, peer: PeerId, commit: CommitState, iAmParty1: bool): seq<TxOut> {
    var (b1, b2) := BalanceKeys(e.s, e.me, peer, iAmParty1);
    (if commit.p1 > 0 then [TxOut(WrappingSub(commit.p1, CLOSE_FEE), P2wpkh(b1))] else [])
    + (if commit.p2 > 0 then [TxOut(commit.p2, P2wpkh(b2))] else [])
  }

  function StateTx(e: Env, id: ChannelId, peer: PeerId, commit: CommitState, iAmParty1: bool): Transaction {
    Transaction(1, 0, [TxIn(id, [], 0xFFFF_FFFF, NoWitness)], StateOutputs(e, peer, commit, iAmParty1))
  }

  function StateSighash(e: Env, id: ChannelId, peer: PeerId, commit: CommitState, iAmParty1: bool): Digest {
    e.h.sighash(SigPreimage(StateTx(e, id, peer, commit, iAmParty1), 0,
                            FundingScript(e, peer, iAmParty1), commit.FundingValue()))
  }

  // ---------------------------------------------------------------------------------------
  // The store
  // ---------------------------------------------------------------------------------------

  type Db = map<ChannelId, Channel>

  function GetForPeer(db: Db, id: ChannelId, peer: PeerId): Option<Channel> {
    if id in db && db[id].peerId == peer then Some(db[id]) else None
  }

  /** The in-memory store. */
  class InMemory {
    var inner: Db

    constructor ()
      ensures inner == map[]
    {
      inner := map[];
    }

    method InsertChannel(channel: Channel)
      modifies this
      ensures inner == old(inner)[channel.id := channel]
    {
      inner := inner[channel.id := channel];
    }

    method GetChannel(id: ChannelId) returns (r: Option<Channel>)
      ensures r.Some? <==> id in inner
      ensures r.Some? ==> r.value == inner[id]
    {
      r := if id in inner then Some(inner[id]) else None;
    }

    method GetChannelForPeer(id: ChannelId, peer: PeerId) returns (r: Option<Channel>)
      ensures r == GetForPeer(inner, id, peer)
      ensures r.Some? <==> id in inner && inner[id].peerId == peer
      ensures r.Some? ==> r.value == inner[id]
    {
      r := GetChannel(id);
      if r.Some? && r.value.peerId != peer {
        r := None;
      }
    }

    /** Every stored channel once, in no particular order. */
    method ListChannels() returns (list: seq<Channel>)
      ensures |list| == |inner|
      ensures forall id :: id in inner ==> inner[id] in list
      ensures forall c :: c in list ==> exists id :: id in inner && inner[id] == c
    {
      list := [];
      var rest := inner.Keys;
      while rest != {}
        invariant rest <= inner.Keys
        invariant |list| + |rest| == |inner|
        invariant forall id :: id in inner && id !in rest ==> inner[id] in list
        invariant forall c :: c in list ==> exists id :: id in inner && inner[id] == c
        decreases |rest|
      {
        var id :| id in rest;
        list := list + [inner[id]];
        rest := rest - {id};
      }
    }
  }

  // ---------------------------------------------------------------------------------------
  // What each method of the manager decides
  // ---------------------------------------------------------------------------------------

  function PendingChannel(h: Hashes, peer: PeerId, value: u64, f: FundTx): Channel
    requires HasFundingOutput(f)
  {
    Channel(ChannelIdOf(h, f), Pending(f), peer, value, true)
  }

  function OfferFor(e: Env, value: u64, f: FundTx): NewChannel
    requires HasFundingOutput(f)
  {
    NewChannel(ChannelIdOf(e.h, f), value, PublishingKey(e.s, e.me))
  }

  function AcceptedChannel(peer: PeerId, msg: NewChannel): Channel {
    Channel(msg.id, WaitingForFund, peer, msg.fundingSatoshis, false)
  }

  /** The digest the accepting party signs for an offer. */
  function OfferedSighash(e: Env, peer: PeerId, msg: NewChannel): Digest {
    StateSighash(e, msg.id, peer, CommitState(msg.fundingSatoshis, 0), false)
  }

  function AckFor(e: Env, peer: PeerId, msg: NewChannel, nonce: Nonce): AckNewChannel {
    AckNewChannel(msg.id, e.s.encryptedSign(
      FundingSecret(e.s, e.me, peer, false), msg.publishingKey, OfferedSighash(e, peer, msg), nonce))
  }

  /** The commit signature is good for the party that opened the channel: encrypted to its
      publishing key, by the other party's funding key, over the state transaction. */
  predicate GoodCommitSig(e: Env, id: ChannelId, peer: PeerId, commit: CommitState, sig: EncryptedSignature) {
    e.s.verifyEncrypted(FundingKeys(e.s, e.me, peer, true).1, PublishingKey(e.s, e.me),
                        StateSighash(e, id, peer, commit, true), sig)
  }

  function Confirm(e: Env, db: Db, peer: PeerId, ack: AckNewChannel): Result<Channel>
    requires forall id :: id in db && db[id].state.Pending? ==> HasFundingOutput(db[id].state.fundTx)
  {
    var found := GetForPeer(db, ack.id, peer);
    if found.None? then Failure(NoSuchChannel)
    else if !found.value.state.Pending? then Failure(UnexpectedAck)
    else
      var f := found.value.state.fundTx;
      var commit := CommitState(OutputValue(e.h, f), 0);
      if GoodCommitSig(e, ack.id, peer, commit, ack.commitSig)
      then Success(found.value.(state := ReadyToFund(f, commit, ack.commitSig)))
      else Failure(InvalidSignature)
  }

  /** An acknowledgement is accepted exactly when the sender's channel is stored, Pending and the
      signature good for the value of its funding output; each way of failing has its own error. */
  lemma ConfirmsExactly(e: Env, db: Db, peer: PeerId, ack: AckNewChannel)
    requires forall id :: id in db && db[id].state.Pending? ==> HasFundingOutput(db[id].state.fundTx)
    ensures var r := Confirm(e, db, peer, ack);
            var held := ack.id in db && db[ack.id].peerId == peer;
            var good := held && db[ack.id].state.Pending?
                        && GoodCommitSig(e, ack.id, peer, CommitState(OutputValue(e.h, db[ack.id].state.fundTx), 0), ack.commitSig);
            && (r == Failure(NoSuchChannel) <==> !held)
            && (r == Failure(UnexpectedAck) <==> held && !db[ack.id].state.Pending?)
            && (r == Failure(InvalidSignature) <==> held && db[ack.id].state.Pending? && !good)
            && (r.Success? <==> good)
            && (r.Success? ==> r.value.id == db[ack.id].id && r.value.peerId == peer && r.value.value == db[ack.id].value
                               && r.value.state.ReadyToFund? && r.value.state.commitSig == ack.commitSig
                               && r.value.state.fundTx == db[ack.id].state.fundTx)
  {
    hide GoodCommitSig, OutputValue;
  }

  /** What a funding watcher does with the transaction it was given. */
  datatype Sighting = Store(channel: Channel) | Nothing | Unreachable

  function Sight(e: Env, c: Channel, tx: Transaction): Sighting
    requires c.state.ReadyToFund? ==> HasFundingOutput(c.state.fundTx)
  {
    match c.state
    case ReadyToFund(f, commit, sig) =>
      if Matches(e.h, f, tx) then Store(c.(state := Live(0, commit, sig))) else Unreachable
    case WaitingForFund =>
      if c.id.vout < |tx.outputs|
         && tx.outputs[c.id.vout] == TxOut(c.value, FundingDescriptor(e, c.peerId, false).ScriptPubkey())
      then Store(c.(state := Funded(tx))) else Nothing
    case _ => Unreachable
  }

  // ---------------------------------------------------------------------------------------
  // Force close
  // ---------------------------------------------------------------------------------------

  /** The witness for a descriptor from the partial signatures at hand, if they suffice. */
  function Satisfy(d: Descriptor, sigs: map<Point, PushedSig>): Option<Witness> {
    match d
    case Wsh(k1, k2) =>
      if k1 in sigs && k2 in sigs then Some(BothSigs(sigs[k1], sigs[k2], BothSign(k1, k2))) else None
    case Wpkh(_) => None
  }

  /** `asserted` says that both verifiers accepted both signatures, `satisfied` that the
      signatures satisfied the funding descriptor. */
  datatype Closing = Closing(tx: Transaction, asserted: bool, satisfied: bool)

  function Accepts(s: Suite, key: Point, digest: Digest, sig: Signature): bool {
    s.verify(key, digest, sig) && s.verifyStrict(key, digest, sig)
  }

  function CloseLive(e: Env, c: Channel, nonce: Nonce): Closing
    requires c.state.Live?
  {
    var commit := c.state.commit;
    var (local, remote) := LocalAndRemote(e.s, e.me, c.peerId, c.iAmInitiator);
    var digest := StateSighash(e, c.id, c.peerId, commit, c.iAmInitiator);
    var localSig := e.s.sign(FundingSecret(e.s, e.me, c.peerId, c.iAmInitiator), digest, nonce);
    var remoteSig := e.s.decrypt(PublishingSecret(e.s, e.me), c.state.commitSig);
    var sigs := map[local := PushedSig(localSig, All)][remote := PushedSig(remoteSig, All)];
    var wit := Satisfy(FundingDescriptor(e, c.peerId, c.iAmInitiator), sigs);
    var unsigned := StateTx(e, c.id, c.peerId, commit, c.iAmInitiator);
    Closing(
      unsigned.(inputs := [unsigned.inputs[0].(wit := if wit.Some? then wit.value else NoWitness)]),
      Accepts(e.s, local, digest, localSig) && Accepts(e.s, remote, digest, remoteSig),
      wit.Some?)
  }
}
