/** Force close: the transaction it builds spends the funding output, and what it pays out. */
module ForceClose {
  import opened Options
  import opened Crypto
  import opened Bitcoin
  import opened Channels

  /** The nonce of a force close makes no component of the signature zero. */
  predicate UsableToClose(e: Env, c: Channel, nonce: Nonce)
    requires c.state.Live?
  {
    e.s.usable(FundingSecret(e.s, e.me, c.peerId, c.iAmInitiator),
               StateSighash(e, c.id, c.peerId, c.state.commit, c.iAmInitiator), nonce)
  }

  function FundingOut(e: Env, peer: PeerId, value: u64, iAmParty1: bool): TxOut {
    TxOut(value, FundingDescriptor(e, peer, iAmParty1).ScriptPubkey())
  }

  /** Witnesses are not signed. */
  lemma WitnessNotSigned(tx: Transaction, wit: Witness, script: WitnessScript, value: u64)
    requires |tx.inputs| == 1
    ensures SigPreimage(tx.(inputs := [tx.inputs[0].(wit := wit)]), 0, script, value) == SigPreimage(tx, 0, script, value)
  {
  }

  /** Both signatures that a force close puts together are accepted by both verifiers. */
  lemma BothSignaturesAccepted(e: Env, c: Channel, nonce: Nonce)
    requires e.Lawful() && c.state.Live? && c.iAmInitiator && UsableToClose(e, c, nonce)
    requires GoodCommitSig(e, c.id, c.peerId, c.state.commit, c.state.commitSig)
    ensures CloseLive(e, c, nonce).asserted
  {
    var s := e.s;
    var (local, remote) := LocalAndRemote(s, e.me, c.peerId, true);
    var digest := StateSighash(e, c.id, c.peerId, c.state.commit, true);
    FundingSecretOpens(s, e.me, c.peerId, true);
    assert Accepts(s, local, digest, s.sign(FundingSecret(s, e.me, c.peerId, true), digest, nonce));
    assert s.verifyEncrypted(remote, s.timesG(PublishingSecret(s, e.me)), digest, c.state.commitSig);
    assert Accepts(s, remote, digest, s.decrypt(PublishingSecret(s, e.me), c.state.commitSig));
  }

  /** The balances of a commit state can be paid out: there is something to pay, the first balance is
      nothing or covers the fee, and the two fit in 64 bits together. */
  predicate Payable(commit: CommitState) {
    && (commit.p1 > 0 || commit.p2 > 0)
    && (commit.p1 == 0 || commit.p1 >= 1000)
    && commit.p1 + commit.p2 < TWO_TO_THE_64
  }

  lemma TotalOfTwo(outs: seq<TxOut>)
    requires |outs| <= 2
    ensures TotalOut(outs) == (if |outs| > 0 then outs[0].value else 0) + (if |outs| > 1 then outs[1].value else 0)
  {
    if |outs| > 0 {
      assert outs[1..] == if |outs| == 2 then [outs[1]] else [];
      if |outs| == 2 {
        assert [outs[1]][1..] == [];
        assert TotalOut([outs[1]]) == outs[1].value + TotalOut([]);
      }
    }
  }

  /** A state transaction has outputs, and pays out at most its input, exactly when the balances can
      be paid out. */
  lemma WithinInput(e: Env, peer: PeerId, commit: CommitState, iAmParty1: bool)
    ensures var outs := StateOutputs(e, peer, commit, iAmParty1);
            outs != [] && TotalOut(outs) <= commit.FundingValue() <==> Payable(commit)
  {
    hide StateOutputs, TotalOut;
    StateTotal(e, peer, commit, iAmParty1);
  }

  lemma StateTotal(e: Env, peer: PeerId, commit: CommitState, iAmParty1: bool)
    ensures var outs := StateOutputs(e, peer, commit, iAmParty1);
            && TotalOut(outs) == (if commit.p1 > 0 then WrappingSub(commit.p1, 1000) else 0) + commit.p2
            && (outs == [] <==> commit.p1 == 0 && commit.p2 == 0)
  {
    hide BalanceKeys, WrappingSub;
    TotalOfTwo(StateOutputs(e, peer, commit, iAmParty1));
  }

  /** A force close of a good channel fails no assertion, satisfies the funding descriptor, and its
      transaction spends the funding outpoint by the chain's rule for an output with the
      committed value. The chain takes it exactly when the balances can be paid out. */
  lemma CloseSpends(e: Env, c: Channel, nonce: Nonce)
    requires e.Lawful() && c.state.Live? && c.iAmInitiator && UsableToClose(e, c, nonce)
    requires GoodCommitSig(e, c.id, c.peerId, c.state.commit, c.state.commitSig)
    ensures var closing := CloseLive(e, c, nonce);
            && closing.asserted && closing.satisfied
            && |closing.tx.inputs| == 1 && closing.tx.inputs[0].previousOutput == c.id
            && Spends(e.s, e.h, closing.tx, 0, FundingOut(e, c.peerId, c.state.commit.FundingValue(), true))
            && closing.tx.outputs == StateOutputs(e, c.peerId, c.state.commit, true)
            && Plain(closing.tx)
            && (Takes(e.s, e.h, closing.tx, FundingOut(e, c.peerId, c.state.commit.FundingValue(), true))
                <==> Payable(c.state.commit))
  {
    var closing := CloseLive(e, c, nonce);
    var commit := c.state.commit;
    BothSignaturesAccepted(e, c, nonce);
    WithinInput(e, c.peerId, commit, true);
    WitnessNotSigned(StateTx(e, c.id, c.peerId, commit, true), closing.tx.inputs[0].wit,
                     FundingScript(e, c.peerId, true), commit.FundingValue());
  }

  /** The outputs of a state transaction are the funding value less the fee, exactly when the first
      balance can pay the fee (or is nothing) and the two balances fit in 64 bits together. A
      first balance below the fee wraps around instead. */
  lemma ValueConserved(e: Env, peer: PeerId, commit: CommitState, iAmParty1: bool)
    ensures TotalOut(StateOutputs(e, peer, commit, iAmParty1))
              == commit.FundingValue() - (if commit.p1 > 0 then 1000 else 0)
            <==> (commit.p1 == 0 || commit.p1 >= 1000) && commit.p1 + commit.p2 < TWO_TO_THE_64
    ensures commit.FundingValue()
              == commit.p1 + commit.p2 - (if commit.p1 + commit.p2 < TWO_TO_THE_64 then 0 else TWO_TO_THE_64)
  {
    hide StateOutputs, TotalOut;
    StateTotal(e, peer, commit, iAmParty1);
  }

  /** What a party is owed by a commit state is paid to a key that its own secret opens: the opener
      (party one) the first balance less the fee, as the first output, the other party the whole
      second balance, as the last; there are no other outputs. */
  lemma EachIsPaidItsBalance(e: Env, peer: PeerId, commit: CommitState, iAmParty1: bool)
    requires e.Lawful()
    ensures var (r1, r2) := e.s.pointStream(e.s.hashPoint(e.s.times(e.me.secret, e.s.toPoint(peer))), Balance);
            var mine := P2wpkh(e.s.timesG(e.s.plus(e.me.secret, if iAmParty1 then r1 else r2)));
            var outs := StateOutputs(e, peer, commit, iAmParty1);
            && |outs| == (if commit.p1 > 0 then 1 else 0) + (if commit.p2 > 0 then 1 else 0)
            && (iAmParty1 && commit.p1 >= 1000 ==> outs[0] == TxOut(commit.p1 - 1000, mine))
            && (iAmParty1 && 0 < commit.p1 < 1000 ==> outs[0] == TxOut(TWO_TO_THE_64 + commit.p1 - 1000, mine))
            && (!iAmParty1 && commit.p2 > 0 ==> outs[|outs| - 1] == TxOut(commit.p2, mine))
  {
    hide BalanceKeys, WrappingSub;
    BalanceKeyOpens(e.s, e.me, peer, iAmParty1);
    FeeWraps(commit.p1);
  }

  lemma FeeWraps(p1: u64)
    ensures p1 >= 1000 ==> WrappingSub(p1, 1000) == p1 - 1000
    ensures p1 < 1000 ==> WrappingSub(p1, 1000) == TWO_TO_THE_64 + p1 - 1000
  {
  }

  /** The funding output pays to the script that both funding keys must sign for, party one's first,
      and each of them is that party's node key shifted by its own scalar of the funding stream. */
  lemma FundingOutputKeys(e: Env, peer: PeerId, value: u64, iAmParty1: bool)
    ensures var out := FundingOut(e, peer, value, iAmParty1);
            && out.value == value && out.scriptPubkey.P2wsh? && out.scriptPubkey.script.BothSign?
            && KeysOf(e.s, e.me, peer, iAmParty1, Funding, (out.scriptPubkey.script.key1, out.scriptPubkey.script.key2))
            && FundingScript(e, peer, iAmParty1) == out.scriptPubkey.script
  {
    hide KeysOf;
    KeysComeFromStreams(e.s, e.me, peer, iAmParty1);
  }

  /** Both parties of a channel agree on the funding output, the state transaction and the digest
      of every commit state, each seeing itself as its own party. */
  lemma BothAgree(a: Env, b: Env, id: ChannelId, commit: CommitState, value: u64, aIsParty1: bool)
    requires a.Lawful() && b.Lawful() && a.s == b.s && a.h == b.h
    ensures var idA, idB := IdOf(a.s, a.me), IdOf(a.s, b.me);
            && FundingOut(a, idB, value, aIsParty1) == FundingOut(b, idA, value, !aIsParty1)
            && FundingScript(a, idB, aIsParty1) == FundingScript(b, idA, !aIsParty1)
            && StateTx(a, id, idB, commit, aIsParty1) == StateTx(b, id, idA, commit, !aIsParty1)
            && StateSighash(a, id, idB, commit, aIsParty1) == StateSighash(b, id, idA, commit, !aIsParty1)
  {
    SharedKeys(a.s, a.me, b.me, aIsParty1);
  }

  /** An honest acknowledgement is good for the party that made the offer, if the offer carries its
      publishing key and the value it commits to. */
  lemma HonestAckIsGood(a: Env, b: Env, offer: NewChannel, nonce: Nonce)
    requires a.Lawful() && b.Lawful() && a.s == b.s && a.h == b.h
    requires offer.publishingKey == PublishingKey(a.s, a.me)
    requires UsableToAck(b, IdOf(a.s, a.me), offer, nonce)
    ensures var ack := AckFor(b, IdOf(a.s, a.me), offer, nonce);
            GoodCommitSig(a, offer.id, IdOf(a.s, b.me), CommitState(offer.fundingSatoshis, 0), ack.commitSig)
  {
    var idA, idB := IdOf(a.s, a.me), IdOf(a.s, b.me);
    SharedKeys(a.s, a.me, b.me, true);
    BothAgree(a, b, offer.id, CommitState(offer.fundingSatoshis, 0), 0, true);
    FundingSecretOpens(b.s, b.me, idA, false);
  }

  predicate UsableToAck(e: Env, peer: PeerId, offer: NewChannel, nonce: Nonce) {
    e.s.usableEncrypted(FundingSecret(e.s, e.me, peer, false), offer.publishingKey, OfferedSighash(e, peer, offer), nonce)
  }
}
