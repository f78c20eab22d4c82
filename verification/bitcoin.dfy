/** Transactions, the rules of the chain that matter here, and the funding transaction. */
module Bitcoin {
  import opened Options
  import opened Crypto

  const TWO_TO_THE_64 := 0x1_0000_0000_0000_0000
  const TWO_TO_THE_32 := 0x1_0000_0000

  type u64 = x: int | 0 <= x < TWO_TO_THE_64
  type u32 = x: int | 0 <= x < TWO_TO_THE_32

  /** Unsigned 64-bit arithmetic that wraps around. */
  function WrappingAdd(a: u64, b: u64): u64 {
    (a + b) % TWO_TO_THE_64
  }

  function WrappingSub(a: u64, b: u64): u64 {
    (a - b) % TWO_TO_THE_64
  }

  /** A transaction id stands for the transaction it was made from, as hashes that do not collide
      do. */
  datatype Txid = Txid(of: Transaction)
  datatype OutPoint = OutPoint(txid: Txid, vout: u32)

  /** The script compiled from the policy that both keys must sign. */
  datatype WitnessScript = BothSign(key1: Point, key2: Point) | OtherWitnessScript(id: int)

  datatype Script = P2wsh(script: WitnessScript) | P2wpkh(key: Point) | OtherScript(id: int)

  datatype Descriptor = Wsh(key1: Point, key2: Point) | Wpkh(key: Point)
  {
    function ScriptPubkey(): Script {
      match this
      case Wsh(k1, k2) => P2wsh(BothSign(k1, k2))
      case Wpkh(k) => P2wpkh(k)
    }
  }

  datatype HashType = All | OtherHashType(id: int)
  datatype PushedSig = PushedSig(sig: Signature, hashType: HashType)

  datatype Witness =
    | NoWitness
    | BothSigs(sig1: PushedSig, sig2: PushedSig, script: WitnessScript)
    | OtherWitness(id: int)

  datatype TxOut = TxOut(value: u64, scriptPubkey: Script)
  datatype TxIn = TxIn(previousOutput: OutPoint, scriptSig: seq<int>, sequence: u32, wit: Witness)
  datatype Transaction = Transaction(version: int, lockTime: int, inputs: seq<TxIn>, outputs: seq<TxOut>)

  /** The transaction without its witnesses. */
  function Stripped(tx: Transaction): Transaction {
    tx.(inputs := seq(|tx.inputs|, i requires 0 <= i < |tx.inputs| => tx.inputs[i].(wit := NoWitness)))
  }

  /** Stripping forgets the witnesses and nothing else. */
  lemma StrippedExactly(t: Transaction, u: Transaction)
    ensures Stripped(t) == Stripped(u) <==>
              && t.version == u.version && t.lockTime == u.lockTime && t.outputs == u.outputs
              && |t.inputs| == |u.inputs|
              && forall i :: 0 <= i < |t.inputs| ==>
                   && t.inputs[i].previousOutput == u.inputs[i].previousOutput
                   && t.inputs[i].scriptSig == u.inputs[i].scriptSig
                   && t.inputs[i].sequence == u.inputs[i].sequence
  {
    if Stripped(t) == Stripped(u) {
      assert |Stripped(t).inputs| == |t.inputs| && |Stripped(u).inputs| == |u.inputs|;
      forall i | 0 <= i < |t.inputs|
        ensures t.inputs[i].(wit := NoWitness) == u.inputs[i].(wit := NoWitness)
      {
        assert Stripped(t).inputs[i] == Stripped(u).inputs[i];
      }
    }
  }

  /** What a signature for one input commits to when it covers all inputs and outputs. */
  datatype Preimage = Preimage(
    version: int,
    previousOutputs: seq<OutPoint>,
    sequences: seq<u32>,
    outpoint: OutPoint,
    scriptCode: WitnessScript,
    value: u64,
    sequence: u32,
    outputs: seq<TxOut>,
    lockTime: int,
    hashType: HashType)

  /** The chain's hash functions. */
  datatype Hashes = Hashes(txid: Transaction -> Txid, sighash: Preimage -> Digest)
  {
    /** Transaction ids cover everything but the witnesses and do not collide. */
    ghost predicate Lawful() {
      forall t, u :: txid(t) == txid(u) <==> Stripped(t) == Stripped(u)
    }
  }

  /** The signed preimage of input `index` of `tx` (BIP143, section "Specification"). */
  function SigPreimage(tx: Transaction, index: nat, scriptCode: WitnessScript, value: u64): Preimage
    requires index < |tx.inputs|
  {
    Preimage(
      tx.version,
      seq(|tx.inputs|, i requires 0 <= i < |tx.inputs| => tx.inputs[i].previousOutput),
      seq(|tx.inputs|, i requires 0 <= i < |tx.inputs| => tx.inputs[i].sequence),
      tx.inputs[index].previousOutput,
      scriptCode,
      value,
      tx.inputs[index].sequence,
      tx.outputs,
      tx.lockTime,
      All)
  }

  /** A signature fixes all of the transaction but the witnesses and the input scripts, and the input,
      script and value it is for; and it covers all inputs and outputs. */
  lemma PreimageFixes(t: Transaction, i: nat, code: WitnessScript, value: u64, u: Transaction, j: nat, code': WitnessScript, value': u64)
    requires i < |t.inputs| && j < |u.inputs|
    ensures SigPreimage(t, i, code, value).hashType == All
    ensures SigPreimage(t, i, code, value) == SigPreimage(u, j, code', value') ==>
              && code == code' && value == value'
              && t.version == u.version && t.lockTime == u.lockTime && t.outputs == u.outputs
              && |t.inputs| == |u.inputs|
              && (forall k :: 0 <= k < |t.inputs| ==>
                    && t.inputs[k].previousOutput == u.inputs[k].previousOutput
                    && t.inputs[k].sequence == u.inputs[k].sequence)
              && t.inputs[i].previousOutput == u.inputs[j].previousOutput
  {
    var x, y := SigPreimage(t, i, code, value), SigPreimage(u, j, code', value');
    if x == y {
      assert |x.previousOutputs| == |t.inputs| && |y.previousOutputs| == |u.inputs|;
      forall k | 0 <= k < |t.inputs|
        ensures t.inputs[k].previousOutput == u.inputs[k].previousOutput && t.inputs[k].sequence == u.inputs[k].sequence
      {
        assert x.previousOutputs[k] == y.previousOutputs[k] && x.sequences[k] == y.sequences[k];
      }
    }
  }

  /** The chain's rule for spending `out` by input `index` of `tx`: the witness reveals the script
      and carries signatures of both keys over this very transaction and the value of `out`. */
  predicate Spends(s: Suite, h: Hashes, tx: Transaction, index: nat, out: TxOut) {
    && index < |tx.inputs|
    && out.scriptPubkey.P2wsh? && out.scriptPubkey.script.BothSign?
    && tx.inputs[index].scriptSig == []
    && var wit, script := tx.inputs[index].wit, out.scriptPubkey.script;
       && wit.BothSigs? && wit.script == script
       && wit.sig1.hashType == All && wit.sig2.hashType == All
       && var digest := h.sighash(SigPreimage(tx, index, script, out.value));
          && s.verifyStrict(script.key1, digest, wit.sig1.sig)
          && s.verifyStrict(script.key2, digest, wit.sig2.sig)
  }

  function TotalOut(outputs: seq<TxOut>): nat {
    if outputs == [] then 0 else outputs[0].value + TotalOut(outputs[1..])
  }

  /** The chain's rule for lock times, at whatever height: there is none, or no input heeds it. */
  predicate IsFinal(tx: Transaction) {
    tx.lockTime == 0 || forall i :: 0 <= i < |tx.inputs| ==> tx.inputs[i].sequence == 0xFFFF_FFFF
  }

  /** Version 1, with no lock time and the last sequence number throughout. */
  predicate Plain(tx: Transaction) {
    && tx.version == 1 && tx.lockTime == 0
    && forall i :: 0 <= i < |tx.inputs| ==> tx.inputs[i].sequence == 0xFFFF_FFFF
  }

  /** The chain takes a transaction with the one input `out`, at whatever height: it spends `out` by the
      rule above, is final, has an output, and pays out no more than `out` holds. */
  predicate Takes(s: Suite, h: Hashes, tx: Transaction, out: TxOut) {
    && |tx.inputs| == 1 && Spends(s, h, tx, 0, out) && IsFinal(tx)
    && tx.outputs != [] && TotalOut(tx.outputs) <= out.value
  }

  /** The transaction id of BIP141 meets the law, if its hash keeps everything. */
  lemma LawfulHashesExist(sighash: Preimage -> Digest) returns (h: Hashes)
    ensures h.Lawful() && h.sighash == sighash
  {
    h := Hashes(tx => Txid(Stripped(tx)), sighash);
  }

  // ---------------------------------------------------------------------------------------
  // The funding transaction
  // ---------------------------------------------------------------------------------------

  datatype Final = Final(scriptSig: Option<seq<int>>, wit: Option<Witness>)

  /** A partially signed transaction: the unsigned one and what is final for each input. */
  datatype Psbt = Psbt(unsigned: Transaction, finals: seq<Final>)

  function FinalInput(input: TxIn, final: Final): TxIn {
    input.(scriptSig := if final.scriptSig.Some? then final.scriptSig.value else [],
           wit := if final.wit.Some? then final.wit.value else NoWitness)
  }

  function ExtractTx(psbt: Psbt): Transaction {
    psbt.unsigned.(inputs := seq(|psbt.unsigned.inputs|, i requires 0 <= i < |psbt.unsigned.inputs| =>
      if i < |psbt.finals| then FinalInput(psbt.unsigned.inputs[i], psbt.finals[i]) else psbt.unsigned.inputs[i]))
  }

  /** The input script that an extracted input ends up with. */
  function FinalScript(psbt: Psbt, i: nat): seq<int>
    requires i < |psbt.unsigned.inputs|
  {
    if i >= |psbt.finals| then psbt.unsigned.inputs[i].scriptSig
    else if psbt.finals[i].scriptSig.Some? then psbt.finals[i].scriptSig.value
    else []
  }

  /** Extraction changes what a transaction id covers exactly if it changes some input script: for
      native segwit inputs, which have none, a channel id can be told before anything is signed. */
  lemma ExtractKeepsId(psbt: Psbt)
    ensures Stripped(ExtractTx(psbt)) == Stripped(psbt.unsigned) <==>
              forall i :: 0 <= i < |psbt.unsigned.inputs| ==> FinalScript(psbt, i) == psbt.unsigned.inputs[i].scriptSig
  {
    StrippedExactly(ExtractTx(psbt), psbt.unsigned);
  }

  /** The witness of an extracted input is the final one, where there is one to be had. */
  lemma ExtractTakesWitnesses(psbt: Psbt, i: nat)
    requires i < |psbt.unsigned.inputs| && i < |psbt.finals|
    ensures ExtractTx(psbt).inputs[i].wit == (match psbt.finals[i].wit
                                              case Some(wit) => wit
                                              case None => NoWitness)
  {
  }

  datatype FundTx = FundTx(descriptor: Descriptor, psbt: Psbt)

  /** The position of the first output that pays to `script`. */
  function Position(outputs: seq<TxOut>, script: Script): (r: Option<nat>)
    ensures r.Some? ==> r.value < |outputs| && outputs[r.value].scriptPubkey == script
                        && forall i :: 0 <= i < r.value ==> outputs[i].scriptPubkey != script
    ensures r.None? ==> forall i :: 0 <= i < |outputs| ==> outputs[i].scriptPubkey != script
  {
    if outputs == [] then None
    else if outputs[0].scriptPubkey == script then Some(0)
    else
      match Position(outputs[1..], script)
      case Some(i) => Some(i + 1)
      case None => None
  }

  /** Some output pays to the descriptor and outputs can be numbered with 32 bits; without the
      first of these `channel_id` panics. */
  ghost predicate HasFundingOutput(f: FundTx) {
    && Position(f.psbt.unsigned.outputs, f.descriptor.ScriptPubkey()).Some?
    && |f.psbt.unsigned.outputs| <= TWO_TO_THE_32
  }

  /** What the funder promises for `value` and `descriptor`: some output pays to it, and every
      output that does carries the value asked for. */
  ghost predicate FunderContract(f: FundTx, value: u64, descriptor: Descriptor) {
    && f.descriptor == descriptor
    && HasFundingOutput(f)
    && forall o :: o in f.psbt.unsigned.outputs && o.scriptPubkey == descriptor.ScriptPubkey() ==> o.value == value
  }

  function ChannelIdOf(h: Hashes, f: FundTx): OutPoint
    requires HasFundingOutput(f)
  {
    OutPoint(h.txid(ExtractTx(f.psbt)), Position(f.psbt.unsigned.outputs, f.descriptor.ScriptPubkey()).value % TWO_TO_THE_32)
  }

  function OutputValue(h: Hashes, f: FundTx): u64
    requires HasFundingOutput(f)
  {
    f.psbt.unsigned.outputs[ChannelIdOf(h, f).vout].value
  }

  predicate Matches(h: Hashes, f: FundTx, tx: Transaction)
    requires HasFundingOutput(f)
  {
    var id := ChannelIdOf(h, f);
    && id.vout < |tx.outputs|
    && h.txid(tx) == id.txid
    && tx.outputs[id.vout].value == OutputValue(h, f)
    && tx.outputs[id.vout].scriptPubkey == f.descriptor.ScriptPubkey()
  }

  lemma SameOutputs(h: Hashes, t: Transaction, u: Transaction)
    requires h.Lawful() && h.txid(t) == h.txid(u)
    ensures t.outputs == u.outputs
  {
    assert Stripped(t).outputs == t.outputs;
  }

  /** Any transaction on the chain that bears the funding transaction's id matches it, whatever
      witnesses it was given after the channel was negotiated; and nothing else does. */
  lemma FundingMatches(h: Hashes, f: FundTx, tx: Transaction)
    requires h.Lawful() && HasFundingOutput(f)
    ensures Matches(h, f, tx) <==> h.txid(tx) == ChannelIdOf(h, f).txid
    ensures Matches(h, f, tx) <==> Stripped(tx) == Stripped(ExtractTx(f.psbt))
  {
    if h.txid(tx) == ChannelIdOf(h, f).txid {
      SameOutputs(h, tx, ExtractTx(f.psbt));
    }
  }

  /** The output a channel id points to is the one the funder was asked for. */
  lemma FundedOutput(h: Hashes, f: FundTx, value: u64, descriptor: Descriptor)
    requires FunderContract(f, value, descriptor)
    ensures f.psbt.unsigned.outputs[ChannelIdOf(h, f).vout] == TxOut(value, descriptor.ScriptPubkey())
    ensures OutputValue(h, f) == value
    ensures forall j :: 0 <= j < ChannelIdOf(h, f).vout ==>
              f.psbt.unsigned.outputs[j].scriptPubkey != descriptor.ScriptPubkey()
    ensures ChannelIdOf(h, f).txid == h.txid(ExtractTx(f.psbt))
  {
    var i := ChannelIdOf(h, f).vout;
    assert f.psbt.unsigned.outputs[i] in f.psbt.unsigned.outputs;
  }
}
