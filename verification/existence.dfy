/** The assumptions can be met all together: there are lawful primitives, hashes and nodes, a funding
    transaction that the funder stands for, and nonces that serve, for every value. */
module Existence {
  import opened Options
  import opened Crypto
  import opened Modular
  import opened Exponent
  import opened Bitcoin
  import opened Channels
  import opened ForceClose
  import opened Nodes
  import opened Network
  import opened EndToEnd

  /** The group of order seven, half of whose points have an even y. */
  const SEVEN := Curve(
    7, e => 0 < e <= 3, e => if e <= 3 then e else 7 - e, _ => SharedSecret(0), (_, _) => (1, 1))

  const ONE := Nonce(1)

  lemma SevenIsValid()
    ensures SEVEN.Valid()
  {
    assert forall d :: 1 < d < 7 ==> !IsFactor(d, 7);
  }

  lemma TimesInverseOfOne(w: int)
    requires 0 <= w < 7
    ensures (Inverse(7, 1) * w) % 7 == w
  {
    SevenIsValid();
    InverseWorks(7, 1);
    CongMul(7, Inverse(7, 1), 1, w, w);
    SmallMod(7, w);
  }

  /** The nonce 1 serves for the secrets that the two nodes below sign with. */
  lemma OneServes()
    ensures SEVEN.Usable(2, Digest(0), ONE) && SEVEN.UsableEncrypted(3, Point(1), Digest(0), ONE)
  {
    hide Inverse;
    TimesInverseOfOne(2);
    TimesInverseOfOne(3);
  }

  function NodeKeys(secret: Scalar): KeyPair {
    KeyPair(secret, Point(secret))
  }

  const ALICE: PeerId := XOnly(1)
  const BOB: PeerId := XOnly(2)

  function TwoNodes(h: Hashes): Net {
    Net(SuiteOf(SEVEN), h, map[ALICE := NodeKeys(1), BOB := NodeKeys(2)])
  }

  lemma NodesAreLawful(h: Hashes)
    requires h.Lawful()
    ensures TwoNodes(h).Lawful()
  {
    hide Suite.Lawful, Hashes.Lawful;
    SevenIsValid();
    ExponentModelIsLawful(SEVEN);
  }

  /** A transaction with one output, which pays the value to the joint descriptor. */
  function Funding(descriptor: Descriptor, value: u64): FundTx {
    FundTx(descriptor, Psbt(Transaction(1, 0, [], [TxOut(value, descriptor.ScriptPubkey())]), []))
  }

  lemma FundingKeepsContract(descriptor: Descriptor, value: u64)
    ensures FunderContract(Funding(descriptor, value), value, descriptor)
  {
    assert Position(Funding(descriptor, value).psbt.unsigned.outputs, descriptor.ScriptPubkey()) == Some(0);
  }

  lemma SecretsOfTheTwo(h: Hashes)
    ensures var g := TwoNodes(h);
            && FundingSecret(g.s, g.keys[ALICE], BOB, true) == 2
            && FundingSecret(g.s, g.keys[BOB], ALICE, false) == 3
            && PublishingKey(g.s, g.keys[ALICE]) == Point(1)
  {
  }

  /** For every value there is a scene of two nodes that can open, fund and close a channel. */
  lemma ScenesExist(value: u64) returns (g: Net, a: PeerId, b: PeerId, f: FundTx, n1: Nonce, n2: Nonce)
    ensures Scene(g, a, b, value, f, n1, n2)
  {
    hide StateTx, SigPreimage, FundingScript, Suite.Lawful, Hashes.Lawful;
    var h := LawfulHashesExist(_ => Digest(0));
    g, a, b, n1, n2 := TwoNodes(h), ALICE, BOB, ONE, ONE;
    f := Funding(FundingDescriptor(g.EnvOf(a), b, true), value);
    NodesAreLawful(h);
    FundingKeepsContract(f.descriptor, value);
    SecretsOfTheTwo(h);
    OneServes();
  }
}
