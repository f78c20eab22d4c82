/** The primitives the channel protocol is built on, as a record of functions with laws, and the
    keys the two parties of a channel derive from their node keys. */
module Crypto {
  type Scalar = int

  datatype Point = Point(id: int)
  datatype XOnly = XOnly(id: int)
  datatype SharedSecret = SharedSecret(id: int)
  datatype Digest = Digest(id: int)
  datatype Nonce = Nonce(k: int)
  datatype Signature = Signature(r: int, s: int)
  datatype EncryptedSignature = EncryptedSignature(rHat: Point, r: Point, sHat: int)

  datatype PointKind = Funding | Balance

  /** `pointStream` is the pair of scalars that the stream cipher yields for a shared secret.
      `usable` and `usableEncrypted` say that a nonce makes no component of the signature zero.
      `verifyStrict` is the second verifier, which also rejects signatures with a high `s`. */
  datatype Suite = Suite(
    timesG: Scalar -> Point,
    times: (Scalar, Point) -> Point,
    plus: (Scalar, Scalar) -> Scalar,
    plusPoint: (Point, Point) -> Point,
    negate: Scalar -> Scalar,
    isEvenY: Point -> bool,
    toXOnly: Point -> XOnly,
    toPoint: XOnly -> Point,
    hashPoint: Point -> SharedSecret,
    pointStream: (SharedSecret, PointKind) -> (Scalar, Scalar),
    sign: (Scalar, Digest, Nonce) -> Signature,
    verify: (Point, Digest, Signature) -> bool,
    verifyStrict: (Point, Digest, Signature) -> bool,
    encryptedSign: (Scalar, Point, Digest, Nonce) -> EncryptedSignature,
    verifyEncrypted: (Point, Point, Digest, EncryptedSignature) -> bool,
    decrypt: (Scalar, EncryptedSignature) -> Signature,
    usable: (Scalar, Digest, Nonce) -> bool,
    usableEncrypted: (Scalar, Point, Digest, Nonce) -> bool)
  {
    /** Multiples of the generator form a group in which exponents commute. */
    ghost predicate GroupLaws() {
      && (forall a, b :: times(a, timesG(b)) == times(b, timesG(a)))
      && (forall a, b :: timesG(plus(a, b)) == plusPoint(timesG(a), timesG(b)))
    }

    /** One of a scalar and its negation has an even-y point, and such a point can be recovered
        from its x coordinate. */
    ghost predicate EvenYLaws() {
      && (forall a :: isEvenY(timesG(a)) || isEvenY(timesG(negate(a))))
      && (forall a :: isEvenY(timesG(a)) ==> toPoint(toXOnly(timesG(a))) == timesG(a))
    }

    ghost predicate SignatureLaws() {
      && (forall sk, m, n :: usable(sk, m, n) ==>
            verify(timesG(sk), m, sign(sk, m, n)) && verifyStrict(timesG(sk), m, sign(sk, m, n)))
      && (forall sk, e, m, n :: usableEncrypted(sk, e, m, n) ==>
            verifyEncrypted(timesG(sk), e, m, encryptedSign(sk, e, m, n)))
      && (forall p, y, m, c :: verifyEncrypted(p, timesG(y), m, c) ==>
            verify(p, m, decrypt(y, c)) && verifyStrict(p, m, decrypt(y, c)))
    }

    ghost predicate Lawful() {
      GroupLaws() && EvenYLaws() && SignatureLaws()
    }
  }

  type PeerId = XOnly

  datatype KeyPair = KeyPair(secret: Scalar, public: Point)

  ghost predicate Keyed(s: Suite, k: KeyPair) {
    k.public == s.timesG(k.secret) && s.isEvenY(k.public)
  }

  function IdOf(s: Suite, k: KeyPair): PeerId {
    s.toXOnly(k.public)
  }

  /** A secret scalar held in place. */
  class SecretCell {
    var value: Scalar

    constructor (value: Scalar)
      ensures this.value == value
    {
      this.value := value;
    }
  }

  lemma OneIsEven(s: Suite, a: Scalar)
    requires s.EvenYLaws()
    ensures s.isEvenY(s.timesG(a)) || s.isEvenY(s.timesG(s.negate(a)))
  {
  }

  /** The public point of a secret, negating the secret in place when its own point is not even-y. */
  method FromScalarMul(s: Suite, secret: SecretCell) returns (public: Point)
    requires s.EvenYLaws()
    modifies secret
    ensures Keyed(s, KeyPair(secret.value, public))
    ensures secret.value == old(secret.value) || secret.value == s.negate(old(secret.value))
    ensures s.isEvenY(s.timesG(old(secret.value))) ==> secret.value == old(secret.value)
  {
    OneIsEven(s, secret.value);
    public := s.timesG(secret.value);
    if !s.isEvenY(public) {
      secret.value := s.negate(secret.value);
      public := s.timesG(secret.value);
    }
  }

  /** A node's key pair from the scalar its seed yields. */
  method KeyPairFromScalar(s: Suite, scalar: Scalar) returns (k: KeyPair)
    requires s.EvenYLaws()
    ensures Keyed(s, k)
    ensures k.secret == scalar || k.secret == s.negate(scalar)
    ensures s.toPoint(IdOf(s, k)) == s.timesG(k.secret)
  {
    var cell := new SecretCell(scalar);
    var public := FromScalarMul(s, cell);
    k := KeyPair(cell.value, public);
  }

  datatype PointRandomizer = PointRandomizer(base1: Point, base2: Point, secret: SharedSecret)

  function FromEcdh(s: Suite, local: KeyPair, remote: Point, iAmParty1: bool): PointRandomizer {
    var secret := s.hashPoint(s.times(local.secret, remote));
    if iAmParty1 then PointRandomizer(local.public, remote, secret)
    else PointRandomizer(remote, local.public, secret)
  }

  function PointsAt(s: Suite, pr: PointRandomizer, kind: PointKind): ((Scalar, Point), (Scalar, Point)) {
    var (r1, r2) := s.pointStream(pr.secret, kind);
    ((r1, s.plusPoint(pr.base1, s.timesG(r1))), (r2, s.plusPoint(pr.base2, s.timesG(r2))))
  }

  function RandomizerFor(s: Suite, me: KeyPair, peer: PeerId, iAmParty1: bool): PointRandomizer {
    FromEcdh(s, me, s.toPoint(peer), iAmParty1)
  }

  function FundingKeys(s: Suite, me: KeyPair, peer: PeerId, iAmParty1: bool): (Point, Point) {
    var ((_, p1), (_, p2)) := PointsAt(s, RandomizerFor(s, me, peer, iAmParty1), Funding);
    (p1, p2)
  }

  function BalanceKeys(s: Suite, me: KeyPair, peer: PeerId, iAmParty1: bool): (Point, Point) {
    var ((_, p1), (_, p2)) := PointsAt(s, RandomizerFor(s, me, peer, iAmParty1), Balance);
    (p1, p2)
  }

  function FundingSecret(s: Suite, me: KeyPair, peer: PeerId, iAmParty1: bool): Scalar {
    var ((r1, _), (r2, _)) := PointsAt(s, RandomizerFor(s, me, peer, iAmParty1), Funding);
    s.plus(me.secret, if iAmParty1 then r1 else r2)
  }

  const REVOCATION_SECRET: Scalar := 42

  function PublishingSecret(s: Suite, me: KeyPair): Scalar {
    s.plus(me.secret, REVOCATION_SECRET)
  }

  function PublishingKey(s: Suite, me: KeyPair): Point {
    s.timesG(PublishingSecret(s, me))
  }

  /** My own funding key and the other party's, whichever of the two parties I am. */
  function LocalAndRemote(s: Suite, me: KeyPair, peer: PeerId, iAmParty1: bool): (Point, Point) {
    var (p1, p2) := FundingKeys(s, me, peer, iAmParty1);
    if iAmParty1 then (p1, p2) else (p2, p1)
  }

  /** Both parties arrive at the same randomizer, and so at the same points, from their own key
      pair and the other's id. */
  lemma SharedRandomizer(s: Suite, a: KeyPair, b: KeyPair, aIsParty1: bool)
    requires s.Lawful() && Keyed(s, a) && Keyed(s, b)
    ensures RandomizerFor(s, a, IdOf(s, b), aIsParty1) == RandomizerFor(s, b, IdOf(s, a), !aIsParty1)
  {
    assert s.toPoint(s.toXOnly(s.timesG(a.secret))) == a.public;
    assert s.toPoint(s.toXOnly(s.timesG(b.secret))) == b.public;
    assert s.times(a.secret, s.timesG(b.secret)) == s.times(b.secret, s.timesG(a.secret));
  }

  lemma SharedKeys(s: Suite, a: KeyPair, b: KeyPair, aIsParty1: bool)
    requires s.Lawful() && Keyed(s, a) && Keyed(s, b)
    ensures FundingKeys(s, a, IdOf(s, b), aIsParty1) == FundingKeys(s, b, IdOf(s, a), !aIsParty1)
    ensures BalanceKeys(s, a, IdOf(s, b), aIsParty1) == BalanceKeys(s, b, IdOf(s, a), !aIsParty1)
    ensures var (l, r) := LocalAndRemote(s, a, IdOf(s, b), aIsParty1);
            LocalAndRemote(s, b, IdOf(s, a), !aIsParty1) == (r, l)
  {
    SharedRandomizer(s, a, b, aIsParty1);
  }

  /** The two keys of a kind are the two parties' node keys, party one's first, each shifted by its own
      scalar of that kind's stream for their shared secret. */
  ghost predicate KeysOf(s: Suite, me: KeyPair, peer: PeerId, iAmParty1: bool, kind: PointKind, keys: (Point, Point)) {
    var (r1, r2) := s.pointStream(s.hashPoint(s.times(me.secret, s.toPoint(peer))), kind);
    var mine, theirs := me.public, s.toPoint(peer);
    keys == (s.plusPoint(if iAmParty1 then mine else theirs, s.timesG(r1)),
             s.plusPoint(if iAmParty1 then theirs else mine, s.timesG(r2)))
  }

  /** Funding keys come from the funding stream and balance keys from the balance stream; the funding
      secret is the node's secret shifted by its own scalar of the funding stream. */
  lemma KeysComeFromStreams(s: Suite, me: KeyPair, peer: PeerId, iAmParty1: bool)
    ensures KeysOf(s, me, peer, iAmParty1, Funding, FundingKeys(s, me, peer, iAmParty1))
    ensures KeysOf(s, me, peer, iAmParty1, Balance, BalanceKeys(s, me, peer, iAmParty1))
    ensures var (r1, r2) := s.pointStream(s.hashPoint(s.times(me.secret, s.toPoint(peer))), Funding);
            FundingSecret(s, me, peer, iAmParty1) == s.plus(me.secret, if iAmParty1 then r1 else r2)
  {
  }

  /** The publishing key is the node's own key shifted by the revocation key, which is 42 times the
      generator. */
  lemma PublishingKeyIsShifted(s: Suite, me: KeyPair)
    requires s.Lawful() && Keyed(s, me)
    ensures PublishingKey(s, me) == s.plusPoint(me.public, s.timesG(42))
    ensures PublishingKey(s, me) == s.timesG(PublishingSecret(s, me))
  {
    assert s.timesG(s.plus(me.secret, 42)) == s.plusPoint(s.timesG(me.secret), s.timesG(42));
  }

  /** Each party's balance key is its own node key shifted by its own scalar of the balance
      stream, so that the party can spend what is paid to it. */
  lemma BalanceKeyOpens(s: Suite, me: KeyPair, peer: PeerId, iAmParty1: bool)
    requires s.Lawful() && Keyed(s, me)
    ensures var (r1, r2) := s.pointStream(s.hashPoint(s.times(me.secret, s.toPoint(peer))), Balance);
            if iAmParty1 then s.timesG(s.plus(me.secret, r1)) == BalanceKeys(s, me, peer, true).0
            else s.timesG(s.plus(me.secret, r2)) == BalanceKeys(s, me, peer, false).1
  {
    var (r1, r2) := s.pointStream(s.hashPoint(s.times(me.secret, s.toPoint(peer))), Balance);
    var r := if iAmParty1 then r1 else r2;
    assert s.timesG(s.plus(me.secret, r)) == s.plusPoint(s.timesG(me.secret), s.timesG(r));
  }

  /** A party's funding secret opens exactly the key that force close calls local. */
  lemma FundingSecretOpens(s: Suite, me: KeyPair, peer: PeerId, iAmParty1: bool)
    requires s.Lawful() && Keyed(s, me)
    ensures s.timesG(FundingSecret(s, me, peer, iAmParty1)) == LocalAndRemote(s, me, peer, iAmParty1).0
  {
    var ((r1, _), (r2, _)) := PointsAt(s, RandomizerFor(s, me, peer, iAmParty1), Funding);
    var r := if iAmParty1 then r1 else r2;
    assert s.timesG(s.plus(me.secret, r)) == s.plusPoint(s.timesG(me.secret), s.timesG(r));
  }
}
