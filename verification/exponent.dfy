/** A model of the primitives in which a point is its discrete logarithm modulo the prime order
    of the group. It shows that the laws asked of a suite can be met, by the equations of ECDSA
    and of its one-time-encrypted form. */
module Exponent {
  import opened Crypto
  import opened Modular

  /** The order of the group, which exponents have an even-y point, and the x coordinate of a
      point as a scalar; the hash and the stream cipher are arbitrary. */
  datatype Curve = Curve(
    q: int,
    evenY: int -> bool,
    xCoord: int -> int,
    hashPoint: Point -> SharedSecret,
    pointStream: (SharedSecret, PointKind) -> (Scalar, Scalar))
  {
    /** A point and its negation share the x coordinate and exactly one of them has an even y. */
    ghost predicate Valid() {
      && Prime(q)
      && (forall e :: 0 < e < q ==> evenY(e) != evenY(q - e))
      && (forall e :: 0 < e < q ==> xCoord(e) == xCoord(q - e))
    }

    /** The scalar `r` of a signature whose nonce point has exponent `e`. */
    function R(e: int): int
      requires q > 0
    {
      xCoord(e % q) % q
    }

    function LowS(s: int): int {
      if 2 * s <= q then s else q - s
    }

    predicate EvenY(p: Point)
      requires q > 0
    {
      p.id % q == 0 || evenY(p.id % q)
    }

    function Sign(sk: Scalar, m: Digest, n: Nonce): Signature
      requires q > 0
    {
      var r := R(n.k);
      Signature(r, LowS((Inverse(q, n.k) * (m.id + r * sk)) % q))
    }

    predicate Usable(sk: Scalar, m: Digest, n: Nonce)
      requires q > 0
    {
      n.k % q != 0 && R(n.k) != 0 && Sign(sk, m, n).s % q != 0
    }

    predicate Verify(p: Point, m: Digest, sig: Signature)
      requires q > 0
    {
      && sig.r != 0 && sig.s % q != 0
      && R(Inverse(q, sig.s) * (m.id + sig.r * p.id)) == sig.r
    }

    predicate VerifyStrict(p: Point, m: Digest, sig: Signature)
      requires q > 0
    {
      Verify(p, m, sig) && 0 < sig.s && 2 * sig.s <= q
    }

    function EncryptedSign(sk: Scalar, e: Point, m: Digest, n: Nonce): EncryptedSignature
      requires q > 0
    {
      var r := n.k * e.id;
      EncryptedSignature(Point(n.k % q), Point(r % q), (Inverse(q, n.k) * (m.id + R(r) * sk)) % q)
    }

    predicate UsableEncrypted(sk: Scalar, e: Point, m: Digest, n: Nonce)
      requires q > 0
    {
      var c := EncryptedSign(sk, e, m, n);
      n.k % q != 0 && c.r.id % q != 0 && R(c.r.id) != 0 && c.sHat % q != 0
    }

    /** The nonce point and its encryption have the same discrete logarithm, and the signature
        equation holds for the unencrypted nonce point. */
    predicate VerifyEncrypted(p: Point, e: Point, m: Digest, c: EncryptedSignature)
      requires q > 0
    {
      && c.r.id % q != 0 && R(c.r.id) != 0 && c.sHat % q != 0
      && Cong(q, c.r.id, c.rHat.id * e.id)
      && Cong(q, c.rHat.id * c.sHat, m.id + R(c.r.id) * p.id)
    }

    function Decrypt(y: Scalar, c: EncryptedSignature): Signature
      requires q > 0
    {
      Signature(R(c.r.id), LowS((c.sHat * Inverse(q, y)) % q))
    }
  }

  /** The suite of a curve. */
  function SuiteOf(c: Curve): Suite
    requires c.q > 0
  {
    Suite(
      a => Point(a % c.q),
      (a: Scalar, p: Point) => Point((a * p.id) % c.q),
      (a: Scalar, b: Scalar) => (a + b) % c.q,
      (p: Point, r: Point) => Point((p.id + r.id) % c.q),
      a => (-a) % c.q,
      p => c.EvenY(p),
      p => XOnly(if c.EvenY(p) then p.id % c.q else (-p.id) % c.q),
      (x: XOnly) => Point(x.id),
      c.hashPoint,
      c.pointStream,
      (sk, m, n) => c.Sign(sk, m, n),
      (p, m, sig) => c.Verify(p, m, sig),
      (p, m, sig) => c.VerifyStrict(p, m, sig),
      (sk, e, m, n) => c.EncryptedSign(sk, e, m, n),
      (p, e, m, g) => c.VerifyEncrypted(p, e, m, g),
      (y, g) => c.Decrypt(y, g),
      (sk, m, n) => c.Usable(sk, m, n),
      (sk, e, m, n) => c.UsableEncrypted(sk, e, m, n))
  }

  lemma RSymmetric(c: Curve, e: int)
    requires c.Valid()
    ensures c.R(-e) == c.R(e)
  {
    Negated(c.q, e);
    if e % c.q != 0 {
      assert c.xCoord(e % c.q) == c.xCoord(c.q - e % c.q);
    }
  }

  lemma Negated(q: int, e: int)
    requires q > 0
    ensures (-e) % q == if e % q == 0 then 0 else q - e % q
  {
    var r := e % q;
    Reduce(q, e);
    CongMul(q, -1, -1, e, r);
    if r != 0 {
      AddMultiple(q, q - r, -1);
      SmallMod(q, q - r);
    }
  }

  lemma RCong(c: Curve, d: int, e: int)
    requires c.q > 0 && Cong(c.q, d, e)
    ensures c.R(d) == c.R(e)
  {
  }

  /** The heart of both signature laws: if `s * u` is the signature equation's right-hand side for
      a nonce point with exponent `u`, then `s` in its low form verifies. */
  lemma EquationVerifies(c: Curve, p: Point, m: Digest, s: int, u: int, r: int)
    requires c.Valid() && 0 < s < c.q
    requires r == c.R(u) && r != 0
    requires Cong(c.q, s * u, m.id + r * p.id)
    ensures c.Verify(p, m, Signature(r, c.LowS(s))) && c.VerifyStrict(p, m, Signature(r, c.LowS(s)))
  {
    var v := if 2 * s <= c.q then u else -u;
    RSymmetric(c, u);
    LowForm(c, s, u, m.id + r * p.id);
    SolutionVerifies(c, p, m, c.LowS(s), v, r);
  }

  lemma SolutionVerifies(c: Curve, p: Point, m: Digest, t: int, u: int, r: int)
    requires c.Valid() && t % c.q != 0
    requires r == c.R(u) && r != 0
    requires Cong(c.q, t * u, m.id + r * p.id)
    ensures c.Verify(p, m, Signature(r, t))
  {
    var w := m.id + r * p.id;
    Divide(c.q, t, u, w);
    RCong(c, Inverse(c.q, t) * w, u);
  }

  /** Verifying is the equation of ECDSA: some nonce point has the signature's `r`, and its exponent
      times `s` is the digest plus `r` times the key. */
  lemma VerifiesExactly(c: Curve, p: Point, m: Digest, sig: Signature)
    requires c.Valid()
    ensures c.Verify(p, m, sig) <==>
              && sig.r != 0 && sig.s % c.q != 0
              && exists u :: c.R(u) == sig.r && Cong(c.q, sig.s * u, m.id + sig.r * p.id)
  {
    var w := m.id + sig.r * p.id;
    if c.Verify(p, m, sig) {
      var u := Inverse(c.q, sig.s) * w;
      SolvedBy(c.q, sig.s, w);
      assert c.R(u) == sig.r && Cong(c.q, sig.s * u, w);
    }
    if sig.r != 0 && sig.s % c.q != 0 {
      if u :| c.R(u) == sig.r && Cong(c.q, sig.s * u, w) {
        SolutionVerifies(c, p, m, sig.s, u, sig.r);
      }
    }
  }

  lemma SolvedBy(q: int, t: int, w: int)
    requires Prime(q) && t % q != 0
    ensures Cong(q, t * (Inverse(q, t) * w), w)
  {
    var i := Inverse(q, t);
    InverseWorks(q, t);
    CongMul(q, t * i, 1, w, w);
    assert t * (i * w) == (t * i) * w;
  }

  lemma LowForm(c: Curve, s: int, u: int, w: int)
    requires 0 < s < c.q && Cong(c.q, s * u, w)
    ensures 0 < c.LowS(s) < c.q && 2 * c.LowS(s) <= c.q && c.LowS(s) % c.q != 0
    ensures Cong(c.q, c.LowS(s) * (if 2 * s <= c.q then u else -u), w)
  {
    SmallMod(c.q, c.LowS(s));
    if 2 * s > c.q {
      AddMultiple(c.q, -s, 1);
      CongMul(c.q, c.q - s, -s, -u, -u);
      assert (-s) * (-u) == s * u;
    }
  }

  lemma HonestSignature(c: Curve, sk: Scalar, m: Digest, n: Nonce)
    requires c.Valid() && c.Usable(sk, m, n)
    ensures c.Verify(Point(sk % c.q), m, c.Sign(sk, m, n)) && c.VerifyStrict(Point(sk % c.q), m, c.Sign(sk, m, n))
  {
    var q, r := c.q, c.R(n.k);
    var w := m.id + r * sk;
    var s := (Inverse(q, n.k) * w) % q;
    assert s != 0;
    SolvesFor(q, n.k, w);
    PublicForm(q, m.id, r, sk);
    EquationVerifies(c, Point(sk % q), m, s, n.k, r);
  }

  /** Dividing `w` by `k` solves `s * k == w`. */
  lemma SolvesFor(q: int, k: int, w: int)
    requires Prime(q) && k % q != 0
    ensures Cong(q, ((Inverse(q, k) * w) % q) * k, w)
  {
    var i := Inverse(q, k);
    Reduce(q, i * w);
    CongMul(q, (i * w) % q, i * w, k, k);
    InverseWorks(q, k);
    CongMul(q, k * i, 1, w, w);
    assert (i * w) * k == (k * i) * w;
  }

  lemma PublicForm(q: int, z: int, r: int, sk: int)
    requires q > 0
    ensures Cong(q, z + r * sk, z + r * (sk % q))
  {
    Reduce(q, sk);
    CongMul(q, r, r, sk % q, sk);
    CongAdd(q, z, z, r * (sk % q), r * sk);
  }

  lemma HonestEncryptedSignature(c: Curve, sk: Scalar, e: Point, m: Digest, n: Nonce)
    requires c.Valid() && c.UsableEncrypted(sk, e, m, n)
    ensures c.VerifyEncrypted(Point(sk % c.q), e, m, c.EncryptedSign(sk, e, m, n))
  {
    var q, g := c.q, c.EncryptedSign(sk, e, m, n);
    var r := c.R(n.k * e.id);
    Reduce(q, n.k * e.id);
    RCong(c, g.r.id, n.k * e.id);
    Reduce(q, n.k);
    CongMul(q, n.k % q, n.k, e.id, e.id);
    var w := m.id + r * sk;
    SolvesFor(q, n.k, w);
    CongMul(q, n.k % q, n.k, g.sHat, g.sHat);
    assert g.sHat * n.k == n.k * g.sHat;
    PublicForm(q, m.id, r, sk);
  }

  lemma DecryptedVerifies(c: Curve, p: Point, y: Scalar, m: Digest, g: EncryptedSignature)
    requires c.Valid() && c.VerifyEncrypted(p, Point(y % c.q), m, g)
    ensures c.Verify(p, m, c.Decrypt(y, g)) && c.VerifyStrict(p, m, c.Decrypt(y, g))
  {
    var q, r := c.q, c.R(g.r.id);
    var s := (g.sHat * Inverse(q, y)) % q;
    DecryptedEquation(q, g.rHat.id, y, g.r.id, g.sHat, m.id + r * p.id);
    EquationVerifies(c, p, m, s, g.r.id, r);
  }

  /** With nonce point `n` encrypted as `r == n * y` and `n * sHat == w`, dividing `sHat` by the
      decryption key solves `s * r == w`. */
  lemma DecryptedEquation(q: int, n: int, y: int, r: int, sHat: int, w: int)
    requires Prime(q) && r % q != 0 && sHat % q != 0
    requires Cong(q, r, n * (y % q)) && Cong(q, n * sHat, w)
    ensures var s := (sHat * Inverse(q, y)) % q; 0 < s < q && Cong(q, s * r, w)
  {
    hide Inverse;
    NonzeroProduct(q, n, y % q);
    Reduce(q, y);
    var i := Inverse(q, y);
    assert i * sHat == sHat * i;
    var s := (i * sHat) % q;
    SolvesFor(q, y, sHat);
    NonzeroProduct(q, s, y);
    CongMul(q, n, n, y % q, y);
    CongMul(q, s, s, r, n * y);
    CongMul(q, n, n, s * y, sHat);
    Reassociate(s, n, y);
  }

  lemma Reassociate(s: int, n: int, y: int)
    ensures s * (n * y) == n * (s * y)
  {
  }

  lemma GroupHolds(c: Curve, a: Scalar, b: Scalar)
    requires c.q > 0
    ensures (a * (b % c.q)) % c.q == (b * (a % c.q)) % c.q
    ensures ((a + b) % c.q) % c.q == (a % c.q + b % c.q) % c.q
  {
    var q := c.q;
    Reduce(q, a);
    Reduce(q, b);
    CongMul(q, a, a, b % q, b);
    CongMul(q, b, b, a % q, a);
    assert a * b == b * a;
    Reduce(q, a + b);
    CongAdd(q, a % q, a, b % q, b);
  }

  lemma EvenYHolds(c: Curve, a: Scalar)
    requires c.Valid()
    ensures c.EvenY(Point(a % c.q)) || c.EvenY(Point(((-a) % c.q) % c.q))
    ensures (a % c.q) % c.q == a % c.q
  {
    Negated(c.q, a);
    Reduce(c.q, a);
    Reduce(c.q, -a);
    if a % c.q != 0 {
      assert c.evenY(a % c.q) != c.evenY(c.q - a % c.q);
    }
  }

  /** The exponent model meets every law, for every prime order. */
  lemma ExponentModelIsLawful(c: Curve)
    requires c.Valid()
    ensures SuiteOf(c).Lawful()
  {
    var s := SuiteOf(c);
    assert s.GroupLaws() by {
      forall a, b
        ensures s.times(a, s.timesG(b)) == s.times(b, s.timesG(a))
        ensures s.timesG(s.plus(a, b)) == s.plusPoint(s.timesG(a), s.timesG(b))
      {
        GroupHolds(c, a, b);
      }
    }
    assert s.EvenYLaws() by {
      forall a
        ensures s.isEvenY(s.timesG(a)) || s.isEvenY(s.timesG(s.negate(a)))
        ensures s.isEvenY(s.timesG(a)) ==> s.toPoint(s.toXOnly(s.timesG(a))) == s.timesG(a)
      {
        EvenYHolds(c, a);
      }
    }
    SignaturesHold(c);
  }

  lemma SignaturesHold(c: Curve)
    requires c.Valid()
    ensures SuiteOf(c).SignatureLaws()
  {
    var s := SuiteOf(c);
    forall sk, m, n | s.usable(sk, m, n)
      ensures s.verify(s.timesG(sk), m, s.sign(sk, m, n)) && s.verifyStrict(s.timesG(sk), m, s.sign(sk, m, n))
    {
      HonestSignature(c, sk, m, n);
    }
    forall sk, e, m, n | s.usableEncrypted(sk, e, m, n)
      ensures s.verifyEncrypted(s.timesG(sk), e, m, s.encryptedSign(sk, e, m, n))
    {
      HonestEncryptedSignature(c, sk, e, m, n);
    }
    forall p, y, m, g | s.verifyEncrypted(p, s.timesG(y), m, g)
      ensures s.verify(p, m, s.decrypt(y, g)) && s.verifyStrict(p, m, s.decrypt(y, g))
    {
      DecryptedVerifies(c, p, y, m, g);
    }
  }
}
