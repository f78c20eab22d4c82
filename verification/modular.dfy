/** Arithmetic modulo a prime. */
module Modular {

  /** Congruence modulo `q`. */
  predicate Cong(q: int, a: int, b: int)
    requires q > 0
  {
    a % q == b % q
  }

  lemma MultipleSize(q: int, d: int)
    requires q > 0
    ensures d >= 1 ==> q * d >= q
    ensures d <= -1 ==> q * d <= -q
    ensures q * d > 0 ==> d >= 1
  {
  }

  lemma AddMultiple(q: int, a: int, t: int)
    requires q > 0
    ensures (a + q * t) % q == a % q
  {
    var x := a + q * t;
    var d := x / q - a / q - t;
    assert q * (x / q) + x % q == q * (a / q) + a % q + q * t;
    assert q * d == a % q - x % q;
    MultipleSize(q, d);
  }

  lemma SmallMod(q: int, a: int)
    requires 0 <= a < q
    ensures a % q == a
  {
  }

  /** Congruent numbers differ by a multiple. */
  lemma Multiple(q: int, a: int, b: int) returns (t: int)
    requires q > 0 && Cong(q, a, b)
    ensures a == b + q * t
  {
    t := a / q - b / q;
    assert a == q * (a / q) + a % q && b == q * (b / q) + b % q;
  }

  lemma Reduce(q: int, a: int)
    requires q > 0
    ensures Cong(q, a % q, a)
  {
    assert a == q * (a / q) + a % q;
    AddMultiple(q, a % q, a / q);
  }

  lemma CongAdd(q: int, a: int, b: int, c: int, d: int)
    requires q > 0 && Cong(q, a, b) && Cong(q, c, d)
    ensures Cong(q, a + c, b + d)
  {
    var t := Multiple(q, a, b);
    var u := Multiple(q, c, d);
    assert a + c == (b + d) + q * (t + u);
    AddMultiple(q, b + d, t + u);
  }

  lemma CongTimes(q: int, a: int, b: int, c: int)
    requires q > 0 && Cong(q, a, b)
    ensures Cong(q, a * c, b * c)
  {
    var t := Multiple(q, a, b);
    Distribute(q, b, t, c);
    AddMultiple(q, b * c, t * c);
  }

  lemma Distribute(q: int, b: int, t: int, c: int)
    ensures (b + q * t) * c == b * c + q * (t * c)
  {
    assert (q * t) * c == q * (t * c);
  }

  lemma CongMul(q: int, a: int, b: int, c: int, d: int)
    requires q > 0 && Cong(q, a, b) && Cong(q, c, d)
    ensures Cong(q, a * c, b * d)
  {
    CongTimes(q, a, b, c);
    CongTimes(q, c, d, b);
    assert c * b == b * c && d * b == b * d;
  }

  predicate IsFactor(d: int, q: int) {
    d > 0 && q % d == 0
  }

  ghost predicate Prime(q: int) {
    q >= 2 && forall d :: 1 < d < q ==> !IsFactor(d, q)
  }

  ghost predicate Divides(g: int, a: int) {
    exists m :: a == g * m
  }

  /** The greatest common divisor with Bezout's coefficients. */
  function Bezout(a: nat, b: nat): (r: (int, int, int))
    ensures a * r.1 + b * r.2 == r.0
    decreases b
  {
    if b == 0 then (a, 1, 0)
    else
      var (g, x, y) := Bezout(b, a % b);
      assert a * y + b * (x - (a / b) * y) == g by {
        assert a == b * (a / b) + a % b;
        assert b * (x - (a / b) * y) == b * x - (b * (a / b)) * y;
      }
      (g, y, x - (a / b) * y)
  }

  lemma {:induction false} BezoutDivides(a: nat, b: nat)
    ensures Divides(Bezout(a, b).0, a) && Divides(Bezout(a, b).0, b)
    decreases b
  {
    var g := Bezout(a, b).0;
    if b == 0 {
      assert a == g * 1 && b == g * 0;
    } else {
      BezoutDivides(b, a % b);
      var m :| b == g * m;
      var n :| a % b == g * n;
      assert a == g * (m * (a / b) + n) by {
        assert a == b * (a / b) + a % b;
        assert (g * m) * (a / b) == g * (m * (a / b));
      }
    }
  }

  /** The inverse of `a` modulo a prime. */
  function Inverse(q: int, a: int): int
    requires q > 0
  {
    Bezout(a % q, q).1
  }

  lemma InverseWorks(q: int, a: int)
    requires Prime(q) && a % q != 0
    ensures Cong(q, a * Inverse(q, a), 1)
  {
    var b := a % q;
    var (g, x, y) := Bezout(b, q);
    BezoutDivides(b, q);
    var m :| b == g * m;
    var n :| q == g * n;
    GcdIsUnit(q, b, g, m, n);
    if g == 1 {
      UnitInverse(q, a, x, y);
    } else {
      assert b * (-x) + q * (-y) == 1 by {
        assert b * (-x) == -(b * x) && q * (-y) == -(q * y);
      }
      assert g == -1;
      BezoutPositive(b, q);
    }
  }

  lemma {:induction false} BezoutPositive(a: nat, b: nat)
    ensures Bezout(a, b).0 >= 0
    decreases b
  {
    if b != 0 {
      BezoutPositive(b, a % b);
    }
  }

  /** A common divisor of a prime and a smaller number is a unit. */
  lemma GcdIsUnit(q: int, b: int, g: int, m: int, n: int)
    requires Prime(q) && 0 < b < q && b == g * m && q == g * n
    ensures g == 1 || g == -1
  {
    var h := if g < 0 then -g else g;
    var k := if g < 0 then -n else n;
    var l := if g < 0 then -m else m;
    assert q == h * k && b == h * l;
    assert h != 0;
    MultipleSize(h, l);
    assert h * l >= h * 1;
    AddMultiple(h, 0, k);
    assert IsFactor(h, q);
  }

  lemma UnitInverse(q: int, a: int, x: int, y: int)
    requires q > 1 && (a % q) * x + q * y == 1
    ensures Cong(q, a * x, 1)
  {
    Reduce(q, a);
    CongMul(q, a % q, a, x, x);
    AddMultiple(q, (a % q) * x, y);
  }

  /** If `t * u` is congruent to `w` then dividing `w` by `t` gives `u`. */
  lemma Divide(q: int, t: int, u: int, w: int)
    requires Prime(q) && t % q != 0 && Cong(q, t * u, w)
    ensures (Inverse(q, t) * w) % q == u % q
  {
    var i := Inverse(q, t);
    InverseWorks(q, t);
    CongMul(q, i, i, w, t * u);
    assert i * (t * u) == (t * i) * u;
    CongMul(q, t * i, 1, u, u);
  }

  /** A product with a nonzero factor is nonzero exactly when the other factor is. */
  lemma NonzeroProduct(q: int, a: int, b: int)
    requires Prime(q) && (a * b) % q != 0
    ensures a % q != 0 && b % q != 0
  {
    if a % q == 0 {
      CongMul(q, a, 0, b, b);
    }
    if b % q == 0 {
      CongMul(q, a, a, b, 0);
    }
  }
}
