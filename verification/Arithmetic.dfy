module Arithmetic {
  function One(b: bool): nat {
    if b then 1 else 0
  }

  /** Only zero is a multiple of `a` strictly between `-a` and `a`. */
  lemma MultipleInRange(a: int, d: int)
    requires a > 0 && -a < a * d < a
    ensures d == 0
  {
  }

  lemma DivModUnique(x: int, a: int, k: int, r: int)
    requires 0 <= r < a && x == r + a * k
    ensures x % a == r && x / a == k
  {
    var d := x / a - k;
    assert a * d == r - x % a;
    MultipleInRange(a, d);
  }

  /** Congruent numbers differ by a multiple of the modulus. */
  lemma QuotientGap(x: int, y: int, b: int) returns (k: int)
    requires b > 0 && x % b == y % b
    ensures x - y == b * k
  {
    k := x / b - y / b;
  }

  /** Adding a multiple of `d * m` changes neither the quotient by `d` modulo `m`. */
  lemma ShiftMod(i: nat, d: nat, m: nat, t: nat)
    requires d > 0 && m > 0
    ensures d * (m * t) >= 0 && (i + d * (m * t)) / d % m == i / d % m
  {
    var q := i / d;
    DivModUnique(i + d * (m * t), d, q + m * t, i % d);
    DivModUnique(q + m * t, m, q / m + t, q % m);
  }

  /** Bezout: a multiple of `a` and of `b` is a multiple of `a * b` when `a * u - b * v == 1`. */
  lemma CommonMultiple(p: int, a: int, b: int, u: int, v: int)
    requires a > 0 && b > 0 && a * u - b * v == 1
    requires p % a == 0 && p % b == 0
    ensures a * b > 0 && p % (a * b) == 0
  {
    var x, y := p / a, p / b;
    calc {
      p;
      (a * u - b * v) * p;
      (a * u) * (b * y) - (b * v) * (a * x);
      (a * b) * (u * y - v * x);
    }
    DivModUnique(p, a * b, u * y - v * x, 0);
  }

  /** Stepping every `d`, through `m` values: what counts is the index modulo `d * m`. */
  lemma Phase(i: nat, d: nat, m: nat, w: nat)
    requires d > 0 && m > 0 && w == d * m > 0
    ensures i / d % m == i % w / d
  {
    var r, q := i % w, i / w;
    PhaseOf(r, q, d, m);
    Associates(d, m, q);
    assert i == r + w * q;
  }

  lemma PhaseOf(r: nat, q: nat, d: nat, m: nat)
    requires d > 0 && m > 0 && r < d * m
    ensures (r + d * (m * q)) / d % m == r / d
  {
    ShiftMod(r, d, m, q);
    QuotientBelow(r, d, m);
    SmallMod(r / d, m);
  }

  lemma SmallMod(x: nat, m: nat)
    requires x < m
    ensures x % m == x
  {
  }

  lemma Associates(a: int, b: int, c: int)
    ensures a * b * c == a * (b * c)
  {
  }

  lemma QuotientBelow(r: nat, d: nat, m: nat)
    requires d > 0 && r < d * m
    ensures r / d < m
  {
  }
}
