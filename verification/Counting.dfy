// Counting the indices of a window that satisfy a predicate: windows of a
// periodic predicate, thresholds, and the product rule for coprime periods.
module Counting {
  import opened Arithmetic

  /** How many of `lo, lo + 1, ..., lo + n - 1` satisfy `p`. */
  ghost function Count(p: nat -> bool, lo: nat, n: nat): nat {
    if n == 0 then 0 else Count(p, lo, n - 1) + (if p(lo + n - 1) then 1 else 0)
  }

  ghost predicate Periodic(p: nat -> bool, len: nat) {
    forall i: nat, j: nat :: j == i + len ==> p(j) == p(i)
  }

  lemma {:induction false} CountConcat(p: nat -> bool, lo: nat, m: nat, n: nat)
    ensures Count(p, lo, m + n) == Count(p, lo, m) + Count(p, lo + m, n)
  {
    if n != 0 {
      CountConcat(p, lo, m, n - 1);
      assert lo + (m + n) - 1 == lo + m + n - 1;
    }
  }

  lemma {:induction false} CountNone(p: nat -> bool, lo: nat, n: nat)
    requires forall i: nat :: lo <= i < lo + n ==> !p(i)
    ensures Count(p, lo, n) == 0
  {
    if n != 0 {
      CountNone(p, lo, n - 1);
    }
  }

  /** A window of one whole period counts the same wherever it starts. */
  lemma {:induction false} CountWindow(p: nat -> bool, len: nat, lo: nat)
    requires Periodic(p, len)
    ensures Count(p, lo, len) == Count(p, 0, len)
  {
    if lo != 0 {
      CountWindow(p, len, lo - 1);
      CountConcat(p, lo - 1, 1, len);
      CountConcat(p, lo - 1, len, 1);
      assert p(lo - 1 + len) == p(lo - 1);
      assert Count(p, lo - 1, 1) == Count(p, lo - 1, 0) + (if p(lo - 1) then 1 else 0);
      assert Count(p, lo - 1 + len, 1) == Count(p, lo - 1 + len, 0) + (if p(lo - 1 + len) then 1 else 0);
    }
  }

  /** ... and so do `m` periods. */
  lemma {:induction false} CountPeriods(p: nat -> bool, len: nat, lo: nat, m: nat)
    requires Periodic(p, len)
    ensures Count(p, lo, m * len) == m * Count(p, 0, len)
  {
    if m != 0 {
      CountPeriods(p, len, lo, m - 1);
      var before: nat := (m - 1) * len;
      assert m * len == before + len;
      CountConcat(p, lo, before, len);
      CountWindow(p, len, lo + before);
      assert m * Count(p, 0, len) == (m - 1) * Count(p, 0, len) + Count(p, 0, len);
    }
  }

  lemma {:induction false} CountExt(p: nat -> bool, q: nat -> bool, lo: nat, n: nat)
    requires forall i: nat :: lo <= i < lo + n ==> p(i) == q(i)
    ensures Count(p, lo, n) == Count(q, lo, n)
  {
    if n != 0 {
      CountExt(p, q, lo, n - 1);
    }
  }

  lemma {:induction false} CountNot(p: nat -> bool, lo: nat, n: nat)
    ensures Count(p, lo, n) + Count((i: nat) => !p(i), lo, n) == n
  {
    if n != 0 {
      CountNot(p, lo, n - 1);
    }
  }

  lemma {:induction false} CountPartition(p: nat -> bool, q: nat -> bool, r: nat -> bool, lo: nat, n: nat)
    requires forall i: nat {:trigger p(i)} :: (p(i) && !q(i) && !r(i)) || (!p(i) && q(i) != r(i))
    ensures Count(p, lo, n) + Count(q, lo, n) + Count(r, lo, n) == n
  {
    if n != 0 {
      CountPartition(p, q, r, lo, n - 1);
      assert p(lo + n - 1) ==> !q(lo + n - 1);
    }
  }

  /** Counting below a threshold `k` inside `[0, n)`. */
  lemma {:induction false} CountBelow(p: nat -> bool, n: nat, k: nat)
    requires k <= n
    requires forall i: nat :: i < n ==> (p(i) <==> i < k)
    ensures Count(p, 0, n) == k
  {
    if n != 0 {
      CountBelow(p, n - 1, if k == n then k - 1 else k);
    }
  }

  // ----- counting under an injection -----

  ghost function Hits(p: nat -> bool, n: nat): set<nat> {
    set i: nat | i < n && p(i)
  }

  lemma {:induction false} CountIsCardinality(p: nat -> bool, n: nat)
    ensures Count(p, 0, n) == |Hits(p, n)|
  {
    if n == 0 {
      assert Hits(p, 0) == {};
    } else {
      CountIsCardinality(p, n - 1);
      assert Hits(p, n) == Hits(p, n - 1) + (if p(n - 1) then {n - 1} else {});
    }
  }

  lemma {:induction false} InjectionCardinality(a: set<nat>, b: set<nat>, f: nat -> nat)
    requires forall x :: x in a ==> f(x) in b
    requires forall x, y :: x in a && y in a && f(x) == f(y) ==> x == y
    ensures |a| <= |b|
    decreases a
  {
    if a != {} {
      var x :| x in a;
      InjectionCardinality(a - {x}, b - {f(x)}, f);
    }
  }

  lemma {:induction false} CountInjected(p: nat -> bool, pf: nat -> bool, f: nat -> nat, n: nat)
    requires forall i: nat :: i < n ==> f(i) < n && pf(i) == p(f(i))
    requires forall i: nat, j: nat :: i < n && j < n && f(i) == f(j) ==> i == j
    ensures Count(pf, 0, n) <= Count(p, 0, n)
  {
    CountIsCardinality(p, n);
    CountIsCardinality(pf, n);
    var a, b := Hits(pf, n), Hits(p, n);
    forall x | x in a
      ensures f(x) in b
    {
      assert x < n && pf(x);
    }
    InjectionCardinality(a, b, f);
  }

  ghost function Image<T>(f: nat -> T, n: nat): set<T> {
    set i: nat | i < n :: f(i)
  }

  lemma {:induction false} ImageCardinality<T>(f: nat -> T, n: nat)
    requires forall i: nat, j: nat :: i < n && j < n && f(i) == f(j) ==> i == j
    ensures |Image(f, n)| == n
  {
    if n == 0 {
      assert Image(f, n) == {};
    } else {
      ImageCardinality(f, n - 1);
      assert Image(f, n) == Image(f, n - 1) + {f(n - 1)};
    }
  }

  /** Re-indexing `[0, n)` by an injection of `[0, n)` into itself keeps every count. */
  lemma {:induction false} CountPermuted(p: nat -> bool, pf: nat -> bool, f: nat -> nat, n: nat)
    requires forall i: nat :: i < n ==> f(i) < n && pf(i) == p(f(i))
    requires forall i: nat, j: nat :: i < n && j < n && f(i) == f(j) ==> i == j
    ensures Count(pf, 0, n) == Count(p, 0, n)
  {
    CountInjected(p, pf, f, n);
    CountNot(p, 0, n);
    CountNot(pf, 0, n);
    CountInjected((i: nat) => !p(i), (i: nat) => !pf(i), f, n);
  }

  // ----- the product rule -----

  /** Sum of `f` over `[0, n)`. */
  ghost function Sum(f: nat -> nat, n: nat): nat {
    if n == 0 then 0 else Sum(f, n - 1) + f(n - 1)
  }

  lemma {:induction false} SumAdd(f: nat -> nat, g: nat -> nat, h: nat -> nat, n: nat)
    requires forall i: nat :: i < n ==> h(i) == f(i) + g(i)
    ensures Sum(h, n) == Sum(f, n) + Sum(g, n)
  {
    if n != 0 {
      SumAdd(f, g, h, n - 1);
    }
  }

  lemma {:induction false} SumIsCount(p: nat -> bool, f: nat -> nat, lo: nat, n: nat)
    requires forall i: nat :: i < n ==> f(i) == if p(lo + i) then 1 else 0
    ensures Sum(f, n) == Count(p, lo, n)
  {
    if n != 0 {
      SumIsCount(p, f, lo, n - 1);
    }
  }

  lemma {:induction false} SumWeighted(p: nat -> bool, f: nat -> nat, w: nat, n: nat)
    requires forall i: nat :: i < n ==> f(i) == if p(i) then w else 0
    ensures Sum(f, n) == Count(p, 0, n) * w
  {
    if n != 0 {
      SumWeighted(p, f, w, n - 1);
    }
  }

  /** The members of column `r` (`r, r + a, r + 2a, ...`) whose remainder by `b` satisfies `q`. */
  ghost function Column(q: nat -> bool, a: nat, b: nat, r: nat): nat -> bool
    requires b > 0
  {
    (j: nat) => q((r + a * j) % b)
  }

  lemma BlockRemainder(a: nat, r: nat, j: nat)
    requires r < a
    ensures (r + a * j) % a == r
  {
    DivModUnique(r + a * j, a, j, r);
  }

  ghost predicate Product(pq: nat -> bool, p: nat -> bool, q: nat -> bool, a: nat, b: nat)
    requires a > 0 && b > 0
  {
    forall i: nat {:trigger pq(i)} :: pq(i) == (p(i % a) && q(i % b))
  }

  /** Row `m` of the table, `a * m, ..., a * m + a - 1`, summed cell by cell. */
  lemma {:induction false} CountRow(p: nat -> bool, q: nat -> bool, pq: nat -> bool, a: nat, b: nat, m: nat, row: nat -> nat)
    requires a > 0 && b > 0 && Product(pq, p, q, a, b)
    requires forall r: nat {:trigger row(r)} :: row(r) == if p(r) && q((r + a * m) % b) then 1 else 0
    ensures Sum(row, a) == Count(pq, a * m, a)
  {
    forall r: nat | r < a
      ensures row(r) == if pq(a * m + r) then 1 else 0
    {
      BlockRemainder(a, r, m);
      var i := a * m + r;
      assert pq(i) == (p(i % a) && q(i % b));
      assert i == r + a * m;
    }
    SumIsCount(pq, row, a * m, a);
  }

  ghost function Cells(p: nat -> bool, q: nat -> bool, a: nat, b: nat, m: nat): nat -> nat
    requires b > 0
  {
    (r: nat) => if p(r) then Count(Column(q, a, b, r), 0, m) else 0
  }

  /** Row by row, `a * m` indices are `a` columns of height `m`. */
  lemma {:induction false} CountByColumns(p: nat -> bool, q: nat -> bool, pq: nat -> bool, a: nat, b: nat, m: nat)
    requires a > 0 && b > 0 && Product(pq, p, q, a, b)
    ensures Count(pq, 0, a * m) == Sum(Cells(p, q, a, b, m), a)
  {
    var cells := Cells(p, q, a, b, m);
    if m == 0 {
      forall r: nat | r < a
        ensures cells(r) == 0
      {
        assert Count(Column(q, a, b, r), 0, 0) == 0;
      }
      SumWeighted((i: nat) => false, cells, 0, a);
    } else {
      var above := Cells(p, q, a, b, m - 1);
      var row: nat -> nat := (r: nat) => if p(r) && q((r + a * (m - 1)) % b) then 1 else 0;
      CountByColumns(p, q, pq, a, b, m - 1);
      forall r: nat | r < a
        ensures cells(r) == above(r) + row(r)
      {
        var column := Column(q, a, b, r);
        assert Count(column, 0, m) == Count(column, 0, m - 1) + (if column(m - 1) then 1 else 0);
      }
      SumAdd(above, row, cells, a);
      CountRow(p, q, pq, a, b, m - 1, row);
      RowBelow(pq, a, m);
    }
  }

  lemma {:induction false} RowBelow(pq: nat -> bool, a: nat, m: nat)
    requires m > 0
    ensures a * (m - 1) >= 0
    ensures Count(pq, 0, a * m) == Count(pq, 0, a * (m - 1)) + Count(pq, a * (m - 1), a)
  {
    assert a * m == a * (m - 1) + a;
    CountConcat(pq, 0, a * (m - 1), a);
  }

  /** Multiplying by `a` is injective modulo `b` when `a` has an inverse `u`. */
  lemma ColumnInjective(a: nat, b: nat, u: nat, r: nat, i: nat, j: nat)
    requires b > 0 && (a * u) % b == 1 % b
    requires i < b && j < b && (r + a * i) % b == (r + a * j) % b
    ensures i == j
  {
    if b > 1 {
      var k := QuotientGap(r + a * i, r + a * j, b);
      var v := QuotientGap(a * u, 1, b);
      assert a * (i - j) == a * i - a * j;
      CancelInverse(a, b, u, v, i - j, k);
      MultipleInRange(b, u * k - v * (i - j));
    }
  }

  lemma CancelInverse(a: int, b: int, u: int, v: int, d: int, k: int)
    requires a * u == b * v + 1 && a * d == b * k
    ensures d == b * (u * k - v * d)
  {
    calc {
      b * (u * k - v * d);
      u * (b * k) - (b * v) * d;
      u * (a * d) - (a * u - 1) * d;
      d;
    }
  }

  /**
   * Product rule. When `a` is invertible modulo `b`, conditions on `i % a` and
   * on `i % b` are independent over `a * b` consecutive indices.
   */
  lemma {:induction false} CountProduct(p: nat -> bool, q: nat -> bool, pq: nat -> bool, a: nat, b: nat, u: nat)
    requires a > 0 && b > 0 && (a * u) % b == 1 % b && Product(pq, p, q, a, b)
    ensures Count(pq, 0, a * b) == Count(p, 0, a) * Count(q, 0, b)
  {
    var cells := Cells(p, q, a, b, b);
    CountByColumns(p, q, pq, a, b, b);
    var w := Count(q, 0, b);
    forall r: nat | r < a
      ensures cells(r) == if p(r) then w else 0
    {
      CountColumn(q, a, b, u, r);
    }
    SumWeighted(p, cells, w, a);
  }

  ghost function Diagonal(a: nat, b: nat, r: nat): nat -> nat
    requires b > 0
  {
    (j: nat) => (r + a * j) % b
  }

  lemma {:induction false} CountColumn(q: nat -> bool, a: nat, b: nat, u: nat, r: nat)
    requires a > 0 && b > 0 && (a * u) % b == 1 % b
    ensures Count(Column(q, a, b, r), 0, b) == Count(q, 0, b)
  {
    var f: nat -> nat := Diagonal(a, b, r);
    forall i: nat, j: nat | i < b && j < b && f(i) == f(j)
      ensures i == j
    {
      ColumnInjective(a, b, u, r, i, j);
    }
    forall i: nat | i < b
      ensures f(i) < b && Column(q, a, b, r)(i) == q(f(i))
    {
    }
    CountPermuted(q, Column(q, a, b, r), f, b);
  }
}
