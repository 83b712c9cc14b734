// The order id: the producer prints an index as `o-` and at least ten decimal
// digits, the consumer strips the prefix and parses the rest as a u64.
module OrderIds {
  import opened Wrappers

  const U64_LIMIT: nat := 0x1_0000_0000_0000_0000
  const ID_DIGITS: nat := 10

  function Digit(d: nat): (c: char)
    requires d < 10
  {
    (48 + d) as char
  }

  function Decimal(n: nat): string {
    if n < 10 then [Digit(n)] else Decimal(n / 10) + [Digit(n % 10)]
  }

  function Zeros(k: nat): string {
    if k == 0 then "" else Zeros(k - 1) + "0"
  }

  /** `{n:010}`: the decimal print, zero-padded on the left to ten characters. */
  function Padded(n: nat): string {
    var digits := Decimal(n);
    if |digits| < ID_DIGITS then Zeros(ID_DIGITS - |digits|) + digits else digits
  }

  function OrderId(i: nat): string {
    "o-" + Padded(i)
  }

  // ----- parsing -----

  predicate IsDigit(c: char) {
    '0' <= c <= '9'
  }

  function DigitValue(c: char): nat
    requires IsDigit(c)
  {
    c as int - 48
  }

  /** Digit by digit from the left; any overflow of u64 on the way is an error. */
  function ParseDigits(s: string): Option<nat> {
    if s == "" then Some(0)
    else
      var last := s[|s| - 1];
      match ParseDigits(s[..|s| - 1])
      case None => None
      case Some(v) =>
        if IsDigit(last) && v * 10 + DigitValue(last) < U64_LIMIT
        then Some(v * 10 + DigitValue(last))
        else None
  }

  /** `str::parse::<u64>`: one leading `+` is allowed, an empty number is not. */
  function ParseU64(s: string): Option<nat> {
    var digits := if |s| > 0 && s[0] == '+' then s[1..] else s;
    if digits == "" then None else ParseDigits(digits)
  }

  /** The consumer's reading of an order id; anything unreadable is index 0. */
  function OrderIndex(id: string): nat {
    if |id| >= 2 && id[..2] == "o-" then ParseU64(id[2..]).GetOr(0) else 0
  }

  // ----- what a digit string denotes -----

  ghost predicate AllDigits(s: string) {
    forall k :: 0 <= k < |s| ==> IsDigit(s[k])
  }

  ghost function Value(s: string): nat
    requires AllDigits(s)
  {
    if s == "" then 0 else Value(s[..|s| - 1]) * 10 + DigitValue(s[|s| - 1])
  }

  /** The parser accepts exactly the digit strings whose value fits in a u64. */
  lemma {:induction false} ParseDigitsExact(s: string)
    ensures ParseDigits(s).Some? <==> AllDigits(s) && Value(s) < U64_LIMIT
    ensures ParseDigits(s).Some? ==> ParseDigits(s).value == Value(s)
  {
    if s != "" {
      var init := s[..|s| - 1];
      ParseDigitsExact(init);
      if AllDigits(init) && IsDigit(s[|s| - 1]) {
        assert s == init + [s[|s| - 1]];
        assert AllDigits(s);
      }
    }
  }

  /** `s` is a number in the sense of `str::parse`: an optional plus, then at least one digit. */
  ghost predicate Denotes(s: string, digits: string, v: nat) {
    (s == digits || s == "+" + digits) && digits != "" && AllDigits(digits) && Value(digits) == v
  }

  /** The whole parser: `v` comes out exactly if `s` is a number of value `v` below 2^64. */
  lemma ParseU64Exact(s: string, v: nat)
    ensures ParseU64(s) == Some(v) <==> v < U64_LIMIT && exists digits :: Denotes(s, digits, v)
  {
    var digits := if |s| > 0 && s[0] == '+' then s[1..] else s;
    ParseDigitsExact(digits);
    if ParseU64(s) == Some(v) {
      assert s == digits || s == "+" + digits;
      assert Denotes(s, digits, v);
    }
    if d :| Denotes(s, d, v) {
      assert IsDigit(d[0]);
      assert d == digits;
    }
  }

  /** Reading an id: the number after the prefix, or 0 for anything else. */
  lemma OrderIndexExact(id: string, v: nat)
    requires v > 0
    ensures OrderIndex(id) == v <==> v < U64_LIMIT && exists s, digits :: id == "o-" + s && Denotes(s, digits, v)
  {
    if |id| >= 2 && id[..2] == "o-" {
      assert id == "o-" + id[2..];
      ParseU64Exact(id[2..], v);
      if s, digits :| id == "o-" + s && Denotes(s, digits, v) {
        assert s == id[2..];
      }
    } else {
      assert forall s: string :: ("o-" + s)[..2] == "o-";
    }
  }

  lemma {:induction false} DecimalDenotes(n: nat)
    ensures Decimal(n) != "" && AllDigits(Decimal(n)) && Value(Decimal(n)) == n
  {
    if n >= 10 {
      DecimalDenotes(n / 10);
      assert Decimal(n)[..|Decimal(n)| - 1] == Decimal(n / 10);
    } else {
      assert Decimal(n)[..0] == "";
      assert Value(Decimal(n)) == Value("") * 10 + n;
    }
  }

  lemma {:induction false} LeadingZeros(k: nat, s: string)
    requires AllDigits(s)
    ensures AllDigits(Zeros(k) + s) && Value(Zeros(k) + s) == Value(s)
    decreases k, |s|
  {
    if s != "" {
      var init := s[..|s| - 1];
      LeadingZeros(k, init);
      assert (Zeros(k) + s)[..|Zeros(k) + s| - 1] == Zeros(k) + init;
    } else if k != 0 {
      LeadingZeros(k - 1, "");
      assert Zeros(k) + "" == Zeros(k);
      assert Zeros(k - 1) + "" == Zeros(k - 1);
      assert Zeros(k)[..|Zeros(k)| - 1] == Zeros(k - 1);
    }
  }

  lemma PaddedDenotes(n: nat)
    ensures Padded(n) != "" && AllDigits(Padded(n)) && Value(Padded(n)) == n
  {
    DecimalDenotes(n);
    if |Decimal(n)| < ID_DIGITS {
      LeadingZeros(ID_DIGITS - |Decimal(n)|, Decimal(n));
    }
  }

  /** Printing then parsing: every u64 comes back, a larger index reads as 0. */
  lemma OrderIdRoundTrip(i: nat)
    ensures OrderIndex(OrderId(i)) == if i < 18446744073709551616 then i else 0
  {
    PaddedDenotes(i);
    ParseDigitsExact(Padded(i));
    assert OrderId(i)[..2] == "o-";
    assert OrderId(i)[2..] == Padded(i);
    assert IsDigit(Padded(i)[0]);
  }

  lemma OrderIdInjective(i: nat, j: nat)
    ensures OrderId(i) == OrderId(j) <==> i == j
  {
    PaddedDenotes(i);
    PaddedDenotes(j);
    assert OrderId(i)[2..] == Padded(i);
    assert OrderId(j)[2..] == Padded(j);
  }

  // ----- sorting ids -----

  ghost predicate LexLess(a: string, b: string) {
    b != "" && (a == "" || a[0] < b[0] || (a[0] == b[0] && LexLess(a[1..], b[1..])))
  }

  ghost function Pow10(k: nat): nat
    ensures Pow10(k) > 0
  {
    if k == 0 then 1 else 10 * Pow10(k - 1)
  }

  /** `n` without its last `k` digits. */
  ghost function Cut(n: nat, k: nat): nat {
    if k == 0 then n else Cut(n / 10, k - 1)
  }

  /** `n` in exactly `w` digits. */
  ghost function Fixed(n: nat, w: nat): (s: string)
    ensures |s| == w
  {
    if w == 0 then "" else Fixed(n / 10, w - 1) + [Digit(n % 10)]
  }

  lemma {:induction false} DecimalIsFixed(n: nat)
    ensures Decimal(n) == Fixed(n, |Decimal(n)|) && n < Pow10(|Decimal(n)|)
  {
    var w := |Decimal(n)|;
    if n < 10 {
      assert Fixed(n / 10, 0) == "";
      assert Pow10(1) == 10 * Pow10(0);
    } else {
      DecimalIsFixed(n / 10);
      assert w - 1 == |Decimal(n / 10)|;
    }
  }

  lemma {:induction false} ZerosAreFixed(k: nat, n: nat, w: nat)
    requires n < Pow10(w)
    ensures Zeros(k) + Fixed(n, w) == Fixed(n, k + w) && n < Pow10(k + w)
    decreases w, k
  {
    if w != 0 {
      ZerosAreFixed(k, n / 10, w - 1);
      assert Zeros(k) + Fixed(n, w) == Zeros(k) + Fixed(n / 10, w - 1) + [Digit(n % 10)];
    } else if k != 0 {
      ZerosAreFixed(k - 1, 0, 0);
      assert Zeros(k - 1) + Fixed(0, 0) == Zeros(k - 1);
      assert Digit(0) == '0';
      assert Zeros(k) + Fixed(0, 0) == Zeros(k);
    }
  }

  /** Ten digits unless the number needs more, and then just as many as it needs. */
  lemma {:induction false} PaddedIsFixed(n: nat)
    ensures Padded(n) == Fixed(n, |Padded(n)|) && n < Pow10(|Padded(n)|)
    ensures |Padded(n)| >= ID_DIGITS
    ensures |Padded(n)| > ID_DIGITS ==> Pow10(|Padded(n)| - 1) <= n
  {
    DecimalIsFixed(n);
    DecimalIsLeast(n);
    var w := |Decimal(n)|;
    if w < ID_DIGITS {
      ZerosAreFixed(ID_DIGITS - w, n, w);
    }
  }

  lemma {:induction false} DecimalIsLeast(n: nat)
    ensures |Decimal(n)| > 1 ==> Pow10(|Decimal(n)| - 1) <= n
  {
    if n >= 10 {
      DecimalIsLeast(n / 10);
      assert |Decimal(n)| - 1 == |Decimal(n / 10)|;
      if |Decimal(n / 10)| == 1 {
        assert Pow10(1) == 10 * Pow10(0);
      } else {
        assert Pow10(|Decimal(n)| - 1) == 10 * Pow10(|Decimal(n / 10)| - 1);
      }
    }
  }

  lemma {:induction false} Pow10Monotone(a: nat, b: nat)
    requires a <= b
    ensures Pow10(a) <= Pow10(b)
  {
    if a < b {
      Pow10Monotone(a, b - 1);
    }
  }

  lemma {:induction false} LexSnoc(a: string, x: char, b: string, y: char)
    requires |a| == |b|
    ensures LexLess(a + [x], b + [y]) <==> LexLess(a, b) || (a == b && x < y)
  {
    if a == "" {
      assert !LexLess(([x])[1..], ([y])[1..]);
      assert a + [x] == [x] && b + [y] == [y];
    } else {
      LexSnoc(a[1..], x, b[1..], y);
      assert (a + [x])[1..] == a[1..] + [x];
      assert (b + [y])[1..] == b[1..] + [y];
      assert a == b <==> a[0] == b[0] && a[1..] == b[1..] by {
        assert a == [a[0]] + a[1..];
        assert b == [b[0]] + b[1..];
      }
    }
  }

  /** Prints of one width compare as numbers. */
  lemma {:induction false} FixedOrder(i: nat, j: nat, w: nat)
    requires i < Pow10(w) && j < Pow10(w)
    ensures LexLess(Fixed(i, w), Fixed(j, w)) <==> i < j
    ensures Fixed(i, w) == Fixed(j, w) <==> i == j
  {
    if w != 0 {
      FixedOrder(i / 10, j / 10, w - 1);
      LexSnoc(Fixed(i / 10, w - 1), Digit(i % 10), Fixed(j / 10, w - 1), Digit(j % 10));
      assert Fixed(i, w)[..w - 1] == Fixed(i / 10, w - 1);
      assert Fixed(j, w)[..w - 1] == Fixed(j / 10, w - 1);
      assert Fixed(i, w)[w - 1] == Digit(i % 10);
      assert Fixed(j, w)[w - 1] == Digit(j % 10);
    }
  }

  lemma {:induction false} CutShrinks(n: nat, k: nat)
    ensures Cut(n, k) <= n
  {
    if k != 0 {
      CutShrinks(n / 10, k - 1);
    }
  }

  /** The first `w` digits of a longer print are the print of the cut number. */
  lemma {:induction false} FixedPrefix(n: nat, w: nat, k: nat)
    requires n < Pow10(w + k)
    ensures Fixed(n, w + k)[..w] == Fixed(Cut(n, k), w) && Cut(n, k) < Pow10(w)
    decreases k
  {
    if k != 0 {
      FixedPrefix(n / 10, w, k - 1);
      assert Fixed(n, w + k)[..w] == Fixed(n / 10, w + k - 1)[..w];
    }
  }

  lemma {:induction false} LexPrefix(a: string, c: string, rest: string)
    requires |a| == |c| && rest != ""
    ensures LexLess(a, c + rest) <==> LexLess(a, c) || a == c
  {
    if a != "" {
      LexPrefix(a[1..], c[1..], rest);
      assert (c + rest)[1..] == c[1..] + rest;
      assert a == c <==> a[0] == c[0] && a[1..] == c[1..] by {
        assert a == [a[0]] + a[1..];
        assert c == [c[0]] + c[1..];
      }
    }
  }

  lemma {:induction false} LexCommonPrefix(p: string, a: string, b: string)
    ensures LexLess(p + a, p + b) <==> LexLess(a, b)
  {
    if p == "" {
      assert p + a == a && p + b == b;
    } else {
      LexCommonPrefix(p[1..], a, b);
      assert (p + a)[1..] == p[1..] + a;
      assert (p + b)[1..] == p[1..] + b;
    }
  }

  /** Comparing a `w`-digit print with one of a larger number, `k` digits longer. */
  lemma FixedOrderAcrossWidths(i: nat, w: nat, j: nat, k: nat)
    requires i < j && i < Pow10(w) && j < Pow10(w + k)
    ensures LexLess(Fixed(i, w), Fixed(j, w + k)) <==> i <= Cut(j, k)
  {
    FixedPrefix(j, w, k);
    FixedOrder(i, Cut(j, k), w);
    if k != 0 {
      var first, rest := Fixed(Cut(j, k), w), Fixed(j, w + k)[w..];
      assert Fixed(j, w + k) == first + rest;
      LexPrefix(Fixed(i, w), first, rest);
    }
  }

  /**
   * When does sorting ids as text sort them by index? For `i < j` the ids sort
   * the same way iff `i` is at most `j` cut to the width of `i`.
   */
  lemma {:induction false} IdOrderExact(i: nat, j: nat)
    requires i < j
    ensures |OrderId(i)| <= |OrderId(j)|
    ensures LexLess(OrderId(i), OrderId(j)) <==> i <= Cut(j, |OrderId(j)| - |OrderId(i)|)
  {
    WidthMonotone(i, j);
    LexCommonPrefix("o-", Padded(i), Padded(j));
    PaddedIsFixed(i);
    PaddedIsFixed(j);
    FixedOrderAcrossWidths(i, |Padded(i)|, j, |Padded(j)| - |Padded(i)|);
  }

  lemma WidthMonotone(i: nat, j: nat)
    requires i <= j
    ensures |Padded(i)| <= |Padded(j)|
  {
    PaddedIsFixed(i);
    PaddedIsFixed(j);
    if |Padded(j)| < |Padded(i)| {
      Pow10Monotone(|Padded(j)|, |Padded(i)| - 1);
    }
  }

  lemma TenDigits(n: nat)
    requires n < 10_000_000_000
    ensures |Padded(n)| == ID_DIGITS
  {
    PaddedIsFixed(n);
    Pow10Ten();
    if |Padded(n)| > ID_DIGITS {
      Pow10Monotone(10, |Padded(n)| - 1);
    }
  }

  lemma Pow10Ten()
    ensures Pow10(10) == 10_000_000_000
  {
  }

  /** Below ten digits text order is index order ... */
  lemma IdOrderBelowTenDigits(i: nat, j: nat)
    requires i < j < 10_000_000_000
    ensures LexLess(OrderId(i), OrderId(j))
  {
    TenDigits(i);
    TenDigits(j);
    IdOrderExact(i, j);
  }

  /** ... and the eleventh digit breaks it. */
  lemma IdOrderBreaksAtTenBillion()
    ensures !LexLess(OrderId(9_999_999_999), OrderId(10_000_000_000))
  {
    var i, j := 9_999_999_999, 10_000_000_000;
    TenDigits(i);
    PaddedIsFixed(j);
    IdOrderExact(i, j);
    Pow10Ten();
    var k := |OrderId(j)| - |OrderId(i)|;
    assert k > 0;
    CutShrinks(j / 10, k - 1);
  }
}
