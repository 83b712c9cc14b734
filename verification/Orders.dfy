// The deterministic order generator and the business rules applied to it.
module Orders {
  import opened Arithmetic
  import opened Counting
  import OrderIds

  const CATEGORIES: seq<string> := ["books", "electronics", "grocery", "toys", "garden"]
  const REGIONS: seq<string> := ["us-east", "us-west", "eu-west", "ap-south"]
  const WAREHOUSES: seq<string> := ["wh-atl", "wh-sjc", "wh-fra", "wh-blr"]
  const PAYMENT_METHODS: seq<string> := ["card", "paypal", "wire", "crypto"]
  const CUSTOMER_TIERS: seq<string> := ["free", "pro", "enterprise"]

  /** The double-precision machine epsilon, 2^-52. */
  const EPSILON: real := 1.0 / 4503599627370496.0

  datatype Order = Order(
    orderId: string,
    category: string,
    amount: real,
    currency: string,
    tsMs: int,
    region: string,
    paymentMethod: string,
    quantity: int,
    customerTier: string,
    warehouse: string)

  function OrderAt(i: nat): Order {
    Order(
      OrderIds.OrderId(i),
      CATEGORIES[i % 5],
      if i % 17 == 0 then 0.0 else (i % 200) as real + 0.99,
      "USD",
      0,
      REGIONS[i / 2 % 4],
      PAYMENT_METHODS[i / 3 % 4],
      1 + i % 5,
      CUSTOMER_TIERS[i / 7 % 3],
      WAREHOUSES[i / 2 % 4])
  }

  /** The category, and so the record key, of order `i`. */
  function Key(i: nat): string {
    CATEGORIES[i % 5]
  }

  predicate IsAnomalous(order: Order) {
    -EPSILON < order.amount < EPSILON
  }

  predicate IsSuspicious(order: Order) {
    order.paymentMethod == "crypto" && order.amount > 150.0
  }

  datatype Outcome = Anomalous | FraudRejected | Fulfilled

  function ClassifyOutcome(order: Order): Outcome {
    if IsAnomalous(order) then Anomalous
    else if IsSuspicious(order) then FraudRejected
    else Fulfilled
  }

  // ----- the tables hold distinct names -----

  lemma CategoryInjective(a: nat, b: nat)
    requires a < 5 && b < 5
    ensures CATEGORIES[a] == CATEGORIES[b] <==> a == b
  {
    assert CATEGORIES[0][0] == 'b';
    assert CATEGORIES[1][0] == 'e';
    assert CATEGORIES[2][1] == 'r';
    assert CATEGORIES[3][0] == 't';
    assert CATEGORIES[4][1] == 'a';
    assert CATEGORIES[2][0] == CATEGORIES[4][0] == 'g';
  }

  /** Two orders share a key exactly when they are a multiple of five apart. */
  lemma KeysEqual(i: nat, j: nat)
    ensures Key(i) == Key(j) <==> i % 5 == j % 5
    ensures i < j < i + 5 ==> Key(i) != Key(j)
    ensures Key(i + 5) == Key(i)
  {
    CategoryInjective(i % 5, j % 5);
  }

  lemma RegionInjective(a: nat, b: nat)
    requires a < 4 && b < 4
    ensures REGIONS[a] == REGIONS[b] <==> a == b
  {
    assert REGIONS[0][0] == REGIONS[1][0] == 'u';
    assert REGIONS[0][3] == 'e' && REGIONS[1][3] == 'w';
    assert REGIONS[2][0] == 'e' && REGIONS[3][0] == 'a';
  }

  lemma PaymentInjective(a: nat, b: nat)
    requires a < 4 && b < 4
    ensures PAYMENT_METHODS[a] == PAYMENT_METHODS[b] <==> a == b
  {
    assert PAYMENT_METHODS[0][1] == 'a' && PAYMENT_METHODS[3][1] == 'r';
    assert PAYMENT_METHODS[0][0] == PAYMENT_METHODS[3][0] == 'c';
    assert PAYMENT_METHODS[1][0] == 'p' && PAYMENT_METHODS[2][0] == 'w';
  }

  lemma TierInjective(a: nat, b: nat)
    requires a < 3 && b < 3
    ensures CUSTOMER_TIERS[a] == CUSTOMER_TIERS[b] <==> a == b
  {
    assert CUSTOMER_TIERS[0][0] == 'f' && CUSTOMER_TIERS[1][0] == 'p' && CUSTOMER_TIERS[2][0] == 'e';
  }

  // ----- the values of the generator -----

  /** Category and quantity go together, five in a row. */
  lemma CategoryValues(i: nat)
    ensures var o, k := OrderAt(i), i % 5;
            && (k == 0 ==> o.category == "books" && o.quantity == 1)
            && (k == 1 ==> o.category == "electronics" && o.quantity == 2)
            && (k == 2 ==> o.category == "grocery" && o.quantity == 3)
            && (k == 3 ==> o.category == "toys" && o.quantity == 4)
            && (k == 4 ==> o.category == "garden" && o.quantity == 5)
  {
  }

  /** Every region is served by its own warehouse, two orders at a time. */
  lemma RegionValues(i: nat)
    ensures var o, k := OrderAt(i), i % 8;
            && (k == 0 || k == 1 ==> o.region == "us-east" && o.warehouse == "wh-atl")
            && (k == 2 || k == 3 ==> o.region == "us-west" && o.warehouse == "wh-sjc")
            && (k == 4 || k == 5 ==> o.region == "eu-west" && o.warehouse == "wh-fra")
            && (k == 6 || k == 7 ==> o.region == "ap-south" && o.warehouse == "wh-blr")
  {
    Phase(i, 2, 4, 8);
  }

  /** Payment methods change every three orders. */
  lemma PaymentValues(i: nat)
    ensures var o, k := OrderAt(i), i % 12;
            && (k < 3 ==> o.paymentMethod == "card")
            && (3 <= k < 6 ==> o.paymentMethod == "paypal")
            && (6 <= k < 9 ==> o.paymentMethod == "wire")
            && (9 <= k ==> o.paymentMethod == "crypto")
  {
    Phase(i, 3, 4, 12);
  }

  /** Tiers change every seven orders; the currency never, and the stamp is set later. */
  lemma TierValues(i: nat)
    ensures var o, k := OrderAt(i), i % 21;
            && (k < 7 ==> o.customerTier == "free")
            && (7 <= k < 14 ==> o.customerTier == "pro")
            && (14 <= k ==> o.customerTier == "enterprise")
            && o.currency == "USD" && o.tsMs == 0
  {
    Phase(i, 7, 3, 21);
  }

  /** In cents: nothing for every seventeenth order, 99 over the index modulo 200 in dollars for the rest. */
  lemma AmountValues(i: nat)
    ensures OrderAt(i).amount * 100.0 == if i % 17 == 0 then 0.0 else (100 * (i % 200) + 99) as real
  {
  }

  /** The outcome of any order whose amount is in cents, at and around both thresholds. */
  lemma OutcomeOfCents(order: Order, cents: int)
    requires order.amount == cents as real / 100.0
    ensures ClassifyOutcome(order) == Anomalous <==> cents == 0
    ensures ClassifyOutcome(order) == FraudRejected <==> order.paymentMethod == "crypto" && cents > 15_000
  {
    if cents >= 1 {
      assert order.amount >= 0.01;
    } else if cents <= -1 {
      assert order.amount <= -0.01;
    }
    assert EPSILON < 0.01;
  }

  // ----- the period of the generator -----

  const PERIOD: nat := 71400

  ghost predicate SameButId(a: Order, b: Order) {
    a == b.(orderId := a.orderId)
  }

  /** The residues that determine every field but the id. */
  lemma SameButIdExact(i: nat, j: nat)
    ensures SameButId(OrderAt(i), OrderAt(j)) <==>
              && i % 5 == j % 5
              && i / 2 % 4 == j / 2 % 4
              && i / 3 % 4 == j / 3 % 4
              && i / 7 % 3 == j / 7 % 3
              && (i % 17 == 0 <==> j % 17 == 0)
              && (i % 17 != 0 ==> i % 200 == j % 200)
  {
    CategoryInjective(i % 5, j % 5);
    RegionInjective(i / 2 % 4, j / 2 % 4);
    PaymentInjective(i / 3 % 4, j / 3 % 4);
    TierInjective(i / 7 % 3, j / 7 % 3);
  }

  ghost predicate IsPeriod(p: nat) {
    forall i: nat, j: nat {:trigger OrderAt(i), OrderAt(j)} :: j == i + p ==> SameButId(OrderAt(i), OrderAt(j))
  }

  /** The periods of the generator are exactly the multiples of 71,400. */
  lemma PeriodExact(p: nat)
    ensures IsPeriod(p) <==> p % PERIOD == 0
  {
    if p % PERIOD == 0 {
      MultiplesArePeriods(p / PERIOD);
    }
    if IsPeriod(p) {
      PeriodsAreMultiples(p);
    }
  }

  lemma MultiplesArePeriods(k: nat)
    ensures IsPeriod(PERIOD * k)
  {
    forall i: nat, j: nat | j == i + PERIOD * k
      ensures SameButId(OrderAt(i), OrderAt(j))
    {
      ShiftByPeriods(i, k);
      SameButIdExact(i, j);
    }
  }

  lemma PeriodsAreMultiples(p: nat)
    requires IsPeriod(p)
    ensures p % PERIOD == 0
  {
    PeriodAtIndex(0, p);
    PeriodAtIndex(1, p);
    PeriodAtIndex(2, p);
    PeriodAtIndex(6, p);
    PhasesOfThree(p);
    PhasesOfSeven(p);
    ModAfterOne(p);
    PeriodDivisible(p);
  }

  lemma PeriodAtIndex(i: nat, p: nat)
    requires IsPeriod(p)
    ensures (i + p) / 3 % 4 == i / 3 % 4 && (i + p) / 7 % 3 == i / 7 % 3
    ensures i % 17 == 0 <==> (i + p) % 17 == 0
    ensures i % 17 != 0 ==> i % 200 == (i + p) % 200
  {
    assert SameButId(OrderAt(i), OrderAt(i + p));
    SameButIdExact(i, i + p);
  }

  lemma PhasesOfThree(p: nat)
    requires 0 == p / 3 % 4 == (2 + p) / 3 % 4
    ensures p % 3 == 0
  {
    if p % 3 != 0 {
      DivModUnique(2 + p, 3, p / 3 + 1, p % 3 - 1);
    }
  }

  lemma PhasesOfSeven(p: nat)
    requires 0 == p / 7 % 3 == (6 + p) / 7 % 3
    ensures p % 7 == 0
  {
    if p % 7 != 0 {
      DivModUnique(6 + p, 7, p / 7 + 1, p % 7 - 1);
    }
  }

  lemma ModAfterOne(p: nat)
    requires (1 + p) % 200 == 1
    ensures p % 200 == 0
  {
    DivModUnique(p, 200, (1 + p) / 200, 0);
  }

  lemma ShiftByPeriods(i: nat, k: nat)
    ensures var j := i + PERIOD * k;
            && i % 5 == j % 5 && i / 2 % 4 == j / 2 % 4 && i / 3 % 4 == j / 3 % 4
            && i / 7 % 3 == j / 7 % 3 && i % 17 == j % 17 && i % 200 == j % 200
  {
    ShiftMod(i, 1, 5, 14280 * k);
    ShiftMod(i, 2, 4, 8925 * k);
    ShiftMod(i, 3, 4, 5950 * k);
    ShiftMod(i, 7, 3, 3400 * k);
    ShiftMod(i, 1, 17, 4200 * k);
    ShiftMod(i, 1, 200, 357 * k);
  }

  lemma PeriodDivisible(p: nat)
    requires p % 3 == 0 && p % 7 == 0 && p % 17 == 0 && p % 200 == 0
    ensures p % PERIOD == 0
  {
    CommonMultiple(p, 200, 17, 4, 47);
    CommonMultiple(p, 3400, 3, 1, 1133);
    CommonMultiple(p, 10200, 7, 1, 1457);
  }

  // ----- metric labels -----

  datatype ProducedLabel = ProducedLabel(category: string, region: string, paymentMethod: string)

  function LabelOf(order: Order): ProducedLabel {
    ProducedLabel(order.category, order.region, order.paymentMethod)
  }

  /** The 80 combinations of category, region and payment method, numbered. */
  function LabelAt(k: nat): ProducedLabel {
    ProducedLabel(CATEGORIES[k / 16 % 5], REGIONS[k / 4 % 4], PAYMENT_METHODS[k % 4])
  }

  ghost function AllLabels(): set<ProducedLabel> {
    Image(LabelAt, 80)
  }

  lemma LabelInjective(a: nat, b: nat)
    requires a < 80 && b < 80 && LabelAt(a) == LabelAt(b)
    ensures a == b
  {
    CategoryInjective(a / 16 % 5, b / 16 % 5);
    RegionInjective(a / 4 % 4, b / 4 % 4);
    PaymentInjective(a % 4, b % 4);
    MixedDigits(a);
    MixedDigits(b);
  }

  lemma MixedDigits(k: nat)
    requires k < 80
    ensures k == k / 16 % 5 * 16 + k / 4 % 4 * 4 + k % 4
  {
  }

  lemma LabelCardinality()
    ensures |AllLabels()| == 80
  {
    forall a: nat, b: nat | a < 80 && b < 80 && LabelAt(a) == LabelAt(b)
      ensures a == b
    {
      LabelInjective(a, b);
    }
    ImageCardinality(LabelAt, 80);
  }

  /** The residue mod 24 that carries a given region and payment method. */
  function RegionPaymentResidue(r: nat, m: nat): (k: nat)
    requires r < 4 && m < 4
    ensures k < 24 && k / 2 % 4 == r && k / 3 % 4 == m
  {
    [[0, 16, 8, 9], [2, 3, 18, 10], [12, 4, 20, 21], [14, 15, 6, 22]][r][m]
  }

  /** Chinese remainders for 24 and 5. */
  lemma MeetingResidue(a: nat, c: nat) returns (r: nat)
    requires a < 24 && c < 5
    ensures r < 120 && r % 24 == a && r % 5 == c
  {
    var meet := a * 25 + c * 96;
    var t := meet / 120;
    r := meet % 120;
    DivModUnique(r, 24, a + 4 * c - 5 * t, a);
    DivModUnique(r, 5, 5 * a + 19 * c - 24 * t, c);
  }

  lemma ResiduesMeet(lo: nat, a: nat, c: nat) returns (i: nat)
    requires a < 24 && c < 5
    ensures lo <= i < lo + 120 && i % 24 == a && i % 5 == c
  {
    var r := MeetingResidue(a, c);
    var q := lo / 120 + (if lo % 120 <= r then 0 else 1);
    i := r + 120 * q;
    ShiftMod(r, 1, 24, 5 * q);
    ShiftMod(r, 1, 5, 24 * q);
  }

  lemma LabelOccurs(lo: nat, k: nat) returns (i: nat)
    requires k < 80
    ensures lo <= i < lo + 120 && LabelOf(OrderAt(i)) == LabelAt(k)
  {
    i := ResiduesMeet(lo, RegionPaymentResidue(k / 4 % 4, k % 4), k / 16 % 5);
    ByResidue24(i);
  }

  lemma ByResidue24(i: nat)
    ensures i / 2 % 4 == i % 24 / 2 % 4 && i / 3 % 4 == i % 24 / 3 % 4
  {
    ShiftMod(i % 24, 2, 4, 3 * (i / 24));
    ShiftMod(i % 24, 3, 4, 2 * (i / 24));
  }

  lemma OrderLabelIsLabelAt(i: nat) returns (k: nat)
    ensures k < 80 && LabelOf(OrderAt(i)) == LabelAt(k)
  {
    var c, r, m := i % 5, i / 2 % 4, i / 3 % 4;
    k := c * 16 + r * 4 + m;
    assert k / 16 == c;
    assert k / 4 == c * 4 + r;
  }

  /** Any 120 consecutive orders carry all 80 labels, and no order any other. */
  lemma GeneratorCoverage(lo: nat)
    ensures (set i: nat | lo <= i < lo + 120 :: LabelOf(OrderAt(i))) == AllLabels()
    ensures |AllLabels()| == 80
    ensures forall i: nat :: LabelOf(OrderAt(i)) in AllLabels()
  {
    LabelCardinality();
    forall i: nat
      ensures LabelOf(OrderAt(i)) in AllLabels()
    {
      var k := OrderLabelIsLabelAt(i);
    }
    forall l | l in AllLabels()
      ensures l in set i: nat | lo <= i < lo + 120 :: LabelOf(OrderAt(i))
    {
      var k: nat :| k < 80 && LabelAt(k) == l;
      var i := LabelOccurs(lo, k);
    }
  }

  // ----- outcome counts -----

  const OUTCOME_PERIOD: nat := 10200

  ghost function HasOutcome(o: Outcome): nat -> bool {
    (i: nat) => ClassifyOutcome(OrderAt(i)) == o
  }

  /** Crypto orders over 150 dollars before the anomalies are taken out, by index. */
  ghost function HighCrypto(): nat -> bool {
    (i: nat) => i / 3 % 4 == 3 && i % 200 >= 150
  }

  lemma OutcomeByIndex(i: nat)
    ensures ClassifyOutcome(OrderAt(i)) ==
            if i % 17 == 0 then Anomalous
            else if HighCrypto()(i) then FraudRejected
            else Fulfilled
  {
    PaymentInjective(i / 3 % 4, 3);
  }

  ghost function Crypto(): nat -> bool {
    (i: nat) => i / 3 % 4 == 3
  }

  lemma CryptoPeriod()
    ensures Periodic(Crypto(), 12) && Count(Crypto(), 0, 12) == 3
  {
    forall i: nat, j: nat | j == i + 12
      ensures Crypto()(j) == Crypto()(i)
    {
      ShiftMod(i, 3, 4, 1);
    }
  }

  lemma HighCryptoInRow(k: nat, i: nat)
    requires 200 * k <= i < 200 * k + 200
    ensures HighCrypto()(i) == (i >= 200 * k + 150 && Crypto()(i))
  {
    DivModUnique(i, 200, k, i - 200 * k);
  }

  /** Only the last 50 of each 200 orders are over 150 dollars. */
  lemma HighCryptoTail(k: nat, low: nat, high: nat)
    requires low == 150 && low + high == 200
    ensures Count(HighCrypto(), 200 * k, low + high) == Count(Crypto(), 200 * k + low, high)
  {
    var p, lo := HighCrypto(), 200 * k;
    forall i: nat | lo <= i < lo + 200
      ensures p(i) == (i >= lo + low && Crypto()(i))
    {
      HighCryptoInRow(k, i);
    }
    CountConcat(p, lo, low, high);
    CountNone(p, lo, low);
    CountExt(p, Crypto(), lo + low, high);
  }

  /** ... and 48 of these hold four crypto cycles. */
  lemma {:induction false} CryptoInFifty(lo: nat)
    ensures Count(Crypto(), lo, 50) == 12 + Count(Crypto(), lo + 48, 2)
  {
    CountConcat(Crypto(), lo, 48, 2);
    CryptoPeriod();
    CountPeriods(Crypto(), 12, lo, 4);
  }

  lemma {:induction false} HighCryptoRow(k: nat)
    requires k < 3
    ensures Count(HighCrypto(), 200 * k, 200) == if k == 2 then 14 else 12
  {
    HighCryptoTail(k, 150, 50);
    CryptoInFifty(200 * k + 150);
    CryptoTail(k);
  }

  lemma {:induction false} CryptoTail(k: nat)
    requires k < 3
    ensures Count(Crypto(), 200 * k + 198, 2) == if k == 2 then 2 else 0
  {
    var p, lo := Crypto(), 200 * k + 198;
    assert Count(p, lo, 1) == Count(p, lo, 0) + (if p(lo) then 1 else 0);
    assert k == 0 || k == 1 || k == 2;
    assert p(lo) == p(lo + 1) == (k == 2);
  }

  lemma {:induction false} HighCryptoRows(k: nat)
    requires k <= 3
    ensures Count(HighCrypto(), 0, 200 * k) == if k == 3 then 38 else 12 * k
  {
    if k != 0 {
      HighCryptoRows(k - 1);
      HighCryptoRow(k - 1);
      CountConcat(HighCrypto(), 0, 200 * (k - 1), 200);
    }
  }

  /** Multiples of 17 among `17 * n` indices. */
  ghost function Seventeenth(): nat -> bool {
    (i: nat) => i % 17 == 0
  }

  lemma SeventeenthPeriod()
    ensures Periodic(Seventeenth(), 17) && Count(Seventeenth(), 0, 17) == 1
  {
    CountConcat(Seventeenth(), 0, 1, 16);
    CountNone(Seventeenth(), 1, 16);
  }

  lemma OutcomeAfterPeriod(i: nat)
    ensures ClassifyOutcome(OrderAt(i + OUTCOME_PERIOD)) == ClassifyOutcome(OrderAt(i))
  {
    OutcomeByIndex(i);
    OutcomeByIndex(i + OUTCOME_PERIOD);
    OutcomeResiduesShift(i);
  }

  lemma OutcomeResiduesShift(i: nat)
    ensures (i + 10200) / 3 % 4 == i / 3 % 4 && (i + 10200) % 17 == i % 17 && (i + 10200) % 200 == i % 200
  {
    ShiftMod(i, 3, 4, 850);
    ShiftMod(i, 1, 17, 600);
    ShiftMod(i, 1, 200, 51);
  }

  lemma OutcomePeriod(o: Outcome)
    ensures Periodic(HasOutcome(o), OUTCOME_PERIOD)
  {
    forall i: nat, j: nat | j == i + OUTCOME_PERIOD
      ensures HasOutcome(o)(j) == HasOutcome(o)(i)
    {
      OutcomeAfterPeriod(i);
    }
  }

  lemma AnomalousIsSeventeenth(i: nat)
    ensures HasOutcome(Anomalous)(i) == Seventeenth()(i)
  {
    OutcomeByIndex(i);
  }

  lemma {:induction false} AnomalousCount(len: nat)
    requires len == 600 * 17
    ensures Count(HasOutcome(Anomalous), 0, len) == 600
  {
    forall i: nat
      ensures HasOutcome(Anomalous)(i) == Seventeenth()(i)
    {
      AnomalousIsSeventeenth(i);
    }
    CountExt(HasOutcome(Anomalous), Seventeenth(), 0, len);
    SeventeenthPeriod();
    CountPeriods(Seventeenth(), 17, 0, 600);
  }

  lemma HighCryptoByResidue(i: nat)
    ensures HighCrypto()(i) == HighCrypto()(i % 600)
  {
    ShiftMod(i % 600, 3, 4, 50 * (i / 600));
    ShiftMod(i % 600, 1, 200, 3 * (i / 600));
  }

  lemma FraudByIndex(i: nat)
    ensures HasOutcome(FraudRejected)(i) == (HighCrypto()(i) && !Seventeenth()(i))
  {
    OutcomeByIndex(i);
  }

  lemma FraudByResidues(i: nat, rows: nat, cols: nat)
    requires rows == 600 && cols == 17
    ensures HasOutcome(FraudRejected)(i) == (HighCrypto()(i % rows) && !Seventeenth()(i % cols))
  {
    HighCryptoByResidue(i);
    FraudByIndex(i);
    assert Seventeenth()(i) == Seventeenth()(i % 17);
  }

  ghost function NotSeventeenth(): nat -> bool {
    (i: nat) => !Seventeenth()(i)
  }

  lemma FraudIsProduct(rows: nat, cols: nat)
    requires rows == 600 && cols == 17
    ensures Product(HasOutcome(FraudRejected), HighCrypto(), NotSeventeenth(), rows, cols)
  {
    forall i: nat
      ensures HasOutcome(FraudRejected)(i) == (HighCrypto()(i % rows) && NotSeventeenth()(i % cols))
    {
      FraudByResidues(i, rows, cols);
    }
  }

  lemma {:induction false} NotSeventeenthCount(cols: nat)
    requires cols == 17
    ensures Count(NotSeventeenth(), 0, cols) == 16
  {
    SeventeenthPeriod();
    CountNot(Seventeenth(), 0, cols);
    CountExt(NotSeventeenth(), (i: nat) => !Seventeenth()(i), 0, cols);
  }

  /** Being fraud mod 600 and not a multiple of 17 are independent over 600 * 17 indices. */
  lemma {:induction false} FraudCount(rows: nat, cols: nat, len: nat)
    requires rows == 600 && cols == 17 && len == rows * cols
    ensures Count(HasOutcome(FraudRejected), 0, len) == 608
  {
    FraudIsProduct(rows, cols);
    CountProduct(HighCrypto(), NotSeventeenth(), HasOutcome(FraudRejected), rows, cols, 7);
    NotSeventeenthCount(cols);
    HighCryptoRows(3);
  }

  /**
   * Any 10,200 consecutive orders classify as exactly 600 anomalous, 608
   * rejected for fraud and 8,992 fulfilled, wherever the window starts.
   */
  lemma {:induction false} OutcomeCounts(lo: nat, len: nat)
    requires len == OUTCOME_PERIOD
    ensures Count(HasOutcome(Anomalous), lo, len) == 600
    ensures Count(HasOutcome(FraudRejected), lo, len) == 608
    ensures Count(HasOutcome(Fulfilled), lo, len) == 8992
  {
    OutcomePeriod(Anomalous);
    OutcomePeriod(FraudRejected);
    CountWindow(HasOutcome(Anomalous), len, lo);
    CountWindow(HasOutcome(FraudRejected), len, lo);
    AnomalousCount(len);
    FraudCount(600, 17, len);
    CountPartition(HasOutcome(Anomalous), HasOutcome(FraudRejected), HasOutcome(Fulfilled), lo, len);
  }
}
