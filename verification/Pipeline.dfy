// The consumer's stages and the injected latency.
module Pipeline {
  import opened Arithmetic
  import opened Counting
  import opened Orders
  import OrderIds

  const STAGES: seq<string> := ["validate", "enrich", "fraud_check", "fulfill"]

  /** Durations in nanoseconds. */
  const INJECTED: nat := 30_000_000
  const SLOTS: nat := 10_000

  datatype StageWork = StageWork(validate: nat, enrich: nat, fraudCheck: nat, fulfill: nat)

  function BaseWork(stage: string, work: StageWork): nat {
    if stage == "validate" then work.validate
    else if stage == "enrich" then work.enrich
    else if stage == "fraud_check" then work.fraudCheck
    else if stage == "fulfill" then work.fulfill
    else 0
  }

  function Clamp(fraction: real): real {
    if fraction < 0.0 then 0.0 else if fraction > 1.0 then 1.0 else fraction
  }

  predicate InjectLatency(orderIndex: nat, slowFraction: real) {
    slowFraction > 0.0 && (orderIndex % SLOTS) as real / 10000.0 < Clamp(slowFraction)
  }

  function StageDelay(stage: string, work: StageWork, orderIndex: nat, slowFraction: real): nat {
    BaseWork(stage, work) + (if InjectLatency(orderIndex, slowFraction) then INJECTED else 0)
  }

  // ----- how many orders are slow -----

  /** The least integer at or above `x`. */
  function Ceiling(x: real): int {
    -(-x).Floor
  }

  function SlowSlots(slowFraction: real): int {
    Ceiling(10000.0 * Clamp(slowFraction))
  }

  ghost function Slow(slowFraction: real): nat -> bool {
    (i: nat) => InjectLatency(i, slowFraction)
  }

  /** An order is slow exactly if its slot is below `10,000 f`. */
  lemma SlowBySlot(i: nat, f: real)
    ensures 0.0 <= f <= 1.0 ==> (InjectLatency(i, f) <==> (i % 10_000) as real < 10000.0 * f)
    ensures f <= 0.0 ==> !InjectLatency(i, f)
    ensures f >= 1.0 ==> InjectLatency(i, f)
  {
    var slot := i % SLOTS;
    assert slot as real / 10000.0 < f <==> slot as real < 10000.0 * f;
  }

  lemma SlowBelow(i: nat, f: real)
    ensures 0 <= SlowSlots(f) <= SLOTS
    ensures InjectLatency(i, f) <==> i % SLOTS < SlowSlots(f)
  {
    var slot, x := i % SLOTS, 10000.0 * Clamp(f);
    SlowBySlot(i, f);
    assert slot as real < x <==> slot < Ceiling(x);
  }

  /** Any 10,000 consecutive orders hold the least number of slow ones that is at least `10,000 f`. */
  lemma {:induction false} SlowDensity(lo: nat, len: nat, f: real)
    requires len == 10_000
    ensures var n := Count(Slow(f), lo, len);
            && (0.0 <= f <= 1.0 ==> n as real - 1.0 < 10000.0 * f <= n as real)
            && (f <= 0.0 ==> n == 0)
            && (f >= 1.0 ==> n == 10_000)
  {
    CountSlow(lo, len, f);
    SlowSlotsBounds(f);
  }

  lemma SlowSlotsBounds(f: real)
    ensures var n := SlowSlots(f);
            && (0.0 <= f <= 1.0 ==> n as real - 1.0 < 10000.0 * f <= n as real)
            && (f <= 0.0 ==> n == 0)
            && (f >= 1.0 ==> n == 10_000)
  {
  }

  lemma {:induction false} CountSlow(lo: nat, len: nat, f: real)
    requires len == SLOTS
    ensures Count(Slow(f), lo, len) == SlowSlots(f)
  {
    var p := Slow(f);
    SlowRepeats(f, len);
    CountWindow(p, len, lo);
    SlowBelow(0, f);
    FirstSlotsAreSlow(f, len);
    CountBelow(p, len, SlowSlots(f));
  }

  lemma SlowRepeats(slowFraction: real, len: nat)
    requires len == SLOTS
    ensures Periodic(Slow(slowFraction), len)
  {
    forall i: nat, j: nat | j == i + len
      ensures Slow(slowFraction)(j) == Slow(slowFraction)(i)
    {
      ShiftMod(i, 1, SLOTS, 1);
    }
  }

  lemma FirstSlotsAreSlow(slowFraction: real, len: nat)
    requires len == SLOTS
    ensures forall i: nat :: i < len ==> (Slow(slowFraction)(i) <==> i < SlowSlots(slowFraction))
  {
    forall i: nat | i < len
      ensures Slow(slowFraction)(i) <==> i < SlowSlots(slowFraction)
    {
      SlowBelow(i, slowFraction);
    }
  }

  /** Raising the fraction only adds slow orders. */
  lemma SlowMonotone(i: nat, f: real, g: real)
    requires f <= g && InjectLatency(i, f)
    ensures InjectLatency(i, g)
  {
  }

  // ----- through the order id -----

  /** The time the four stages of one order sleep. */
  function OrderDelay(order: Order, work: StageWork, slowFraction: real): nat {
    DelayUpTo(order, work, slowFraction, |STAGES|)
  }

  function DelayUpTo(order: Order, work: StageWork, slowFraction: real, n: nat): nat
    requires n <= |STAGES|
  {
    if n == 0 then 0
    else DelayUpTo(order, work, slowFraction, n - 1)
         + StageDelay(STAGES[n - 1], work, OrderIds.OrderIndex(order.orderId), slowFraction)
  }

  /** The four stages of an order: their base work, plus 30 ms each if its id says it is slow. */
  lemma OrderDelayExact(order: Order, work: StageWork, f: real)
    ensures var index := OrderIds.OrderIndex(order.orderId);
            OrderDelay(order, work, f) == work.validate + work.enrich + work.fraudCheck + work.fulfill
                                          + (if InjectLatency(index, f) then 120_000_000 else 0)
  {
    StageNames();
    var index := OrderIds.OrderIndex(order.orderId);
    assert DelayUpTo(order, work, f, 1) == StageDelay(STAGES[0], work, index, f);
    assert DelayUpTo(order, work, f, 2) == DelayUpTo(order, work, f, 1) + StageDelay(STAGES[1], work, index, f);
    assert DelayUpTo(order, work, f, 3) == DelayUpTo(order, work, f, 2) + StageDelay(STAGES[2], work, index, f);
  }

  /**
   * The consumer reads the index back from the id, so it delays all four stages
   * of an order or none of them, and exactly the orders the producer numbered so.
   */
  lemma AllStagesOrNone(order: Order, i: nat, work: StageWork, slowFraction: real)
    requires order.orderId == OrderAt(i).orderId && i < OrderIds.U64_LIMIT
    ensures var index := OrderIds.OrderIndex(order.orderId);
            var extra := if InjectLatency(i, slowFraction) then 30_000_000 else 0;
            && StageDelay("validate", work, index, slowFraction) == work.validate + extra
            && StageDelay("enrich", work, index, slowFraction) == work.enrich + extra
            && StageDelay("fraud_check", work, index, slowFraction) == work.fraudCheck + extra
            && StageDelay("fulfill", work, index, slowFraction) == work.fulfill + extra
    ensures OrderDelay(order, work, slowFraction)
            == work.validate + work.enrich + work.fraudCheck + work.fulfill
               + (if InjectLatency(i, slowFraction) then 120_000_000 else 0)
  {
    OrderIds.OrderIdRoundTrip(i);
    StageNames();
    OrderDelayExact(order, work, slowFraction);
  }

  lemma StageNames()
    ensures STAGES[0] == "validate" && STAGES[1] == "enrich" && STAGES[2] == "fraud_check" && STAGES[3] == "fulfill"
    ensures STAGES[1] != "validate" && STAGES[2] != "validate" && STAGES[3] != "validate"
    ensures STAGES[2] != "enrich" && STAGES[3] != "enrich" && STAGES[3] != "fraud_check"
  {
    assert STAGES[0][0] == 'v' && STAGES[1][0] == 'e' && STAGES[2][0] == 'f' && STAGES[3][0] == 'f';
    assert STAGES[2][1] == 'r' && STAGES[3][1] == 'u';
  }
}
