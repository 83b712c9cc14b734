// The admission timer: an interval whose missed ticks are skipped. Times count
// from the first tick; a tick is never later than it may be noticed.
module Ticker {
  import opened Arithmetic

  /** One admission: the timer slot it used up and the moment it happened. */
  datatype Admission = Admission(slot: nat, at: nat)

  /**
   * The slot after `slot`, consumed at `now`. A tick more than `tolerance` late
   * skips to the first slot of its phase after `now`.
   */
  function NextSlot(slot: nat, now: nat, period: nat, tolerance: nat): nat
    requires period > 0 && slot <= now
  {
    if now > slot + tolerance then now + period - (now - slot) % period else slot + period
  }

  lemma NextSlotAligned(slot: nat, now: nat, period: nat, tolerance: nat)
    requires period > 0 && slot <= now && slot % period == 0
    ensures var next := NextSlot(slot, now, period, tolerance);
            && next % period == 0
            && slot + period <= next
            && (next > now || next + tolerance >= now + period)
  {
    var late := (now - slot) / period;
    var q := slot / period;
    assert (now - slot) == late * period + (now - slot) % period;
    assert late * period >= 0;
    if now > slot + tolerance {
      DivModUnique(NextSlot(slot, now, period, tolerance), period, q + late + 1, 0);
    } else {
      DivModUnique(slot + period, period, q + 1, 0);
    }
  }

  /**
   * For every tolerance: a tick at most that late waits for the slot one period
   * on, a later one for the least aligned slot after `now`.
   */
  lemma NextSlotExact(slot: nat, now: nat, period: nat, tolerance: nat, other: nat)
    requires period > 0 && slot <= now && slot % period == 0
    requires other % period == 0 && other > now
    ensures var next := NextSlot(slot, now, period, tolerance);
            && (now - slot <= tolerance ==> next == slot + period)
            && (now - slot > tolerance ==> next % period == 0 && now < next <= other)
  {
    var next := NextSlot(slot, now, period, tolerance);
    NextSlotAligned(slot, now, period, tolerance);
    if now - slot > tolerance && other < next {
      var gap := QuotientGap(next, other, period);
      assert period * gap < period;
      MultipleInRange(period, gap);
    }
  }

  /** How the slot after an admission relates to it. */
  predicate Gap(prev: Admission, slot: nat, period: nat, tolerance: nat) {
    && prev.slot + period <= slot
    && (slot > prev.at || slot + tolerance >= prev.at + period)
  }

  /** What the timer has done so far; `slot` is the one it waits for. */
  ghost predicate Paced(admissions: seq<Admission>, slot: nat, now: nat, period: nat, tolerance: nat) {
    var n := |admissions|;
    && (forall k :: 0 <= k < n ==> admissions[k].slot <= admissions[k].at <= now)
    && (forall j, k :: 0 <= j < k < n && k == j + 1 ==>
          admissions[j].at <= admissions[k].at && Gap(admissions[j], admissions[k].slot, period, tolerance))
    && (n > 0 ==> Gap(admissions[n - 1], slot, period, tolerance))
  }

  ghost predicate Aligned(admissions: seq<Admission>, slot: nat, period: nat)
    requires period > 0
  {
    slot % period == 0 && forall k :: 0 <= k < |admissions| ==> admissions[k].slot % period == 0
  }

  lemma PacedStep(admissions: seq<Admission>, slot: nat, now: nat, at: nat, period: nat, tolerance: nat)
    requires period > 0 && Paced(admissions, slot, now, period, tolerance) && Aligned(admissions, slot, period)
    requires now <= at && slot <= at
    ensures Paced(admissions + [Admission(slot, at)], NextSlot(slot, at, period, tolerance), at, period, tolerance)
    ensures Aligned(admissions + [Admission(slot, at)], NextSlot(slot, at, period, tolerance), period)
  {
    NextSlotAligned(slot, at, period, tolerance);
    PacedPush(admissions, slot, now, at, period, tolerance, NextSlot(slot, at, period, tolerance));
  }

  lemma PacedPush(admissions: seq<Admission>, slot: nat, now: nat, at: nat, period: nat, tolerance: nat, next: nat)
    requires Paced(admissions, slot, now, period, tolerance)
    requires now <= at && slot <= at && Gap(Admission(slot, at), next, period, tolerance)
    ensures Paced(admissions + [Admission(slot, at)], next, at, period, tolerance)
  {
  }

  /** Slots are at least one period apart. */
  lemma {:induction false} SlotsSpread(
      admissions: seq<Admission>, slot: nat, now: nat, period: nat, tolerance: nat, a: nat, b: nat)
    requires Paced(admissions, slot, now, period, tolerance)
    requires a <= b < |admissions|
    ensures admissions[b].slot >= admissions[a].slot + (b - a) * period
    decreases b
  {
    if a < b {
      SlotsSpread(admissions, slot, now, period, tolerance, a, b - 1);
      assert Gap(admissions[b - 1], admissions[b].slot, period, tolerance);
      assert (b - a) * period == (b - 1 - a) * period + period;
    }
  }

  /** By time `t` at most `t / period + 1` orders are admitted, however late the guard opened. */
  lemma AdmittedBy(admissions: seq<Admission>, slot: nat, now: nat, period: nat, tolerance: nat, n: nat, t: nat)
    requires period > 0 && Paced(admissions, slot, now, period, tolerance)
    requires n <= |admissions|
    requires n > 0 ==> admissions[n - 1].at <= t
    ensures n <= t / period + 1
  {
    if n > 0 {
      SlotsSpread(admissions, slot, now, period, tolerance, 0, n - 1);
      AtMostQuotient(n - 1, period, t);
    }
  }

  lemma AtMostQuotient(k: int, period: int, t: int)
    requires period > 0 && k * period <= t
    ensures k <= t / period
  {
    var d := k - t / period;
    assert d * period <= t % period;
    PositiveMultiple(d, period);
  }

  lemma PositiveMultiple(d: int, period: int)
    requires period > 0
    ensures d >= 1 ==> d * period >= period
  {
  }

  /**
   * No catch-up burst: the admissions `a..b` fit in a window of length `w` only
   * if all but two of them have a period of their own in it (plus whatever the
   * tolerance exceeds the period by).
   */
  lemma NoBurst(admissions: seq<Admission>, slot: nat, now: nat, period: nat, tolerance: nat, a: nat, b: nat)
    requires Paced(admissions, slot, now, period, tolerance)
    requires a < b < |admissions|
    ensures var w := admissions[b].at - admissions[a].at;
            (b - a - 1) * period <= w + (if tolerance > period then tolerance - period else 0)
  {
    SlotsSpread(admissions, slot, now, period, tolerance, a + 1, b);
    assert Gap(admissions[a], admissions[a + 1].slot, period, tolerance);
  }
}
