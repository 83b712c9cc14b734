// The smoke run: a polling loop over pending targets with a service check in
// every pass, and the verdict at the end.
module Smoke {
  import CheckServices

  const KNOWN: set<string> :=
    {"ready", "metrics", "logs", "traces", "cross-signal", "profiles", "gres", "demo-produce", "demo-stream", "demo-consume"}

  /**
   * What the outside answers in one pass: the service check at its start, the
   * target checks (by position in the initial list), and the service check at
   * its end. A run has as many passes as start before the deadline.
   */
  datatype Pass = Pass(before: nat, passed: nat -> bool, after: nat)

  datatype Verdict = Ok | UnknownTarget(target: string) | ServicesFailed | TimedOut(failed: seq<string>)

  /** A printed `ok` line: which target (by position) in which pass. */
  datatype OkLine = OkLine(target: nat, pass: nat)

  // ----- the specification -----

  ghost predicate PassedBefore(passes: seq<Pass>, k: nat, n: nat)
    requires n <= |passes|
  {
    exists p :: 0 <= p < n && passes[p].passed(k)
  }

  /** All of the first `count` targets passed in one of the first `n` passes. */
  ghost predicate Cleared(passes: seq<Pass>, count: nat, n: nat)
    requires n <= |passes|
  {
    forall k: nat :: k < count ==> PassedBefore(passes, k, n)
  }

  predicate Alive(status: nat) { status == 0 || status == 2 }

  /** Pass `n` runs to its end and neither fails nor succeeds. */
  ghost predicate Continues(passes: seq<Pass>, count: nat, n: nat)
    requires n < |passes|
  {
    Alive(passes[n].before) && (Cleared(passes, count, n + 1) ==> passes[n].after == 2)
  }

  ghost predicate Reaches(passes: seq<Pass>, count: nat, n: nat)
    requires n <= |passes|
  {
    forall p :: 0 <= p < n ==> Continues(passes, count, p)
  }

  ghost predicate Succeeds(passes: seq<Pass>, count: nat, n: nat)
    requires n < |passes|
  {
    && Reaches(passes, count, n)
    && Alive(passes[n].before) && Cleared(passes, count, n + 1) && passes[n].after == 0
  }

  ghost predicate Breaks(passes: seq<Pass>, count: nat, n: nat)
    requires n < |passes|
  {
    && Reaches(passes, count, n)
    && (!Alive(passes[n].before) || (Cleared(passes, count, n + 1) && !Alive(passes[n].after)))
  }

  predicate Increasing(ks: seq<nat>) {
    forall i, j :: 0 <= i < j < |ks| ==> ks[i] < ks[j]
  }

  predicate DistinctTargets(log: seq<OkLine>) {
    forall i, j :: 0 <= i < j < |log| ==> log[i].target != log[j].target
  }

  /** Pass by pass, and within a pass in the order of the targets. */
  predicate PrintedInOrder(log: seq<OkLine>) {
    forall i, j :: 0 <= i < j < |log| ==>
      log[i].pass < log[j].pass || (log[i].pass == log[j].pass && log[i].target < log[j].target)
  }

  /** The positions still pending after `n` passes, in their initial order. */
  ghost predicate IsPending(pending: seq<nat>, passes: seq<Pass>, count: nat, n: nat)
    requires n <= |passes|
  {
    && Increasing(pending)
    && (forall k: nat :: k in pending <==> k < count && !PassedBefore(passes, k, n))
  }

  /** Every target that passed by now has one line, for the pass in which it first did. */
  ghost predicate IsLog(log: seq<OkLine>, passes: seq<Pass>, count: nat, n: nat)
    requires n <= |passes|
  {
    && DistinctTargets(log) && PrintedInOrder(log)
    && (forall k: nat, p: nat :: OkLine(k, p) in log <==>
          k < count && p < n && passes[p].passed(k) && !PassedBefore(passes, k, p))
  }

  function Names(targets: seq<string>, pending: seq<nat>): seq<string>
    requires forall k :: k in pending ==> k < |targets|
  {
    seq(|pending|, i requires 0 <= i < |pending| => assert pending[i] in pending; targets[pending[i]])
  }

  /** The targets of a run that is not given any. */
  const DEFAULT_TARGETS: seq<string> :=
    ["ready", "metrics", "logs", "traces", "cross-signal", "profiles", "gres", "demo-produce", "demo-stream", "demo-consume"]

  /** The known targets are exactly the default ones, so a run that is not given any knows its targets. */
  lemma DefaultTargetsKnown(t: string)
    ensures t in KNOWN <==> t in DEFAULT_TARGETS
    ensures |DEFAULT_TARGETS| == 10
  {
    assert forall k :: 0 <= k < 10 ==> DEFAULT_TARGETS[k] in KNOWN;
  }

  // ----- one pass -----

  /** The inner loop: check each pending target and keep the failing ones in order. */
  method CheckPending(pending: seq<nat>, passed: nat -> bool, p: nat) returns (next: seq<nat>, oks: seq<OkLine>)
    requires Increasing(pending)
    ensures Increasing(next) && forall k :: k in next <==> k in pending && !passed(k)
    ensures DistinctTargets(oks) && PrintedInOrder(oks)
    ensures forall l :: l in oks <==> l.pass == p && l.target in pending && passed(l.target)
  {
    next, oks := [], [];
    for j := 0 to |pending|
      invariant Increasing(next) && forall k :: k in next <==> k in pending[..j] && !passed(k)
      invariant DistinctTargets(oks) && PrintedInOrder(oks)
      invariant forall l :: l in oks <==> l.pass == p && l.target in pending[..j] && passed(l.target)
    {
      var k := pending[j];
      LaterThan(pending, j);
      assert pending[..j + 1] == pending[..j] + [k];
      if passed(k) {
        assert forall i :: 0 <= i < |oks| ==> oks[i] in oks;
        oks := oks + [OkLine(k, p)];
      } else {
        assert forall i :: 0 <= i < |next| ==> next[i] in next;
        next := next + [k];
      }
    }
    assert pending[..|pending|] == pending;
  }

  lemma LaterThan(pending: seq<nat>, j: nat)
    requires Increasing(pending) && j < |pending|
    ensures forall k :: k in pending[..j] ==> k < pending[j]
  {
  }

  lemma PassedPush(passes: seq<Pass>, k: nat, n: nat)
    requires n < |passes|
    ensures PassedBefore(passes, k, n + 1) <==> PassedBefore(passes, k, n) || passes[n].passed(k)
  {
  }

  lemma PendingStep(pending: seq<nat>, next: seq<nat>, passes: seq<Pass>, count: nat, n: nat)
    requires n < |passes| && IsPending(pending, passes, count, n)
    requires Increasing(next) && forall k :: k in next <==> k in pending && !passes[n].passed(k)
    ensures IsPending(next, passes, count, n + 1)
  {
    forall k: nat
      ensures k in next <==> k < count && !PassedBefore(passes, k, n + 1)
    {
      PassedPush(passes, k, n);
    }
  }

  lemma LogStep(log: seq<OkLine>, oks: seq<OkLine>, pending: seq<nat>, passes: seq<Pass>, count: nat, n: nat)
    requires n < |passes| && IsPending(pending, passes, count, n) && IsLog(log, passes, count, n)
    requires DistinctTargets(oks) && PrintedInOrder(oks)
    requires forall l :: l in oks <==> l.pass == n && l.target in pending && passes[n].passed(l.target)
    ensures IsLog(log + oks, passes, count, n + 1)
  {
    forall i, j | 0 <= i < |log| && 0 <= j < |oks|
      ensures log[i].target != oks[j].target && log[i].pass < oks[j].pass
    {
      assert oks[j] in oks && log[i] in log && log[i] == OkLine(log[i].target, log[i].pass);
    }
    forall k: nat, p: nat
      ensures OkLine(k, p) in log + oks <==>
                k < count && p < n + 1 && passes[p].passed(k) && !PassedBefore(passes, k, p)
    {
      assert OkLine(k, p) in log + oks <==> OkLine(k, p) in log || OkLine(k, p) in oks;
    }
  }

  lemma EmptyMeansCleared(pending: seq<nat>, passes: seq<Pass>, count: nat, n: nat)
    requires n <= |passes| && IsPending(pending, passes, count, n)
    ensures pending == [] <==> Cleared(passes, count, n)
  {
    if pending == [] {
      forall k: nat | k < count
        ensures PassedBefore(passes, k, n)
      {
        assert k !in pending;
      }
    } else {
      assert pending[0] in pending;
    }
  }

  // ----- the run -----

  ghost predicate FirstUnknown(targets: seq<string>, target: string) {
    exists t :: 0 <= t < |targets| && targets[t] == target && target !in KNOWN && forall s :: s in targets[..t] ==> s in KNOWN
  }

  lemma Initially(pending: seq<nat>, passes: seq<Pass>, count: nat)
    requires |pending| == count && forall k: nat :: k < count ==> pending[k] == k
    ensures IsPending(pending, passes, count, 0) && IsLog([], passes, count, 0)
  {
    forall k: nat
      ensures k in pending <==> k < count
    {
      if k < count {
        assert pending[k] == k;
      }
    }
  }

  lemma PendingInRange(pending: seq<nat>, passes: seq<Pass>, count: nat, n: nat)
    requires n <= |passes| && IsPending(pending, passes, count, n)
    ensures forall j :: 0 <= j < |pending| ==> pending[j] < count
  {
    assert forall j :: 0 <= j < |pending| ==> pending[j] in pending;
  }

  /** `last` is the pass in which the run ended, `n` the number of passes whose target checks were made. */
  method Run(targets: seq<string>, passes: seq<Pass>)
    returns (verdict: Verdict, pending: seq<nat>, log: seq<OkLine>, ghost last: nat, ghost n: nat)
    ensures verdict.UnknownTarget? <==> exists t :: t in targets && t !in KNOWN
    ensures verdict.UnknownTarget? ==> n == 0 && FirstUnknown(targets, verdict.target)
    ensures last <= |passes| && n <= |passes| && last <= n <= last + 1
    ensures IsPending(pending, passes, |targets|, n) && IsLog(log, passes, |targets|, n)
    ensures verdict.Ok? ==> last < |passes| && n == last + 1 && Succeeds(passes, |targets|, last)
    ensures verdict.ServicesFailed? ==> last < |passes| && Breaks(passes, |targets|, last)
    ensures verdict.TimedOut? ==> last == |passes| && Reaches(passes, |targets|, last)
    ensures verdict.TimedOut? ==>
              && |pending| <= |verdict.failed|
              && (forall j :: 0 <= j < |pending| ==> pending[j] < |targets| && verdict.failed[j] == targets[pending[j]])
              && verdict.failed[|pending|..] == if LastCheckPassed(passes, |targets|, |passes|) then [] else ["services"]
  {
    pending, log, n, last := seq(|targets|, k => k), [], 0, 0;
    Initially(pending, passes, |targets|);
    for t := 0 to |targets|
      invariant forall s :: s in targets[..t] ==> s in KNOWN
    {
      if targets[t] !in KNOWN {
        return UnknownTarget(targets[t]), pending, log, last, n;
      }
    }
    var servicesReady := false;
    for p := 0 to |passes|
      invariant IsPending(pending, passes, |targets|, p) && IsLog(log, passes, |targets|, p)
      invariant Reaches(passes, |targets|, p)
      invariant servicesReady <==> LastCheckPassed(passes, |targets|, p)
      invariant n == p == last
    {
      if !Alive(passes[p].before) {
        return ServicesFailed, pending, log, last, n;
      }
      servicesReady := passes[p].before == 0;
      var next, oks := CheckPending(pending, passes[p].passed, p);
      PendingStep(pending, next, passes, |targets|, p);
      LogStep(log, oks, pending, passes, |targets|, p);
      pending, log, n := next, log + oks, p + 1;
      EmptyMeansCleared(pending, passes, |targets|, p + 1);
      if pending == [] {
        if !Alive(passes[p].after) {
          return ServicesFailed, pending, log, last, n;
        }
        servicesReady := passes[p].after == 0;
        if servicesReady {
          return Ok, pending, log, last, n;
        }
      }
      last := p + 1;
    }
    PendingInRange(pending, passes, |targets|, |passes|);
    verdict := TimedOut(Names(targets, pending) + (if servicesReady then [] else ["services"]));
  }

  /** The last service check of the first `n` passes was 0: the closing one of its pass, if that made one. */
  ghost predicate LastCheckPassed(passes: seq<Pass>, count: nat, n: nat)
    requires n <= |passes|
  {
    n > 0 && (if Cleared(passes, count, n) then passes[n - 1].after else passes[n - 1].before) == 0
  }

  // ----- what a verdict says about the whole run -----

  lemma Endings(passes: seq<Pass>, count: nat, m: nat, n: nat)
    requires m <= n <= |passes|
    requires m < |passes| && (Succeeds(passes, count, m) || Breaks(passes, count, m))
    requires Reaches(passes, count, n)
    ensures m == n
  {
    assert m < n ==> Continues(passes, count, m);
  }

  /** A run succeeds, breaks or times out, and never two of these. */
  lemma OneEnding(passes: seq<Pass>, count: nat)
    ensures var ok := exists n :: 0 <= n < |passes| && Succeeds(passes, count, n);
            var broke := exists n :: 0 <= n < |passes| && Breaks(passes, count, n);
            var timedOut := Reaches(passes, count, |passes|);
            && (ok || broke || timedOut) && !(ok && broke) && !(ok && timedOut) && !(broke && timedOut)
  {
    SomeEnding(passes, count, |passes|);
    if m :| 0 <= m < |passes| && (Succeeds(passes, count, m) || Breaks(passes, count, m)) {
      if Reaches(passes, count, |passes|) {
        Endings(passes, count, m, |passes|);
      }
      forall n | 0 <= n < |passes| && (Succeeds(passes, count, n) || Breaks(passes, count, n))
        ensures n == m
      {
        if m <= n { Endings(passes, count, m, n); } else { Endings(passes, count, n, m); }
      }
    }
  }

  lemma {:induction false} SomeEnding(passes: seq<Pass>, count: nat, n: nat)
    requires n <= |passes|
    ensures || Reaches(passes, count, n)
            || exists m :: 0 <= m < n && (Succeeds(passes, count, m) || Breaks(passes, count, m))
  {
    if n != 0 {
      SomeEnding(passes, count, n - 1);
      if Reaches(passes, count, n - 1) && !Continues(passes, count, n - 1) {
        assert Succeeds(passes, count, n - 1) || Breaks(passes, count, n - 1);
      }
    }
  }

  /**
   * Success, without following the run: at some pass every target has passed
   * and the closing check is 0, and no check up to there was neither 0 nor 2.
   */
  ghost predicate GateHolds(passes: seq<Pass>, count: nat, n: nat)
    requires n < |passes|
  {
    && Cleared(passes, count, n + 1) && passes[n].after == 0
    && (forall p :: 0 <= p <= n ==> Alive(passes[p].before))
    && (forall p :: 0 <= p < n && Cleared(passes, count, p + 1) ==> Alive(passes[p].after))
  }

  lemma {:induction false} GateHoldsEarlier(passes: seq<Pass>, count: nat, n: nat)
    requires n < |passes| && GateHolds(passes, count, n)
    ensures exists m :: 0 <= m < |passes| && Succeeds(passes, count, m)
  {
    if Reaches(passes, count, n) {
      assert Succeeds(passes, count, n);
    } else {
      var p :| 0 <= p < n && !Continues(passes, count, p);
      assert GateHolds(passes, count, p);
      GateHoldsEarlier(passes, count, p);
    }
  }

  lemma SmokeExact(passes: seq<Pass>, count: nat)
    ensures (exists n :: 0 <= n < |passes| && Succeeds(passes, count, n))
       <==> (exists n :: 0 <= n < |passes| && GateHolds(passes, count, n))
  {
    if n :| 0 <= n < |passes| && Succeeds(passes, count, n) {
      forall p | 0 <= p < n
        ensures Alive(passes[p].before) && (Cleared(passes, count, p + 1) ==> Alive(passes[p].after))
      {
        assert Continues(passes, count, p);
      }
      assert GateHolds(passes, count, n);
    }
    if n :| 0 <= n < |passes| && GateHolds(passes, count, n) {
      GateHoldsEarlier(passes, count, n);
    }
  }

  /** The pending list only shrinks, and what stays keeps its order. */
  lemma PendingShrinks(a: seq<nat>, b: seq<nat>, passes: seq<Pass>, count: nat, n: nat, m: nat)
    requires n <= m <= |passes| && IsPending(a, passes, count, n) && IsPending(b, passes, count, m)
    ensures forall k :: k in b ==> k in a
    ensures Increasing(a) && Increasing(b) && |b| <= |a|
  {
    forall k | k in b
      ensures k in a
    {
      if PassedBefore(passes, k, n) {
        assert PassedBefore(passes, k, m);
      }
    }
    SubsetLength(b, a);
  }

  lemma {:induction false} SubsetLength(b: seq<nat>, a: seq<nat>)
    requires Increasing(a) && Increasing(b) && forall k :: k in b ==> k in a
    ensures |b| <= |a|
  {
    if b != [] {
      var x := b[|b| - 1];
      assert x in a;
      var i :| 0 <= i < |a| && a[i] == x;
      forall k | k in b[..|b| - 1]
        ensures k in a[..i]
      {
        assert k < x && k in a;
        var j :| 0 <= j < |a| && a[j] == k;
        assert j < i;
        assert a[..i][j] == k;
      }
      SubsetLength(b[..|b| - 1], a[..i]);
    }
  }

  /** On success every initial target has exactly one `ok` line, in the first pass it passed. */
  lemma ExactlyOnce(log: seq<OkLine>, passes: seq<Pass>, count: nat, n: nat, k: nat)
    requires n <= |passes| && IsLog(log, passes, count, n) && Cleared(passes, count, n) && k < count
    ensures exists i :: 0 <= i < |log| && log[i].target == k
    ensures forall i, j :: 0 <= i < |log| && 0 <= j < |log| && log[i].target == log[j].target == k ==> i == j
  {
    var p := FirstPass(passes, k, n);
    assert OkLine(k, p) in log;
  }

  lemma {:induction false} FirstPass(passes: seq<Pass>, k: nat, n: nat) returns (p: nat)
    requires n <= |passes| && PassedBefore(passes, k, n)
    ensures p < n && passes[p].passed(k) && !PassedBefore(passes, k, p)
  {
    if PassedBefore(passes, k, n - 1) {
      p := FirstPass(passes, k, n - 1);
    } else {
      p := n - 1;
    }
  }

  // ----- together with the service gate -----

  /** What the service checks of one pass get to see. */
  datatype Looks = Looks(before: CheckServices.Look, after: CheckServices.Look)

  ghost predicate Observed(passes: seq<Pass>, looks: seq<Looks>) {
    && |looks| == |passes|
    && forall p :: 0 <= p < |passes| ==>
         && CheckServices.LookOk(looks[p].before) && passes[p].before == CheckServices.ExitStatus(looks[p].before)
         && CheckServices.LookOk(looks[p].after) && passes[p].after == CheckServices.ExitStatus(looks[p].after)
  }

  ghost predicate Healthy(look: CheckServices.Look) {
    && look.Seen?
    && (forall c :: c in look.containers ==> CheckServices.AsExpected(c, look.oneshots))
    && (forall s :: s in look.expected ==> exists c :: c in look.containers && c.service == s)
  }

  /** Nothing broken or missing was seen; or nothing was seen, because a command failed with status 2. */
  ghost predicate NothingBroken(look: CheckServices.Look) {
    match look
    case Aborted(code) => code == 2
    case Seen(containers, oneshots, expected) =>
      && (forall c :: c in containers ==> !CheckServices.Broken(c, oneshots))
      && (forall s :: s in expected ==> exists c :: c in containers && c.service == s)
  }

  /**
   * A successful smoke run: no service check of the run saw a broken or missing
   * service (at worst it failed itself, with the status that reads as waiting),
   * and after the last target had passed one saw everything as expected.
   */
  lemma SuccessMeansHealthy(passes: seq<Pass>, looks: seq<Looks>, count: nat, n: nat)
    requires Observed(passes, looks)
    requires n < |passes| && Succeeds(passes, count, n)
    ensures Healthy(looks[n].after) && Cleared(passes, count, n + 1)
    ensures forall p :: 0 <= p <= n ==> NothingBroken(looks[p].before)
    ensures forall p :: 0 <= p < n && Cleared(passes, count, p + 1) ==> NothingBroken(looks[p].after)
  {
    CheckServices.ExitZero(looks[n].after);
    forall p | 0 <= p <= n
      ensures NothingBroken(looks[p].before)
      ensures p < n && Cleared(passes, count, p + 1) ==> NothingBroken(looks[p].after)
    {
      AliveMeans(looks[p].before);
      AliveMeans(looks[p].after);
      assert p < n ==> Continues(passes, count, p);
    }
  }

  lemma AliveMeans(look: CheckServices.Look)
    requires CheckServices.LookOk(look)
    ensures Alive(CheckServices.ExitStatus(look)) <==> NothingBroken(look)
  {
    if look.Seen? {
      var services := CheckServices.Services(look.containers);
      assert forall s :: s in services <==> exists c :: c in look.containers && c.service == s;
    }
  }
}
