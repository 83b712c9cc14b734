// Runs of a step system given by a partial step function.
module Runs {
  import opened Wrappers

  ghost predicate Valid<S, E>(next: (S, E) -> Option<S>, s: S, es: seq<E>)
    decreases |es|
  {
    es == [] || (next(s, es[0]).Some? && Valid(next, next(s, es[0]).value, es[1..]))
  }

  ghost function Run<S, E>(next: (S, E) -> Option<S>, s: S, es: seq<E>): S
    requires Valid(next, s, es)
    decreases |es|
  {
    if es == [] then s else Run(next, next(s, es[0]).value, es[1..])
  }

  lemma {:induction false} Concat<S, E>(next: (S, E) -> Option<S>, s: S, es: seq<E>, fs: seq<E>)
    requires Valid(next, s, es) && Valid(next, Run(next, s, es), fs)
    ensures Valid(next, s, es + fs)
    ensures Run(next, s, es + fs) == Run(next, Run(next, s, es), fs)
    decreases |es|
  {
    if es == [] {
      assert es + fs == fs;
    } else {
      Concat(next, next(s, es[0]).value, es[1..], fs);
      assert (es + fs)[1..] == es[1..] + fs;
    }
  }

  lemma {:induction false} Push<S, E>(next: (S, E) -> Option<S>, s: S, es: seq<E>, e: E)
    requires Valid(next, s, es) && next(Run(next, s, es), e).Some?
    ensures Valid(next, s, es + [e])
    ensures Run(next, s, es + [e]) == next(Run(next, s, es), e).value
  {
    var t := Run(next, s, es);
    assert Valid(next, next(t, e).value, [e][1..]);
    assert Run(next, t, [e]) == Run(next, next(t, e).value, [e][1..]);
    Concat(next, s, es, [e]);
  }

  lemma {:induction false} PushInverse<S, E>(next: (S, E) -> Option<S>, s: S, es: seq<E>, e: E)
    requires Valid(next, s, es) && Valid(next, s, es + [e])
    ensures next(Run(next, s, es), e) == Some(Run(next, s, es + [e]))
    decreases |es|
  {
    if es != [] {
      assert (es + [e])[1..] == es[1..] + [e];
      PushInverse(next, next(s, es[0]).value, es[1..], e);
    } else {
      assert (es + [e])[1..] == [];
    }
  }

  lemma Pair<S, E>(next: (S, E) -> Option<S>, s: S, e: E, f: E)
    requires next(s, e).Some? && next(next(s, e).value, f).Some?
    ensures Valid(next, s, [e, f])
    ensures Run(next, s, [e, f]) == next(next(s, e).value, f).value
  {
    Push(next, s, [], e);
    assert [] + [e] == [e];
    Push(next, s, [e], f);
    assert [e] + [f] == [e, f];
  }

  ghost predicate Inductive<S(!new), E(!new)>(next: (S, E) -> Option<S>, inv: S -> bool) {
    forall s: S, e: E :: inv(s) && next(s, e).Some? ==> inv(next(s, e).value)
  }

  lemma {:induction false} Preserved<S(!new), E(!new)>(next: (S, E) -> Option<S>, inv: S -> bool, s: S, es: seq<E>)
    requires Inductive(next, inv) && inv(s) && Valid(next, s, es)
    ensures inv(Run(next, s, es))
    decreases |es|
  {
    if es != [] {
      Preserved(next, inv, next(s, es[0]).value, es[1..]);
    }
  }

  /** Two systems that step alike wherever an invariant holds have the same runs. */
  lemma {:induction false} SameRuns<S(!new), E(!new)>(
      f: (S, E) -> Option<S>, g: (S, E) -> Option<S>, inv: S -> bool, s: S, es: seq<E>)
    requires Inductive(f, inv) && inv(s)
    requires forall s: S, e: E :: inv(s) ==> f(s, e) == g(s, e)
    ensures Valid(f, s, es) <==> Valid(g, s, es)
    ensures Valid(f, s, es) ==> Run(f, s, es) == Run(g, s, es)
    decreases |es|
  {
    if es != [] && f(s, es[0]).Some? {
      SameRuns(f, g, inv, f(s, es[0]).value, es[1..]);
    }
  }

  /** A system that only forbids some steps of another has some of its runs, with the same outcome. */
  lemma {:induction false} Restricts<S(!new), E(!new)>(f: (S, E) -> Option<S>, g: (S, E) -> Option<S>, s: S, es: seq<E>)
    requires Valid(f, s, es)
    requires forall s: S, e: E :: f(s, e).Some? ==> f(s, e) == g(s, e)
    ensures Valid(g, s, es) && Run(g, s, es) == Run(f, s, es)
    decreases |es|
  {
    if es != [] {
      Restricts(f, g, f(s, es[0]).value, es[1..]);
    }
  }

  /** A step that lowers a measure can be taken at most as often as the measure says. */
  lemma {:induction false} Bounded<S(!new), E(!new)>(
      next: (S, E) -> Option<S>, inv: S -> bool, measure: S -> nat, s: S, es: seq<E>)
    requires Inductive(next, inv) && inv(s) && Valid(next, s, es)
    requires forall s: S, e: E :: inv(s) && next(s, e).Some? ==> measure(next(s, e).value) < measure(s)
    ensures |es| + measure(Run(next, s, es)) <= measure(s)
    decreases |es|
  {
    if es != [] {
      Bounded(next, inv, measure, next(s, es[0]).value, es[1..]);
    }
  }
}
