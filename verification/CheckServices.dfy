// The service gate: one verdict line per service that is not in its expected
// state, folded into one exit status.
module CheckServices {
  import opened Wrappers

  datatype Container = Container(service: string, state: string, exitCode: int, health: string, restarts: nat)

  datatype Verdict = Failed | Pending

  datatype Line = Line(verdict: Verdict, service: string, reason: string)

  // ----- the code -----

  /** Writes one line and folds it into the exit status. */
  method Report(result: nat, lines: seq<Line>, line: Line) returns (newResult: nat, newLines: seq<Line>)
    requires Folded(result, lines)
    ensures newLines == lines + [line] && Folded(newResult, newLines)
  {
    newResult, newLines := result, lines + [line];
    if line.verdict == Failed {
      newResult := 1;
    } else if result == 0 {
      newResult := 2;
    }
    assert newLines[|lines|] == line;
    assert forall l :: l in newLines <==> l in lines || l == line;
  }

  method CheckContainer(c: Container, oneshots: set<string>, result: nat, lines: seq<Line>)
    returns (newResult: nat, newLines: seq<Line>)
    requires Folded(result, lines)
    ensures newLines == lines + ContainerLines(oneshots)(c) && Folded(newResult, newLines)
  {
    newResult, newLines := result, lines;
    if c.service in oneshots {
      if c.state == "exited" {
        if c.exitCode != 0 {
          newResult, newLines := Report(result, lines, Line(Failed, c.service, "one-shot service exited with a non-zero code"));
        }
      } else if c.state == "created" || c.state == "running" {
        newResult, newLines := Report(result, lines, Line(Pending, c.service, "one-shot service has not finished"));
      } else {
        newResult, newLines := Report(result, lines, Line(Failed, c.service, "one-shot service is in an unexpected state"));
      }
    } else if c.restarts > 0 {
      newResult, newLines := Report(result, lines, Line(Failed, c.service, "long-running service restarted"));
    } else if c.state != "running" {
      newResult, newLines := Report(result, lines, Line(Failed, c.service, "long-running service is not running"));
    } else if c.health != "none" && c.health != "healthy" {
      newResult, newLines := Report(result, lines, Line(Pending, c.service, "long-running service is not healthy"));
    }
  }

  method CheckName(service: string, seen: set<string>, result: nat, lines: seq<Line>)
    returns (newResult: nat, newLines: seq<Line>)
    requires Folded(result, lines)
    ensures newLines == lines + MissingLines(seen)(service) && Folded(newResult, newLines)
  {
    newResult, newLines := result, lines;
    if service !in seen {
      newResult, newLines := Report(result, lines, MissingLine(service));
    }
  }

  method CheckExpected(expected: seq<string>, seen: set<string>, result: nat, lines: seq<Line>)
    returns (newResult: nat, newLines: seq<Line>)
    requires Folded(result, lines)
    ensures newLines == lines + Collect(expected, MissingLines(seen)) && Folded(newResult, newLines)
  {
    newResult, newLines := result, lines;
    for k := 0 to |expected|
      invariant Folded(newResult, newLines)
      invariant newLines == lines + Collect(expected[..k], MissingLines(seen))
    {
      CollectPush(expected, k, MissingLines(seen));
      Associative(lines, Collect(expected[..k], MissingLines(seen)), MissingLines(seen)(expected[k]));
      newResult, newLines := CheckName(expected[k], seen, newResult, newLines);
    }
    assert expected[..|expected|] == expected;
  }

  method Run(containers: seq<Container>, oneshots: set<string>, expected: seq<string>) returns (result: nat, lines: seq<Line>)
    ensures lines == AllLines(containers, oneshots, expected)
    ensures Folded(result, lines) && result == Status(containers, oneshots, expected)
    ensures forall l :: l in lines <==> Tells(containers, oneshots, expected, l)
    ensures forall name :: LinesNaming(lines, name) ==
              OutOfState(containers, oneshots, name) + (if HasContainer(containers, name) then 0 else multiset(expected)[name])
  {
    result, lines := 0, [];
    var seen := {};
    for k := 0 to |containers|
      invariant Folded(result, lines) && seen == Services(containers[..k])
      invariant lines == Collect(containers[..k], ContainerLines(oneshots))
    {
      CollectPush(containers, k, ContainerLines(oneshots));
      ServicesPush(containers, k);
      seen := seen + {containers[k].service};
      result, lines := CheckContainer(containers[k], oneshots, result, lines);
    }
    assert containers[..|containers|] == containers;
    result, lines := CheckExpected(expected, seen, result, lines);
    StatusExact(containers, oneshots, expected, result);
    forall l
      ensures l in lines <==> Tells(containers, oneshots, expected, l)
    {
      LinesTell(containers, oneshots, expected, l);
    }
    forall name
      ensures LinesNaming(lines, name) ==
                OutOfState(containers, oneshots, name) + (if HasContainer(containers, name) then 0 else multiset(expected)[name])
    {
      LinesCounted(containers, oneshots, expected, name);
    }
  }

  // ----- its specification -----

  /** 1 if some line is FAILED, 2 if some line is PENDING and none is FAILED, 0 without lines. */
  ghost predicate Folded(result: nat, lines: seq<Line>) {
    && (result == 1 <==> exists l :: l in lines && l.verdict == Failed)
    && (result == 2 <==> lines != [] && forall l :: l in lines ==> l.verdict == Pending)
    && (result == 0 <==> lines == [])
  }

  function Services(containers: seq<Container>): set<string> {
    set c | c in containers :: c.service
  }

  function Collect<T>(xs: seq<T>, f: T -> seq<Line>): seq<Line> {
    if xs == [] then [] else Collect(xs[..|xs| - 1], f) + f(xs[|xs| - 1])
  }

  function MissingLine(service: string): Line {
    Line(Failed, service, "expected service has no container")
  }

  function MissingLines(seen: set<string>): string -> seq<Line> {
    (service: string) => if service in seen then [] else [MissingLine(service)]
  }

  function ContainerLines(oneshots: set<string>): Container -> seq<Line> {
    (c: Container) =>
      if AsExpected(c, oneshots) then []
      else [Line(if Broken(c, oneshots) then Failed else Pending, c.service, Reason(c, oneshots))]
  }

  function AllLines(containers: seq<Container>, oneshots: set<string>, expected: seq<string>): seq<Line> {
    Collect(containers, ContainerLines(oneshots)) + Collect(expected, MissingLines(Services(containers)))
  }

  /** The expected state, as the script's header promises it. */
  predicate AsExpected(c: Container, oneshots: set<string>) {
    if c.service in oneshots then c.state == "exited" && c.exitCode == 0
    else c.state == "running" && c.restarts == 0 && c.health in {"none", "healthy"}
  }

  /** A state that waiting cannot mend. */
  predicate Broken(c: Container, oneshots: set<string>) {
    if c.service in oneshots then c.state !in {"created", "running"} && !(c.state == "exited" && c.exitCode == 0)
    else c.state != "running" || c.restarts > 0
  }

  function Reason(c: Container, oneshots: set<string>): string {
    if c.service in oneshots then
      if c.state == "exited" then "one-shot service exited with a non-zero code"
      else if c.state in {"created", "running"} then "one-shot service has not finished"
      else "one-shot service is in an unexpected state"
    else if c.restarts > 0 then "long-running service restarted"
    else if c.state != "running" then "long-running service is not running"
    else "long-running service is not healthy"
  }

  lemma CollectPush<T>(xs: seq<T>, k: nat, f: T -> seq<Line>)
    requires k < |xs|
    ensures Collect(xs[..k + 1], f) == Collect(xs[..k], f) + f(xs[k])
  {
    assert xs[..k + 1][..k] == xs[..k];
  }

  lemma ServicesPush(containers: seq<Container>, k: nat)
    requires k < |containers|
    ensures Services(containers[..k + 1]) == Services(containers[..k]) + {containers[k].service}
  {
    assert containers[..k + 1] == containers[..k] + [containers[k]];
  }

  // ----- what the lines say -----

  predicate HasContainer(containers: seq<Container>, service: string) {
    exists c :: c in containers && c.service == service
  }

  /** Each text of a line about a container, and what it asserts. */
  predicate Asserts(c: Container, oneshot: bool, v: Verdict, reason: string) {
    || (v == Failed && reason == "one-shot service exited with a non-zero code"
        && oneshot && c.state == "exited" && c.exitCode != 0)
    || (v == Pending && reason == "one-shot service has not finished"
        && oneshot && c.state in {"created", "running"})
    || (v == Failed && reason == "one-shot service is in an unexpected state"
        && oneshot && c.state !in {"exited", "created", "running"})
    || (v == Failed && reason == "long-running service restarted"
        && !oneshot && c.restarts > 0)
    || (v == Failed && reason == "long-running service is not running"
        && !oneshot && c.restarts == 0 && c.state != "running")
    || (v == Pending && reason == "long-running service is not healthy"
        && !oneshot && c.restarts == 0 && c.state == "running" && c.health !in {"none", "healthy"})
  }

  /** A line is written exactly for a container of the service it names, or for a missing service. */
  predicate Tells(containers: seq<Container>, oneshots: set<string>, expected: seq<string>, l: Line) {
    || (exists c :: c in containers && c.service == l.service && Asserts(c, l.service in oneshots, l.verdict, l.reason))
    || (l.verdict == Failed && l.reason == "expected service has no container"
        && l.service in expected && !HasContainer(containers, l.service))
  }

  lemma ContainerLineTells(c: Container, oneshots: set<string>, l: Line)
    ensures l in ContainerLines(oneshots)(c) <==>
              l.service == c.service && Asserts(c, c.service in oneshots, l.verdict, l.reason)
  {
  }

  lemma ServicesHave(containers: seq<Container>, service: string)
    ensures service in Services(containers) <==> HasContainer(containers, service)
  {
  }

  lemma LinesTell(containers: seq<Container>, oneshots: set<string>, expected: seq<string>, l: Line)
    ensures l in AllLines(containers, oneshots, expected) <==> Tells(containers, oneshots, expected, l)
  {
    CollectIn(containers, ContainerLines(oneshots), l);
    CollectIn(expected, MissingLines(Services(containers)), l);
    forall c
      ensures l in ContainerLines(oneshots)(c) <==>
                l.service == c.service && Asserts(c, c.service in oneshots, l.verdict, l.reason)
    {
      ContainerLineTells(c, oneshots, l);
    }
    ServicesHave(containers, l.service);
    assert forall s :: l in MissingLines(Services(containers))(s) <==> s !in Services(containers) && l == MissingLine(s);
  }

  /** How many lines name a service. */
  function LinesNaming(lines: seq<Line>, name: string): nat {
    if lines == [] then 0
    else LinesNaming(lines[..|lines| - 1], name) + (if lines[|lines| - 1].service == name then 1 else 0)
  }

  /** How many containers of a service some text applies to. */
  ghost function OutOfState(containers: seq<Container>, oneshots: set<string>, name: string): nat {
    if containers == [] then 0
    else
      var c := containers[|containers| - 1];
      OutOfState(containers[..|containers| - 1], oneshots, name)
      + (if c.service == name && exists v, reason :: Asserts(c, name in oneshots, v, reason) then 1 else 0)
  }

  lemma {:induction false} NamingConcat(a: seq<Line>, b: seq<Line>, name: string)
    ensures LinesNaming(a + b, name) == LinesNaming(a, name) + LinesNaming(b, name)
  {
    if b == [] {
      assert a + b == a;
    } else {
      NamingConcat(a, b[..|b| - 1], name);
      assert (a + b)[..|a + b| - 1] == a + b[..|b| - 1];
    }
  }

  lemma {:induction false} ContainerLineNames(c: Container, oneshots: set<string>, name: string)
    ensures LinesNaming(ContainerLines(oneshots)(c), name) ==
              if c.service == name && exists v, reason :: Asserts(c, name in oneshots, v, reason) then 1 else 0
  {
    var ls := ContainerLines(oneshots)(c);
    if ls != [] {
      ContainerLineTells(c, oneshots, ls[0]);
      assert ls[..0] == [];
    } else {
      forall v, reason
        ensures !Asserts(c, c.service in oneshots, v, reason)
      {
        ContainerLineTells(c, oneshots, Line(v, c.service, reason));
      }
    }
  }

  lemma {:induction false} ContainersCounted(containers: seq<Container>, oneshots: set<string>, name: string)
    ensures LinesNaming(Collect(containers, ContainerLines(oneshots)), name) == OutOfState(containers, oneshots, name)
  {
    if containers != [] {
      var n := |containers| - 1;
      ContainersCounted(containers[..n], oneshots, name);
      ContainerLineNames(containers[n], oneshots, name);
      NamingConcat(Collect(containers[..n], ContainerLines(oneshots)), ContainerLines(oneshots)(containers[n]), name);
    }
  }

  lemma {:induction false} MissingLineNames(service: string, seen: set<string>, name: string)
    ensures LinesNaming(MissingLines(seen)(service), name) == if service == name && name !in seen then 1 else 0
  {
    var ls := MissingLines(seen)(service);
    assert ls != [] ==> ls[..0] == [];
  }

  lemma MentionsPush(expected: seq<string>, name: string)
    requires expected != []
    ensures var n := |expected| - 1;
            multiset(expected)[name] == multiset(expected[..n])[name] + (if expected[n] == name then 1 else 0)
  {
    var n := |expected| - 1;
    assert expected == expected[..n] + [expected[n]];
  }

  lemma {:induction false} MissingCounted(expected: seq<string>, seen: set<string>, name: string)
    ensures LinesNaming(Collect(expected, MissingLines(seen)), name) == if name in seen then 0 else multiset(expected)[name]
  {
    if expected != [] {
      var n := |expected| - 1;
      MissingCounted(expected[..n], seen, name);
      NamingConcat(Collect(expected[..n], MissingLines(seen)), MissingLines(seen)(expected[n]), name);
      MissingLineNames(expected[n], seen, name);
      MentionsPush(expected, name);
    }
  }

  /** Every service is named once per container out of state, and once per mention if it is missing. */
  lemma {:induction false} LinesCounted(containers: seq<Container>, oneshots: set<string>, expected: seq<string>, name: string)
    ensures LinesNaming(AllLines(containers, oneshots, expected), name) ==
              OutOfState(containers, oneshots, name) + (if HasContainer(containers, name) then 0 else multiset(expected)[name])
  {
    var a, b := Collect(containers, ContainerLines(oneshots)), Collect(expected, MissingLines(Services(containers)));
    NamingConcat(a, b, name);
    ContainersCounted(containers, oneshots, name);
    MissingCounted(expected, Services(containers), name);
    ServicesHave(containers, name);
  }

  // ----- what the exit status says -----

  /** The status as a property of the containers and the expected services alone. */
  ghost function Status(containers: seq<Container>, oneshots: set<string>, expected: seq<string>): nat {
    if (exists c :: c in containers && Broken(c, oneshots)) || exists s :: s in expected && s !in Services(containers) then 1
    else if exists c :: c in containers && !AsExpected(c, oneshots) then 2
    else 0
  }

  lemma {:induction false} CollectIn<T(!new)>(xs: seq<T>, f: T -> seq<Line>, l: Line)
    ensures l in Collect(xs, f) <==> exists x :: x in xs && l in f(x)
  {
    if xs != [] {
      var n := |xs| - 1;
      CollectIn(xs[..n], f, l);
      assert xs == xs[..n] + [xs[n]];
    }
  }

  /** Every line is about a container out of its expected state or a missing service. */
  lemma LineExact(containers: seq<Container>, oneshots: set<string>, expected: seq<string>, v: Verdict)
    ensures (exists l :: l in AllLines(containers, oneshots, expected) && l.verdict == v) <==>
              || (exists c :: c in containers && !AsExpected(c, oneshots) && (Broken(c, oneshots) <==> v == Failed))
              || (v == Failed && exists s :: s in expected && s !in Services(containers))
  {
    var lines := AllLines(containers, oneshots, expected);
    var f, g := ContainerLines(oneshots), MissingLines(Services(containers));
    if l :| l in lines && l.verdict == v {
      if l in Collect(containers, f) {
        CollectIn(containers, f, l);
      } else {
        CollectIn(expected, g, l);
      }
    }
    if c :| c in containers && !AsExpected(c, oneshots) && (Broken(c, oneshots) <==> v == Failed) {
      CollectIn(containers, f, f(c)[0]);
      assert f(c)[0] in lines;
    }
    if s :| s in expected && s !in Services(containers) {
      CollectIn(expected, g, MissingLine(s));
      assert MissingLine(s) in lines;
    }
  }

  /** What the script computes is `Status`. */
  lemma StatusExact(containers: seq<Container>, oneshots: set<string>, expected: seq<string>, result: nat)
    requires Folded(result, AllLines(containers, oneshots, expected))
    ensures result == Status(containers, oneshots, expected)
  {
    var lines := AllLines(containers, oneshots, expected);
    LineExact(containers, oneshots, expected, Failed);
    LineExact(containers, oneshots, expected, Pending);
    if lines != [] {
      assert lines[0].verdict == Failed || lines[0].verdict == Pending;
    }
  }

  /** Status 0 is exactly: every container is as the header demands and every expected service has one. */
  lemma StatusZero(containers: seq<Container>, oneshots: set<string>, expected: seq<string>)
    ensures Status(containers, oneshots, expected) == 0 <==>
              && (forall c :: c in containers && c.service in oneshots ==> c.state == "exited" && c.exitCode == 0)
              && (forall c :: c in containers && c.service !in oneshots ==>
                    c.state == "running" && c.restarts == 0 && (c.health == "none" || c.health == "healthy"))
              && (forall s :: s in expected ==> HasContainer(containers, s))
  {
    forall s
      ensures s in Services(containers) <==> HasContainer(containers, s)
    {
      ServicesHave(containers, s);
    }
  }

  /** Status 1 is exactly: a service is missing or a container is in a state no waiting can mend. */
  lemma StatusOne(containers: seq<Container>, oneshots: set<string>, expected: seq<string>)
    ensures Status(containers, oneshots, expected) == 1 <==>
              || (exists s :: s in expected && !HasContainer(containers, s))
              || (exists c, reason :: c in containers && Asserts(c, c.service in oneshots, Failed, reason))
  {
    forall s
      ensures s in Services(containers) <==> HasContainer(containers, s)
    {
      ServicesHave(containers, s);
    }
    forall c
      ensures Broken(c, oneshots) <==> exists reason :: Asserts(c, c.service in oneshots, Failed, reason)
    {
      BrokenTells(c, oneshots);
    }
  }

  lemma BrokenTells(c: Container, oneshots: set<string>)
    ensures Broken(c, oneshots) <==> exists reason :: Asserts(c, c.service in oneshots, Failed, reason)
  {
    if Broken(c, oneshots) {
      assert Asserts(c, c.service in oneshots, Failed, Reason(c, oneshots));
    }
  }

  /** Status 2 is exactly: neither of these, and some container has not settled yet. */
  lemma StatusTwo(containers: seq<Container>, oneshots: set<string>, expected: seq<string>)
    ensures Status(containers, oneshots, expected) == 2 <==>
              && (forall s :: s in expected ==> HasContainer(containers, s))
              && (forall c, reason :: c in containers ==> !Asserts(c, c.service in oneshots, Failed, reason))
              && (exists c, reason :: c in containers && Asserts(c, c.service in oneshots, Pending, reason))
  {
    StatusOne(containers, oneshots, expected);
    forall c
      ensures !AsExpected(c, oneshots) && !Broken(c, oneshots) <==>
                exists reason :: Asserts(c, c.service in oneshots, Pending, reason)
    {
      UnsettledTells(c, oneshots);
    }
  }

  lemma UnsettledTells(c: Container, oneshots: set<string>)
    ensures !AsExpected(c, oneshots) && !Broken(c, oneshots) <==>
              exists reason :: Asserts(c, c.service in oneshots, Pending, reason)
  {
    if !AsExpected(c, oneshots) && !Broken(c, oneshots) {
      assert Asserts(c, c.service in oneshots, Pending, Reason(c, oneshots));
    }
  }

  /**
   * A container that is still starting does not always mean status 2: a
   * long-running service that is only created already fails the gate.
   */
  lemma CreatedFails(service: string, exitCode: int, health: string)
    ensures Status([Container(service, "created", exitCode, health, 0)], {}, [service]) == 1
    ensures Status([Container(service, "created", exitCode, health, 0)], {service}, []) == 2
  {
    var c := Container(service, "created", exitCode, health, 0);
    assert c in [c] && c.state[0] == 'c' && "running"[0] == 'r' && "exited"[0] == 'e';
    assert Broken(c, {}) && !Broken(c, {service}) && !AsExpected(c, {service});
  }

  /** Neither the order of containers nor that of expected services matters, nor do repetitions. */
  lemma StatusOrderless(containers: seq<Container>, expected: seq<string>,
                        others: seq<Container>, wanted: seq<string>, oneshots: set<string>)
    requires forall c :: c in containers <==> c in others
    requires forall s :: s in expected <==> s in wanted
    ensures Status(containers, oneshots, expected) == Status(others, oneshots, wanted)
  {
    assert Services(containers) == Services(others);
  }

  // ----- a run of the script -----

  /**
   * What the script gets to see. Under `set -e` a failing command ends it with
   * that command's own status, which is not 0.
   */
  datatype Look =
    | Seen(containers: seq<Container>, oneshots: set<string>, expected: seq<string>)
    | Aborted(code: nat)

  ghost predicate LookOk(look: Look) {
    look.Aborted? ==> look.code != 0
  }

  ghost function ExitStatus(look: Look): nat {
    match look
    case Seen(containers, oneshots, expected) => Status(containers, oneshots, expected)
    case Aborted(code) => code
  }

  /** Exit status 0 still means that everything was seen as expected. */
  lemma ExitZero(look: Look)
    requires LookOk(look) && ExitStatus(look) == 0
    ensures look.Seen? && forall c :: c in look.containers ==> AsExpected(c, look.oneshots)
    ensures forall s :: s in look.expected ==> exists c :: c in look.containers && c.service == s
  {
    StatusZero(look.containers, look.oneshots, look.expected);
  }

  /** ... but exit status 2 does not mean that services are starting: it may be a failing command's. */
  lemma ExitTwo(look: Look)
    requires LookOk(look)
    ensures ExitStatus(look) == 2 <==>
              (look == Aborted(2) || (look.Seen? && Status(look.containers, look.oneshots, look.expected) == 2))
  {
  }

  // ----- permuting the input only permutes the lines -----

  lemma {:induction false} CollectConcat<T>(a: seq<T>, b: seq<T>, f: T -> seq<Line>)
    ensures Collect(a + b, f) == Collect(a, f) + Collect(b, f)
  {
    if b == [] {
      assert a + b == a;
    } else {
      var n := |b| - 1;
      CollectConcat(a, b[..n], f);
      assert (a + b)[..|a + b| - 1] == a + b[..n];
    }
  }

  function Without<T>(b: seq<T>, k: nat): seq<T>
    requires k < |b|
  {
    b[..k] + b[k + 1..]
  }

  lemma WithoutMultiset<T>(b: seq<T>, k: nat)
    requires k < |b|
    ensures multiset(Without(b, k)) == multiset(b) - multiset{b[k]}
  {
    assert b == b[..k] + [b[k]] + b[k + 1..];
  }

  lemma {:induction false} CollectWithout<T>(b: seq<T>, k: nat, f: T -> seq<Line>)
    requires k < |b|
    ensures multiset(Collect(b, f)) == multiset(Collect(Without(b, k), f)) + multiset(f(b[k]))
  {
    assert b == b[..k + 1] + b[k + 1..];
    CollectConcat(b[..k], b[k + 1..], f);
    CollectConcat(b[..k + 1], b[k + 1..], f);
    CollectPush(b, k, f);
  }

  lemma {:induction false} CollectPermuted<T>(a: seq<T>, b: seq<T>, f: T -> seq<Line>)
    requires multiset(a) == multiset(b)
    ensures multiset(Collect(a, f)) == multiset(Collect(b, f))
    decreases |a|
  {
    if a == [] {
      assert |multiset(b)| == 0;
    } else {
      assert a[0] in multiset(b);
      var k :| 0 <= k < |b| && b[k] == a[0];
      WithoutMultiset(a, 0);
      WithoutMultiset(b, k);
      CollectPermuted(Without(a, 0), Without(b, k), f);
      CollectWithout(a, 0, f);
      CollectWithout(b, k, f);
    }
  }

  lemma LinesPermuted(containers: seq<Container>, expected: seq<string>,
                      others: seq<Container>, wanted: seq<string>, oneshots: set<string>)
    requires multiset(containers) == multiset(others) && multiset(expected) == multiset(wanted)
    ensures multiset(AllLines(containers, oneshots, expected)) == multiset(AllLines(others, oneshots, wanted))
  {
    assert forall c :: c in containers <==> c in multiset(containers);
    assert forall c :: c in others <==> c in multiset(others);
    assert Services(containers) == Services(others);
    CollectPermuted(containers, others, ContainerLines(oneshots));
    CollectPermuted(expected, wanted, MissingLines(Services(containers)));
  }
}
