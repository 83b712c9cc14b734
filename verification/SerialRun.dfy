// Limit one sends the orders one at a time; any run is, key by key, such a run.
module SerialRun {
  import opened Accounting
  import opened Counters
  import opened Deliveries
  import opened Invariants
  import opened Orders
  import opened Preservation
  import opened Runs
  import opened Scheduler
  import opened Wrappers

  /** The deliveries' logs end to end. */
  function SerialLog(ds: seq<Delivery>): seq<LogEntry> {
    if ds == [] then [] else SerialLog(ds[..|ds| - 1]) + DeliveryLog(|ds| - 1, ds[|ds| - 1])
  }

  /** No delivery before the last one panicked. */
  ghost predicate NoEarlyCrash(ds: seq<Delivery>) {
    forall i :: 0 <= i < |ds| - 1 ==> !ds[i].stage.Crashed?
  }

  // ----- what limit one means -----

  /** Every delivery but the last is over and without panic, and the log is the deliveries' logs end to end. */
  ghost predicate OneByOne(s: State) {
    && (forall i :: 0 <= i < |s.deliveries| - 1 ==> s.deliveries[i].joined && s.deliveries[i].stage.Done?)
    && (s.phase.Running? ==> forall i :: 0 <= i < |s.deliveries| && s.deliveries[i].joined ==> s.deliveries[i].stage.Done?)
    && s.log == SerialLog(s.deliveries)
  }

  lemma SerialLogLast(ds: seq<Delivery>, d: Delivery, more: seq<LogEntry>)
    requires ds != [] && DeliveryLog(|ds| - 1, d) == DeliveryLog(|ds| - 1, ds[|ds| - 1]) + more
    ensures SerialLog(ds[|ds| - 1 := d]) == SerialLog(ds) + more
  {
    var n := |ds| - 1;
    assert ds[n := d][..n] == ds[..n];
    Associative(SerialLog(ds[..n]), DeliveryLog(n, ds[n]), more);
  }

  lemma OneByOneAdmit(c: Config, s: State, d: Delivery, t: State)
    requires OneByOne(s) && s.phase.Running? && PendingCount(s) == 0 && d.results == [] && d.stage == Ready && !d.joined
    requires t.deliveries == s.deliveries + [d] && t.log == s.log
    ensures OneByOne(t)
  {
    SomePending(s.deliveries);
    assert t.deliveries[..|s.deliveries|] == s.deliveries;
    assert DeliveryLog(|s.deliveries|, d) == [];
  }

  lemma OneByOneTask(s: State, i: nat, d: Delivery, more: seq<LogEntry>, t: State)
    requires OneByOne(s) && TaskStep(s, i, d, more, t)
    ensures OneByOne(t)
  {
    SerialLogLast(s.deliveries, d, more);
  }

  lemma OneByOneJoin(s: State, i: nat, d: Delivery, t: State)
    requires OneByOne(s) && JoinStep(s, i, d, t)
    ensures OneByOne(t)
  {
    SerialLogLast(s.deliveries, d, []);
  }

  lemma OneByOneReceive(c: Config, s: State, i: nat, ok: bool)
    requires Shape(c, s) && InStage(s, i, Waiting) && OneByOne(s)
    ensures OneByOne(Receive(s, i, ok))
  {
    var d := s.deliveries[i];
    ReceiveIsTaskStep(s, i, ok, d.Answer(ok), Receive(s, i, ok));
    OneByOneTask(s, i, d.Answer(ok), [Answered(i, |d.results| + 1, ok)], Receive(s, i, ok));
  }

  lemma OneByOneSend(c: Config, s: State, i: nat)
    requires Shape(c, s) && InStage(s, i, Ready) && OneByOne(s)
    ensures OneByOne(Send(s, i))
  {
    var d := s.deliveries[i];
    SendIsTaskStep(s, i);
    OneByOneTask(s, i, d.(stage := Waiting), [Sent(i, |d.results| + 1, d.record)], Send(s, i));
  }

  lemma OneByOneCrash(c: Config, s: State, i: nat)
    requires Shape(c, s) && (InStage(s, i, Ready) || InStage(s, i, Waiting)) && OneByOne(s)
    ensures OneByOne(Crash(s, i))
  {
    var d := s.deliveries[i];
    CrashIsTaskStep(s, i);
    OneByOneTask(s, i, d.(stage := Crashed(d.stage.Waiting?)), [], Crash(s, i));
  }

  lemma OneByOneTick(c: Config, s: State, trace: Trace)
    requires c.period > 0 && Shape(c, s) && OneByOne(s) && s.phase.Running? && s.slot <= s.now && PendingCount(s) < 1
    ensures OneByOne(Admit(c, s, trace))
  {
    var d := FreshDelivery(c, s, trace);
    OneByOneAdmit(c, s, d, Admit(c, s, trace));
  }

  lemma OneByOneTakes(s: State, i: nat, t: State)
    requires OneByOne(s) && Joinable(s, i) && !s.phase.Returned?
    requires t == if s.phase.Running? then JoinRunning(s, i) else JoinDraining(s, i)
    ensures OneByOne(t)
  {
    if s.phase.Running? {
      JoinRunningIsJoinStep(s, i);
    } else {
      JoinDrainingIsJoinStep(s, i);
    }
    OneByOneJoin(s, i, s.deliveries[i].(joined := true), t);
  }

  lemma OneByOneStep(c: Config, s: State, e: Event)
    requires ConfigOk(c) && c.maxInFlight == 1 && Shape(c, s) && OneByOne(s) && Enabled(c, s, e)
    ensures OneByOne(Apply(c, s, e))
  {
    var t := s.(now := e.at);
    match e.action
    case Tick(trace) => OneByOneTick(c, t, trace);
    case Attempt(i) => OneByOneSend(c, t, i);
    case Answer(i, ok) => OneByOneReceive(c, t, i, ok);
    case Panic(i) => OneByOneCrash(c, t, i);
    case Join(i) => OneByOneTakes(t, i, JoinRunning(t, i));
    case DrainJoin(i) => OneByOneTakes(t, i, JoinDraining(t, i));
    case _ =>
  }

  ghost predicate Alone(c: Config, s: State) {
    Inv(c, s) && OneByOne(s)
  }

  lemma AloneStep(c: Config, s: State, e: Event)
    requires Alone(c, s) && c.maxInFlight == 1 && Enabled(c, s, e)
    ensures Alone(c, Apply(c, s, e))
  {
    Step(c, s, e);
    OneByOneStep(c, s, e);
  }

  lemma AloneIsInductive(c: Config)
    requires ConfigOk(c) && c.maxInFlight == 1
    ensures Inductive(Next(c), s => Alone(c, s))
  {
    forall s: State, e: Event | Alone(c, s) && Enabled(c, s, e)
      ensures Alone(c, Apply(c, s, e))
    {
      AloneStep(c, s, e);
    }
  }

  /**
   * In every state of every run of limit one, panics included, the orders before
   * the last are over without a panic and everything sent and answered so far is
   * the deliveries' logs end to end.
   */
  lemma LimitOne(c: Config, es: seq<Event>)
    requires ValidRun(c, es) && c.maxInFlight == 1
    ensures var s := Final(c, es);
            && (forall i :: 0 <= i < |s.deliveries| - 1 ==> s.deliveries[i].joined && s.deliveries[i].stage.Done?)
            && s.log == SerialLog(s.deliveries)
  {
    InvInit(c);
    assert OneByOne(Init());
    AloneIsInductive(c);
    Preserved(Next(c), s => Alone(c, s), Init(), es);
  }

  // ----- the one-at-a-time schedule -----

  /** Timer slot number `k`. */
  function SlotTime(k: nat, period: nat): nat {
    if k == 0 then 0 else SlotTime(k - 1, period) + period
  }

  function AttemptEvents(i: nat, at: nat, results: seq<bool>): seq<Event> {
    if results == [] then []
    else
      var n := |results| - 1;
      AttemptEvents(i, at, results[..n]) + [Event(at, Attempt(i)), Event(at, Answer(i, results[n]))]
  }

  /** How a delivery panics once its answers are in. */
  function CrashEvents(i: nat, at: nat, sent: bool): seq<Event> {
    (if sent then [Event(at, Attempt(i))] else []) + [Event(at, Panic(i))]
  }

  function OneDelivery(i: nat, at: nat, d: Delivery): seq<Event> {
    [Event(at, Tick(d.trace))] + AttemptEvents(i, at, d.results)
    + (if d.stage.Crashed? then CrashEvents(i, at, d.stage.sent) else [])
    + [Event(at, Join(i))]
  }

  /** Admit, send until answered, join; then the next order, one timer slot later. */
  function OneAtATime(period: nat, ds: seq<Delivery>): seq<Event> {
    if ds == [] then []
    else
      var n := |ds| - 1;
      OneAtATime(period, ds[..n]) + OneDelivery(n, SlotTime(n, period), ds[n])
  }

  /** A panic of the last delivery has already ended the loop. */
  function Ending(at: nat, ds: seq<Delivery>): seq<Event> {
    if ds != [] && ds[|ds| - 1].stage.Crashed? then [Event(at, Return)]
    else [Event(at, Shutdown), Event(at, Return)]
  }

  function SerialEvents(period: nat, ds: seq<Delivery>): seq<Event> {
    OneAtATime(period, ds) + Ending(SlotTime(|ds|, period), ds)
  }

  ghost predicate Leads(c: Config, s: State, es: seq<Event>, t: State) {
    ValidFrom(c, s, es) && RunFrom(c, s, es) == t
  }

  lemma LeadsConcat(c: Config, s: State, es: seq<Event>, t: State, fs: seq<Event>, u: State)
    requires Leads(c, s, es, t) && Leads(c, t, fs, u)
    ensures Leads(c, s, es + fs, u)
  {
    Concat(Next(c), s, es, fs);
  }

  lemma LeadsStep(c: Config, s: State, es: seq<Event>, t: State, e: Event)
    requires Leads(c, s, es, t) && Enabled(c, t, e)
    ensures Leads(c, s, es + [e], Apply(c, t, e))
  {
    Push(Next(c), s, es, e);
  }

  // ----- one delivery -----

  /** Deliveries that were admitted in order and all joined. */
  ghost predicate Finished(c: Config, ds: seq<Delivery>) {
    forall i :: 0 <= i < |ds| ==> FinishedAt(c, ds, i)
  }

  ghost predicate FinishedAt(c: Config, ds: seq<Delivery>, i: nat)
    requires i < |ds|
  {
    Genuine(c, i, ds[i]) && DeliveryOk(ds[i]) && ds[i].joined
  }

  /** The first `k` deliveries ended without a panic. */
  ghost predicate DoneUpTo(ds: seq<Delivery>, k: nat)
    requires k <= |ds|
  {
    forall i :: 0 <= i < k ==> ds[i].stage.Done?
  }

  lemma {:induction false} FinishedJoined(c: Config, ds: seq<Delivery>)
    requires Finished(c, ds)
    ensures forall i :: 0 <= i < |ds| ==> ds[i].joined
    ensures Tally(ds, Pending) == 0
  {
    forall i | 0 <= i < |ds|
      ensures ds[i].joined
    {
      assert FinishedAt(c, ds, i);
    }
    NonePending(ds);
  }

  /** Between two deliveries; `at` is the next timer slot. */
  ghost predicate Idle(c: Config, s: State, ds: seq<Delivery>, k: nat, at: nat) {
    && k <= |ds| && s.phase.Running? && s.deliveries == ds[..k] && s.activeKeys == {} && !s.taskError
    && s.index == k && s.next == OrderAt(k) && s.slot == at && s.now <= at
    && s.log == SerialLog(ds[..k])
  }

  /** Where a delivery is when its last answer is in; a panic is still to come. */
  function Settled(d: Delivery): Stage {
    if d.stage.Crashed? then Ready else d.stage
  }

  /** Delivery `d` after its first `r` answers. */
  function Partial(d: Delivery, r: nat): Delivery
    requires r <= |d.results|
  {
    d.(results := d.results[..r], stage := if r == |d.results| then Settled(d) else Ready, joined := false)
  }

  /** In the middle of delivery `k`, all within the slot `at`. */
  ghost predicate Midway(c: Config, s: State, ds: seq<Delivery>, k: nat, at: nat, d: Delivery, log: seq<LogEntry>) {
    && k < |ds| && s.phase.Running? && s.deliveries == ds[..k] + [d] && !s.taskError
    && s.activeKeys == {ds[k].order.category}
    && s.index == k + 1 && s.next == OrderAt(k + 1) && s.slot == at + c.period && s.now == at
    && s.log == SerialLog(ds[..k]) + log
  }

  /** ... with `r` answers received and no attempt under way. */
  ghost predicate Busy(c: Config, s: State, ds: seq<Delivery>, k: nat, at: nat, r: nat) {
    && k < |ds| && r <= |ds[k].results|
    && Midway(c, s, ds, k, at, Partial(ds[k], r), AttemptLog(k, ds[k].record, ds[k].results[..r]))
  }

  lemma {:induction false} NonePending(ds: seq<Delivery>)
    requires forall i :: 0 <= i < |ds| ==> ds[i].joined
    ensures Tally(ds, Pending) == 0
  {
    if ds != [] {
      NonePending(ds[..|ds| - 1]);
    }
  }

  lemma TickAdmits(c: Config, s: State, d: Delivery)
    requires c.period > 0 && s.slot == s.now && Genuine(c, s.index, d) && s.next == OrderAt(s.index)
    requires DeliveryOk(d) && !d.Live()
    ensures var t := Admit(c, s, d.trace);
            && t.deliveries == s.deliveries + [Partial(d, 0)]
            && t.slot == s.now + c.period && t.activeKeys == s.activeKeys + {d.order.category}
  {
  }

  lemma IdleHasNonePending(c: Config, s: State, ds: seq<Delivery>, k: nat, at: nat)
    requires Finished(c, ds) && Idle(c, s, ds, k, at)
    ensures PendingCount(s) == 0
  {
    FinishedJoined(c, ds);
    NonePending(s.deliveries);
  }

  lemma TickStep(c: Config, s: State, ds: seq<Delivery>, k: nat, at: nat)
    requires ConfigOk(c) && PendingCount(s) == 0 && Idle(c, s, ds, k, at) && k < |ds| && FinishedAt(c, ds, k)
    ensures var e := Event(at, Tick(ds[k].trace));
            Enabled(c, s, e) && Busy(c, Apply(c, s, e), ds, k, at, 0)
  {
    TickAdmits(c, s.(now := at), ds[k]);
    BusyStart(c, s.(now := at), ds, k, at, Admit(c, s.(now := at), ds[k].trace));
  }

  lemma BusyStart(c: Config, s: State, ds: seq<Delivery>, k: nat, at: nat, t: State)
    requires Idle(c, s, ds, k, at) && k < |ds|
    requires t.deliveries == s.deliveries + [Partial(ds[k], 0)] && t.phase == s.phase && t.taskError == s.taskError
    requires t.activeKeys == s.activeKeys + {ds[k].order.category} && t.index == s.index + 1 && t.next == OrderAt(t.index)
    requires t.slot == at + c.period && t.now == at && t.log == s.log
    ensures Busy(c, t, ds, k, at, 0)
  {
    assert ds[k].results[..0] == [];
    assert t.log == SerialLog(ds[..k]) + [];
  }

  /** Delivery `k` moves on to `e`, the rest stays. */
  lemma MidMoves(c: Config, s: State, ds: seq<Delivery>, k: nat, at: nat, d: Delivery, log: seq<LogEntry>,
                 e: Delivery, more: seq<LogEntry>, t: State)
    requires Midway(c, s, ds, k, at, d, log)
    requires t.deliveries == s.deliveries[k := e] && t.log == s.log + more
    requires t.phase == s.phase && t.taskError == s.taskError && t.activeKeys == s.activeKeys
    requires t.index == s.index && t.next == s.next && t.slot == s.slot && t.now == s.now
    ensures Midway(c, t, ds, k, at, e, log + more)
  {
    assert t.deliveries == ds[..k] + [e];
    Associative(SerialLog(ds[..k]), log, more);
  }

  lemma MidSend(c: Config, s: State, ds: seq<Delivery>, k: nat, at: nat, d: Delivery, log: seq<LogEntry>)
    requires ConfigOk(c) && Midway(c, s, ds, k, at, d, log) && d.stage == Ready && !d.joined
    ensures var e := Event(at, Attempt(k));
            && Enabled(c, s, e)
            && Midway(c, Apply(c, s, e), ds, k, at, d.(stage := Waiting), log + [Sent(k, |d.results| + 1, d.record)])
  {
    MidMoves(c, s, ds, k, at, d, log, d.(stage := Waiting), [Sent(k, |d.results| + 1, d.record)], Send(s.(now := at), k));
  }

  lemma ReceiveFields(s: State, k: nat, d: Delivery, ok: bool, t: State)
    requires k < |s.deliveries| && s.deliveries[k] == d && t == Receive(s, k, ok)
    ensures t.deliveries == s.deliveries[k := d.Answer(ok)] && t.log == s.log + [Answered(k, |d.results| + 1, ok)]
    ensures t.phase == s.phase && t.taskError == s.taskError && t.activeKeys == s.activeKeys
    ensures t.index == s.index && t.next == s.next && t.slot == s.slot && t.now == s.now
  {
  }

  lemma MidAnswer(c: Config, s: State, ds: seq<Delivery>, k: nat, at: nat, d: Delivery, log: seq<LogEntry>, ok: bool)
    requires ConfigOk(c) && Midway(c, s, ds, k, at, d, log) && d.stage == Waiting && !d.joined
    ensures var e := Event(at, Answer(k, ok));
            && Enabled(c, s, e)
            && Midway(c, Apply(c, s, e), ds, k, at, d.Answer(ok), log + [Answered(k, |d.results| + 1, ok)])
  {
    var t := Receive(s.(now := at), k, ok);
    ReceiveFields(s, k, d, ok, t);
    MidMoves(c, s, ds, k, at, d, log, d.Answer(ok), [Answered(k, |d.results| + 1, ok)], t);
  }

  lemma MidCrash(c: Config, s: State, ds: seq<Delivery>, k: nat, at: nat, d: Delivery, log: seq<LogEntry>)
    requires ConfigOk(c) && Midway(c, s, ds, k, at, d, log) && d.Live() && !d.joined
    ensures var e := Event(at, Panic(k));
            && Enabled(c, s, e)
            && Midway(c, Apply(c, s, e), ds, k, at, d.(stage := Crashed(d.stage.Waiting?)), log)
  {
    MidMoves(c, s, ds, k, at, d, log, d.(stage := Crashed(d.stage.Waiting?)), [], Crash(s.(now := at), k));
    assert log + [] == log;
  }

  lemma AnswerAdvances(d: Delivery, r: nat)
    requires DeliveryOk(d) && !d.Live() && r < |d.results|
    ensures Partial(d, r).stage == Ready
    ensures Partial(d, r).(stage := Waiting).Answer(d.results[r]) == Partial(d, r + 1)
  {
    assert d.results[..r] + [d.results[r]] == d.results[..r + 1];
    if r + 1 < |d.results| {
      assert !d.results[..|d.results| - 1][r];
    } else {
      assert d.results[..r + 1] == d.results;
    }
  }

  lemma {:induction false} AttemptLogStep(i: nat, record: ProducerRecord, results: seq<bool>, r: nat)
    requires r < |results|
    ensures AttemptLog(i, record, results[..r + 1])
         == AttemptLog(i, record, results[..r]) + [Sent(i, r + 1, record)] + [Answered(i, r + 1, results[r])]
  {
    assert results[..r + 1][..r] == results[..r];
  }

  lemma AttemptAndAnswer(c: Config, s: State, ds: seq<Delivery>, k: nat, at: nat, r: nat) returns (t: State)
    requires ConfigOk(c) && Busy(c, s, ds, k, at, r) && r < |ds[k].results| && DeliveryOk(ds[k]) && !ds[k].Live()
    ensures Leads(c, s, [Event(at, Attempt(k)), Event(at, Answer(k, ds[k].results[r]))], t)
    ensures Busy(c, t, ds, k, at, r + 1)
  {
    var d := ds[k];
    var e, f := Event(at, Attempt(k)), Event(at, Answer(k, d.results[r]));
    AnswerAdvances(d, r);
    AttemptLogStep(k, d.record, d.results, r);
    var log := AttemptLog(k, d.record, d.results[..r]);
    MidSend(c, s, ds, k, at, Partial(d, r), log);
    var u := Apply(c, s, e);
    MidAnswer(c, u, ds, k, at, Partial(d, r).(stage := Waiting), log + [Sent(k, r + 1, d.record)], d.results[r]);
    Pair(Next(c), s, e, f);
    t := Apply(c, u, f);
  }

  lemma {:induction false} AttemptRun(c: Config, s: State, ds: seq<Delivery>, k: nat, at: nat, r: nat) returns (t: State)
    requires ConfigOk(c) && Busy(c, s, ds, k, at, 0) && r <= |ds[k].results| && DeliveryOk(ds[k]) && !ds[k].Live()
    ensures Leads(c, s, AttemptEvents(k, at, ds[k].results[..r]), t) && Busy(c, t, ds, k, at, r)
  {
    if r == 0 {
      t := s;
    } else {
      var u := AttemptRun(c, s, ds, k, at, r - 1);
      t := AttemptAndAnswer(c, u, ds, k, at, r - 1);
      var last := [Event(at, Attempt(k)), Event(at, Answer(k, ds[k].results[r - 1]))];
      LeadsConcat(c, s, AttemptEvents(k, at, ds[k].results[..r - 1]), u, last, t);
      assert ds[k].results[..r][..r - 1] == ds[k].results[..r - 1];
    }
  }

  /** Admission and all answers of delivery `k`. */
  lemma SettledRun(c: Config, s: State, ds: seq<Delivery>, k: nat, at: nat) returns (t: State)
    requires ConfigOk(c) && Finished(c, ds) && Idle(c, s, ds, k, at) && k < |ds|
    ensures Leads(c, s, [Event(at, Tick(ds[k].trace))] + AttemptEvents(k, at, ds[k].results), t)
    ensures Midway(c, t, ds, k, at, ds[k].(stage := Settled(ds[k]), joined := false), AttemptLog(k, ds[k].record, ds[k].results))
  {
    var d := ds[k];
    var tick := Event(at, Tick(d.trace));
    assert FinishedAt(c, ds, k);
    IdleHasNonePending(c, s, ds, k, at);
    TickStep(c, s, ds, k, at);
    LeadsStep(c, s, [], s, tick);
    assert [] + [tick] == [tick];
    assert d.results[..|d.results|] == d.results;
    t := AttemptRun(c, Apply(c, s, tick), ds, k, at, |d.results|);
    LeadsConcat(c, s, [tick], Apply(c, s, tick), AttemptEvents(k, at, d.results), t);
  }

  lemma {:induction false} JoinIdle(c: Config, s: State, ds: seq<Delivery>, k: nat, at: nat)
    requires ConfigOk(c) && k < |ds| && ds[k].joined && ds[k].stage.Done?
    requires Midway(c, s, ds, k, at, ds[k].(joined := false), AttemptLog(k, ds[k].record, ds[k].results))
    ensures var e := Event(at, Join(k)); Enabled(c, s, e) && Idle(c, Apply(c, s, e), ds, k + 1, at + c.period)
  {
    JoinCompletes(ds, k, s.deliveries, s.log, AttemptLog(k, ds[k].record, ds[k].results));
  }

  lemma JoinCompletes(ds: seq<Delivery>, k: nat, us: seq<Delivery>, log: seq<LogEntry>, own: seq<LogEntry>)
    requires k < |ds| && ds[k].joined && us == ds[..k] + [ds[k].(joined := false)]
    requires log == SerialLog(ds[..k]) + own && own == DeliveryLog(k, ds[k])
    ensures us[k := us[k].(joined := true)] == ds[..k + 1] && log == SerialLog(ds[..k + 1])
  {
    var d := ds[k];
    assert d.(joined := false).(joined := true) == d;
    assert us[k := d] == ds[..k] + [d] == ds[..k + 1];
    assert ds[..k + 1][..k] == ds[..k];
  }

  // ----- the whole run -----

  lemma OneDeliveryRun(c: Config, s: State, ds: seq<Delivery>, k: nat, at: nat) returns (t: State)
    requires ConfigOk(c) && Finished(c, ds) && Idle(c, s, ds, k, at) && k < |ds| && ds[k].stage.Done?
    ensures Leads(c, s, OneDelivery(k, at, ds[k]), t) && Idle(c, t, ds, k + 1, at + c.period)
  {
    var es := [Event(at, Tick(ds[k].trace))] + AttemptEvents(k, at, ds[k].results);
    var u := SettledRun(c, s, ds, k, at);
    assert FinishedAt(c, ds, k);
    assert ds[k].(stage := Settled(ds[k]), joined := false) == ds[k].(joined := false);
    JoinIdle(c, u, ds, k, at);
    LeadsStep(c, s, es, u, Event(at, Join(k)));
    assert es + [] == es;
    t := Apply(c, u, Event(at, Join(k)));
  }

  /** What the end of a one-at-a-time run looks like before it returns. */
  ghost predicate Over(c: Config, s: State, ds: seq<Delivery>, at: nat) {
    s.phase.Draining? && s.deliveries == ds && s.log == SerialLog(ds) && s.now <= at && ConfigOk(c)
  }

  lemma CrashRun(c: Config, s: State, ds: seq<Delivery>, k: nat, at: nat, d: Delivery, log: seq<LogEntry>, sent: bool)
    returns (t: State)
    requires ConfigOk(c) && Midway(c, s, ds, k, at, d, log) && d.stage == Ready && !d.joined
    ensures Leads(c, s, CrashEvents(k, at, sent), t)
    ensures Midway(c, t, ds, k, at, d.(stage := Crashed(sent)),
                   log + (if sent then [Sent(k, |d.results| + 1, d.record)] else []))
  {
    var e, f := Event(at, Attempt(k)), Event(at, Panic(k));
    if sent {
      MidSend(c, s, ds, k, at, d, log);
      var u := Apply(c, s, e);
      MidCrash(c, u, ds, k, at, d.(stage := Waiting), log + [Sent(k, |d.results| + 1, d.record)]);
      Pair(Next(c), s, e, f);
      assert [e] + [f] == [e, f];
      t := Apply(c, u, f);
    } else {
      MidCrash(c, s, ds, k, at, d, log);
      LeadsStep(c, s, [], s, f);
      assert [] + [f] == [f];
      assert log + [] == log;
      t := Apply(c, s, f);
    }
  }

  lemma JoinOver(c: Config, s: State, ds: seq<Delivery>, k: nat, at: nat)
    requires ConfigOk(c) && k == |ds| - 1 && ds[k].joined && ds[k].stage.Crashed?
    requires Midway(c, s, ds, k, at, ds[k].(joined := false), DeliveryLog(k, ds[k]))
    ensures var e := Event(at, Join(k)); Enabled(c, s, e) && Over(c, Apply(c, s, e), ds, at)
  {
    JoinCompletes(ds, k, s.deliveries, s.log, DeliveryLog(k, ds[k]));
    assert ds[..k + 1] == ds;
  }

  /** From the last answer to the join of a delivery that panics. */
  lemma CrashTail(c: Config, s: State, ds: seq<Delivery>, k: nat, at: nat, d: Delivery, sent: bool) returns (t: State)
    requires ConfigOk(c) && k == |ds| - 1 && ds[k] == d && d.joined && d.stage == Crashed(sent)
    requires Midway(c, s, ds, k, at, d.(stage := Ready, joined := false), AttemptLog(k, d.record, d.results))
    ensures Leads(c, s, CrashEvents(k, at, sent) + [Event(at, Join(k))], t) && Over(c, t, ds, at)
  {
    var live := d.(stage := Ready, joined := false);
    var u := CrashRun(c, s, ds, k, at, live, AttemptLog(k, d.record, d.results), sent);
    assert live.(stage := Crashed(sent)) == d.(joined := false);
    JoinOver(c, u, ds, k, at);
    LeadsStep(c, s, CrashEvents(k, at, sent), u, Event(at, Join(k)));
    t := Apply(c, u, Event(at, Join(k)));
  }

  lemma CrashDeliveryRun(c: Config, s: State, ds: seq<Delivery>, k: nat, at: nat) returns (t: State)
    requires ConfigOk(c) && Finished(c, ds) && Idle(c, s, ds, k, at) && k == |ds| - 1 && ds[k].stage.Crashed?
    ensures Leads(c, s, OneDelivery(k, at, ds[k]), t) && Over(c, t, ds, at)
  {
    var d := ds[k];
    var es := [Event(at, Tick(d.trace))] + AttemptEvents(k, at, d.results);
    var more := CrashEvents(k, at, d.stage.sent);
    var u := SettledRun(c, s, ds, k, at);
    assert FinishedAt(c, ds, k);
    t := CrashTail(c, u, ds, k, at, d, d.stage.sent);
    LeadsConcat(c, s, es, u, more + [Event(at, Join(k))], t);
    Associative(es, more, [Event(at, Join(k))]);
  }

  lemma StartIdle(c: Config, ds: seq<Delivery>)
    requires ConfigOk(c)
    ensures Leads(c, Init(), OneAtATime(c.period, ds[..0]), Init()) && Idle(c, Init(), ds, 0, 0)
  {
    assert ds[..0] == [];
  }

  lemma {:induction false} OneAtATimeRun(c: Config, ds: seq<Delivery>, k: nat) returns (s: State)
    requires ConfigOk(c) && Finished(c, ds) && k <= |ds| && DoneUpTo(ds, k)
    ensures Leads(c, Init(), OneAtATime(c.period, ds[..k]), s) && Idle(c, s, ds, k, SlotTime(k, c.period))
  {
    if k == 0 {
      StartIdle(c, ds);
      s := Init();
    } else {
      var slot := SlotTime(k - 1, c.period);
      var t := OneAtATimeRun(c, ds, k - 1);
      s := OneDeliveryRun(c, t, ds, k - 1, slot);
      LeadsConcat(c, Init(), OneAtATime(c.period, ds[..k - 1]), t, OneDelivery(k - 1, slot, ds[k - 1]), s);
      assert ds[..k][..k - 1] == ds[..k - 1];
    }
  }

  ghost predicate Returns(c: Config, es: seq<Event>, ds: seq<Delivery>) {
    && ValidRun(c, es) && Final(c, es).phase.Returned? && Final(c, es).deliveries == ds
  }

  lemma ShutdownEnds(c: Config, s: State, ds: seq<Delivery>, at: nat) returns (t: State)
    requires ConfigOk(c) && Finished(c, ds) && Idle(c, s, ds, |ds|, at)
    ensures Leads(c, s, [Event(at, Shutdown), Event(at, Return)], t)
    ensures t.phase.Returned? && t.deliveries == ds && t.log == SerialLog(ds)
  {
    assert ds[..|ds|] == ds;
    FinishedJoined(c, ds);
    var e, f := Event(at, Shutdown), Event(at, Return);
    Pair(Next(c), s, e, f);
    t := Apply(c, Apply(c, s, e), f);
  }

  lemma PanicEnds(c: Config, s: State, ds: seq<Delivery>, at: nat) returns (t: State)
    requires Finished(c, ds) && Over(c, s, ds, at)
    ensures Leads(c, s, [Event(at, Return)], t)
    ensures t.phase.Returned? && t.deliveries == ds && t.log == SerialLog(ds)
  {
    FinishedJoined(c, ds);
    var e := Event(at, Return);
    LeadsStep(c, s, [], s, e);
    assert [] + [e] == [e];
    t := Apply(c, s, e);
  }

  /** A run that ends with these deliveries, sent end to end. */
  ghost predicate ReturnsSerially(c: Config, es: seq<Event>, ds: seq<Delivery>) {
    Returns(c, es, ds) && Final(c, es).log == SerialLog(ds)
  }

  lemma {:induction false} SerialShutdown(c: Config, ds: seq<Delivery>, at: nat)
    requires ConfigOk(c) && Finished(c, ds) && at == SlotTime(|ds|, c.period) && DoneUpTo(ds, |ds|)
    ensures ReturnsSerially(c, OneAtATime(c.period, ds) + [Event(at, Shutdown), Event(at, Return)], ds)
  {
    assert ds[..|ds|] == ds;
    var s := OneAtATimeRun(c, ds, |ds|);
    var t := ShutdownEnds(c, s, ds, at);
    LeadsConcat(c, Init(), OneAtATime(c.period, ds), s, [Event(at, Shutdown), Event(at, Return)], t);
  }

  /** The schedule up to and including the panic of the last delivery. */
  lemma UpToThePanic(c: Config, ds: seq<Delivery>, k: nat, slot: nat) returns (s: State)
    requires ConfigOk(c) && Finished(c, ds) && k == |ds| - 1 && slot == SlotTime(k, c.period) && DoneUpTo(ds, k)
    requires ds[k].stage.Crashed?
    ensures Leads(c, Init(), OneAtATime(c.period, ds), s) && Over(c, s, ds, slot)
  {
    var u := OneAtATimeRun(c, ds, k);
    s := CrashDeliveryRun(c, u, ds, k, slot);
    LeadsConcat(c, Init(), OneAtATime(c.period, ds[..k]), u, OneDelivery(k, slot, ds[k]), s);
  }

  lemma {:induction false} SerialPanic(c: Config, ds: seq<Delivery>, k: nat, slot: nat, at: nat)
    requires ConfigOk(c) && Finished(c, ds) && k == |ds| - 1 && slot == SlotTime(k, c.period) <= at && DoneUpTo(ds, k)
    requires ds[k].stage.Crashed?
    ensures ReturnsSerially(c, OneAtATime(c.period, ds) + [Event(at, Return)], ds)
  {
    var s := UpToThePanic(c, ds, k, slot);
    var t := PanicEnds(c, s, ds, at);
    LeadsConcat(c, Init(), OneAtATime(c.period, ds), s, [Event(at, Return)], t);
  }

  lemma DoneBeforeLast(c: Config, ds: seq<Delivery>, k: nat)
    requires Finished(c, ds) && NoEarlyCrash(ds) && k <= |ds| && (k < |ds| || k == 0 || !ds[k - 1].stage.Crashed?)
    ensures DoneUpTo(ds, k)
  {
    forall i | 0 <= i < k
      ensures ds[i].stage.Done?
    {
      assert FinishedAt(c, ds, i);
    }
  }

  /** The one-at-a-time schedule is a run, at any limit, unless an early delivery panicked. */
  lemma SerialRunReturns(c: Config, ds: seq<Delivery>)
    requires ConfigOk(c) && Finished(c, ds) && NoEarlyCrash(ds)
    ensures ReturnsSerially(c, SerialEvents(c.period, ds), ds)
  {
    var n := |ds|;
    if n > 0 && ds[n - 1].stage.Crashed? {
      DoneBeforeLast(c, ds, n - 1);
      SerialPanic(c, ds, n - 1, SlotTime(n - 1, c.period), SlotTime(n, c.period));
    } else {
      DoneBeforeLast(c, ds, n);
      SerialShutdown(c, ds, SlotTime(n, c.period));
    }
  }

  // ----- equivalence -----

  /** Two runs that sent, answered and counted the same, key by key. */
  ghost predicate SameByKey(s: State, t: State) {
    && CallResult(t) == CallResult(s) && t.report == s.report
    && t.sendErrors == s.sendErrors && t.produced == s.produced
    && forall key :: ByKey(t.log, key) == ByKey(s.log, key)
  }

  /** The counters of a state and its log by key are determined by its deliveries. */
  lemma SameDeliveries(s: State, t: State)
    requires Accounts(s) && Labels(s) && Logs(s) && Accounts(t) && Labels(t) && Logs(t)
    requires s.deliveries == t.deliveries
    ensures SameByKey(s, t)
  {
    SameBooks(s, t);
    forall key
      ensures ByKey(t.log, key) == ByKey(s.log, key)
    {
      assert ByKey(t.log, key) == KeyLog(t.deliveries, key);
      assert ByKey(s.log, key) == KeyLog(s.deliveries, key);
    }
  }

  lemma SameBooks(s: State, t: State)
    requires Accounts(s) && Labels(s) && Accounts(t) && Labels(t) && s.deliveries == t.deliveries
    ensures s.report == t.report && s.sendErrors == t.sendErrors && s.produced == t.produced && s.taskError == t.taskError
  {
    assert s.produced.Keys == t.produced.Keys;
    forall tag | tag in s.produced
      ensures s.produced[tag] == t.produced[tag]
    {
      assert Get(s.produced, tag) == Get(t.produced, tag);
    }
  }

  lemma FinishedAnyLimit(c: Config, d: Config, s: State)
    requires Shape(c, s) && s.phase.Returned? && c.topic == d.topic
    ensures Finished(d, s.deliveries)
  {
    forall i | 0 <= i < |s.deliveries|
      ensures FinishedAt(d, s.deliveries, i)
    {
      assert Genuine(c, i, s.deliveries[i]);
    }
  }

  lemma AnyLimitOneRun(c: Config, es: seq<Event>, one: Config, fs: seq<Event>)
    requires ValidRun(c, es) && one.maxInFlight == 1 && Returns(one, fs, Final(c, es).deliveries)
    ensures SameByKey(Final(c, es), Final(one, fs)) && Final(one, fs).log == SerialLog(Final(c, es).deliveries)
    ensures NoEarlyCrash(Final(c, es).deliveries)
  {
    Reachable(c, es);
    Reachable(one, fs);
    SameDeliveries(Final(c, es), Final(one, fs));
    LimitOne(one, fs);
  }

  /**
   * Serial equivalence. Take any run, at any limit and in any interleaving, that
   * returned. Its deliveries are those of a returned run of limit one exactly if
   * no delivery before the last panicked. Every such run, whatever its timing,
   * sends them one at a time, ends with the same result, report and counters, and
   * has for every key the same sequence of attempts and answers.
   */
  lemma SerialEquivalence(c: Config, es: seq<Event>)
    requires ValidRun(c, es) && Final(c, es).phase.Returned?
    ensures var s := Final(c, es);
            var one := c.(maxInFlight := 1);
            && (NoEarlyCrash(s.deliveries) <==> exists fs :: Returns(one, fs, s.deliveries))
            && (NoEarlyCrash(s.deliveries) ==> Returns(one, SerialEvents(c.period, s.deliveries), s.deliveries))
            && (CallResult(s).Success? ==> NoEarlyCrash(s.deliveries))
            && forall fs :: Returns(one, fs, s.deliveries) ==>
                 SameByKey(s, Final(one, fs)) && Final(one, fs).log == SerialLog(s.deliveries)
  {
    var s := Final(c, es);
    var one := c.(maxInFlight := 1);
    Reachable(c, es);
    ResultState(c, s);
    FinishedAnyLimit(c, one, s);
    if NoEarlyCrash(s.deliveries) {
      SerialRunReturns(one, s.deliveries);
    }
    forall fs | Returns(one, fs, s.deliveries)
      ensures SameByKey(s, Final(one, fs)) && Final(one, fs).log == SerialLog(s.deliveries) && NoEarlyCrash(s.deliveries)
    {
      AnyLimitOneRun(c, es, one, fs);
    }
  }
}
