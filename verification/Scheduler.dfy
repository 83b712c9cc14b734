// The bounded producer scheduler as a step system: one event per branch of the
// select loop, per action of a delivery task, and per step of the drain.
module Scheduler {
  import opened Counters
  import opened Deliveries
  import opened Orders
  import opened Runs
  import opened Ticker
  import opened Wrappers

  const I64_MAX: nat := 0x7fff_ffff_ffff_ffff

  /** Times in nanoseconds; `tolerance` is how late a tick may be before it counts as missed. */
  datatype Config = Config(period: nat, tolerance: nat, maxInFlight: nat, topic: string)

  predicate ConfigOk(c: Config) {
    c.period > 0 && c.maxInFlight > 0
  }

  datatype SendReport = SendReport(acknowledged: nat, failed: nat) {
    function Record(success: bool): SendReport {
      if success then SendReport(acknowledged + 1, failed) else SendReport(acknowledged, failed + 1)
    }
  }

  datatype Phase = Running | Draining | Returned

  /**
   * The locals of the scheduler, the metrics its deliveries touch, and a history:
   * every order ever admitted, what was sent, what was joined, what was ticked.
   */
  datatype State = State(
    phase: Phase,
    now: nat,
    slot: nat,
    index: nat,
    next: Order,
    deliveries: seq<Delivery>,
    activeKeys: set<string>,
    report: SendReport,
    taskError: bool,
    sendErrors: nat,
    produced: map<ProducedLabel, nat>,
    log: seq<LogEntry>,
    joins: seq<nat>,
    admissions: seq<Admission>)

  function Init(): State {
    State(Running, 0, 0, 0, OrderAt(0), [], {}, SendReport(0, 0), false, 0, map[], [], [], [])
  }

  datatype Action =
    | Tick(trace: Trace)
    | Attempt(i: nat)
    | Answer(i: nat, ok: bool)
    | Panic(i: nat)
    | Join(i: nat)
    | Shutdown
    | DrainJoin(i: nat)
    | Return

  datatype Event = Event(at: nat, action: Action)

  function PendingCount(s: State): nat {
    Tally(s.deliveries, Pending)
  }

  /** The guard of the admission branch. */
  predicate Admissible(c: Config, s: State) {
    PendingCount(s) < c.maxInFlight && s.next.category !in s.activeKeys
  }

  /** Delivery tasks run until everything is joined. */
  predicate InStage(s: State, i: nat, stage: Stage) {
    i < |s.deliveries| && !s.deliveries[i].joined && s.deliveries[i].stage == stage && !s.phase.Returned?
  }

  predicate Joinable(s: State, i: nat) {
    i < |s.deliveries| && !s.deliveries[i].joined && !s.deliveries[i].Live()
  }

  predicate Enabled(c: Config, s: State, e: Event) {
    && s.now <= e.at
    && match e.action
       case Tick(_) => s.phase.Running? && s.slot <= e.at && Admissible(c, s)
       case Attempt(i) => InStage(s, i, Ready)
       case Answer(i, _) => InStage(s, i, Waiting)
       case Panic(i) => InStage(s, i, Ready) || InStage(s, i, Waiting)
       case Join(i) => s.phase.Running? && Joinable(s, i)
       case Shutdown => s.phase.Running?
       case DrainJoin(i) => s.phase.Draining? && Joinable(s, i)
       case Return => s.phase.Draining? && PendingCount(s) == 0
  }

  function Apply(c: Config, s: State, e: Event): State
    requires ConfigOk(c) && Enabled(c, s, e)
  {
    var t := s.(now := e.at);
    match e.action
    case Tick(trace) => Admit(c, t, trace)
    case Attempt(i) => Send(t, i)
    case Answer(i, ok) => Receive(t, i, ok)
    case Panic(i) => Crash(t, i)
    case Join(i) => JoinRunning(t, i)
    case Shutdown => t.(phase := Draining)
    case DrainJoin(i) => JoinDraining(t, i)
    case Return => t.(phase := Returned)
  }

  function Stamp(index: nat): nat {
    if index <= I64_MAX then index else I64_MAX
  }

  function Admit(c: Config, s: State, trace: Trace): State
    requires c.period > 0 && s.slot <= s.now
  {
    var order := s.next.(tsMs := Stamp(s.index));
    s.(deliveries := s.deliveries + [NewDelivery(c.topic, trace, order)],
       activeKeys := s.activeKeys + {s.next.category},
       index := s.index + 1,
       next := OrderAt(s.index + 1),
       slot := NextSlot(s.slot, s.now, c.period, c.tolerance),
       admissions := s.admissions + [Admission(s.slot, s.now)])
  }

  function Send(s: State, i: nat): State
    requires i < |s.deliveries|
  {
    var d := s.deliveries[i];
    s.(deliveries := s.deliveries[i := d.(stage := Waiting)],
       log := s.log + [Sent(i, |d.results| + 1, d.record)])
  }

  function Receive(s: State, i: nat, ok: bool): State
    requires i < |s.deliveries|
  {
    var d := s.deliveries[i];
    s.(deliveries := s.deliveries[i := d.Answer(ok)],
       log := s.log + [Answered(i, |d.results| + 1, ok)],
       sendErrors := if ok then s.sendErrors else s.sendErrors + 1,
       produced := if ok then Bump(s.produced, LabelOf(d.order)) else s.produced)
  }

  function Crash(s: State, i: nat): State
    requires i < |s.deliveries|
  {
    var d := s.deliveries[i];
    s.(deliveries := s.deliveries[i := d.(stage := Crashed(d.stage.Waiting?))])
  }

  /** Taking a finished task out of the join set. */
  function Take(s: State, i: nat): State
    requires i < |s.deliveries|
  {
    s.(deliveries := s.deliveries[i := s.deliveries[i].(joined := true)], joins := s.joins + [i])
  }

  /** In the loop a panic ends the loop and leaves its key occupied. */
  function JoinRunning(s: State, i: nat): State
    requires i < |s.deliveries| && !s.deliveries[i].Live()
  {
    var d := s.deliveries[i];
    match d.stage
    case Done(success) =>
      Take(s, i).(activeKeys := s.activeKeys - {d.order.category}, report := s.report.Record(success))
    case Crashed(_) =>
      Take(s, i).(taskError := true, phase := Draining)
  }

  function JoinDraining(s: State, i: nat): State
    requires i < |s.deliveries| && !s.deliveries[i].Live()
  {
    match s.deliveries[i].stage
    case Done(success) => Take(s, i).(report := s.report.Record(success))
    case Crashed(_) => Take(s, i).(taskError := true)
  }

  // ----- runs -----

  ghost function Next(c: Config): (State, Event) -> Option<State>
    requires ConfigOk(c)
  {
    (s: State, e: Event) => if Enabled(c, s, e) then Some(Apply(c, s, e)) else None
  }

  ghost predicate ValidFrom(c: Config, s: State, es: seq<Event>) {
    ConfigOk(c) && Valid(Next(c), s, es)
  }

  ghost function RunFrom(c: Config, s: State, es: seq<Event>): State
    requires ValidFrom(c, s, es)
  {
    Run(Next(c), s, es)
  }

  ghost predicate ValidRun(c: Config, es: seq<Event>) {
    ValidFrom(c, Init(), es)
  }

  ghost function Final(c: Config, es: seq<Event>): State
    requires ValidRun(c, es)
  {
    RunFrom(c, Init(), es)
  }
}
