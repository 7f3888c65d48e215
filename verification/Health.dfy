// docker/moby daemon/health.go and container/health.go: the health of a container, the stop channels of its
// monitors, and the monitors themselves. The events of a container and its starts are handled one after the other,
// most of them under the container lock, OOM events and the restoring of a running container without it. But
// containerStop stops the healthchecks at any time and without the lock, so that an operation on the stop channel is
// several steps: a test of the field, a close, an assignment.

module Health {
  import opened Wrappers

  datatype Status = Starting | Healthy | Unhealthy

  datatype Result = Result(start: int, end: int, exitCode: int, output: string)

  // A container without a healthcheck is one whose test is empty.
  datatype Config = Config(test: seq<string>, retries: int, startPeriod: int)

  const MAX_LOG_ENTRIES := 5
  const DEFAULT_RETRIES := 3

  function Retries(config: Config): (r: int)
    ensures r > 0
  {
    if config.retries <= 0 then DEFAULT_RETRIES else config.retries
  }

  // The probe of a container: none, or whether it runs in a shell.
  function GetProbe(config: Config): Option<bool> {
    if config.test == [] then None
    else if config.test[0] == "CMD" then Some(false)
    else if config.test[0] == "CMD-SHELL" then Some(true)
    else None
  }

  // ---------------------------------------------------------------------------------------------
  // Probe results

  datatype Health = Health(status: Status, streak: int, log: seq<Result>)

  function LastOf<T>(n: nat, s: seq<T>): seq<T> {
    if |s| <= n then s else s[|s| - n..]
  }

  function Handle(config: Config, startedAt: int, h: Health, result: Result): Health {
    var logged := h.(log := LastOf(MAX_LOG_ENTRIES, h.log + [result]));
    if result.exitCode == 0 then
      logged.(streak := 0, status := Healthy)
    else if h.status == Starting && result.start - startedAt < config.startPeriod then
      logged
    else
      logged.(streak := h.streak + 1, status := if h.streak + 1 >= Retries(config) then Unhealthy else h.status)
  }

  // ---------------------------------------------------------------------------------------------
  // The container and its stop channels, which are numbered in the order they are made

  datatype Container = Container(
    running: bool,
    paused: bool,
    startedAt: int,
    health: Option<Health>,
    stop: Option<nat>,
    closed: seq<bool>,
    crashed: bool)

  predicate IsOpen(c: Container, ch: nat) {
    ch < |c.closed| && !c.closed[ch]
  }

  predicate StoredIsOpen(c: Container) {
    c.stop.Some? && IsOpen(c, c.stop.value)
  }

  // Making a channel and storing it.
  function Open(c: Container): Container {
    c.(stop := Some(|c.closed|), closed := c.closed + [false])
  }

  // Closing what is stored; a channel that is nil or closed crashes the daemon.
  function Close(c: Container): Container {
    if StoredIsOpen(c) then c.(closed := c.closed[c.stop.value := true]) else c.(crashed := true)
  }

  function Restarted(c: Container): Container {
    c.(health := Some(Health(Starting, 0, if c.health.Some? then c.health.value.log else [])))
  }

  predicate WantRunning(config: Config, c: Container) {
    c.running && !c.paused && GetProbe(config).Some?
  }

  // ---------------------------------------------------------------------------------------------
  // Whole operations, if nothing comes in between

  function OpenMonitorChannel(c: Container): Container {
    if c.stop.None? then Open(c) else c
  }

  function CloseMonitorChannel(c: Container): Container {
    if c.stop.None? then c
    else if Close(c).crashed then Close(c)
    else Close(c).(stop := None)
  }

  function UpdateHealthMonitor(config: Config, c: Container): Container {
    if c.health.None? then c
    else if WantRunning(config, c) then OpenMonitorChannel(c)
    else CloseMonitorChannel(c)
  }

  function StopHealthchecks(c: Container): Container {
    if c.health.None? then c else CloseMonitorChannel(c)
  }

  function InitHealthMonitor(config: Config, c: Container): Container {
    if GetProbe(config).None? then c
    else
      var stopped := StopHealthchecks(c);
      if stopped.crashed then stopped else UpdateHealthMonitor(config, Restarted(stopped))
  }

  predicate Discards(c: Container, done: nat) {
    c.health.None? || (done < |c.closed| && c.closed[done])
  }

  function HandleProbeResult(config: Config, c: Container, result: Result, done: nat): Container {
    if Discards(c, done) then c
    else c.(health := Some(Handle(config, c.startedAt, c.health.value, result)))
  }

  // ---------------------------------------------------------------------------------------------
  // The same operations step by step

  // What a call has still to do: test the field and perhaps close, close, clear it, reset the status, decide,
  // test the field and perhaps make, make, and start a monitor with what the field holds then.
  datatype Todo = TestClose | CloseStored | Clear | Reset | Decide | TestOpen | Make | Start

  function StopCall(): seq<Todo> {
    [TestClose]
  }

  function UpdateCall(): seq<Todo> {
    [Decide]
  }

  function InitCall(config: Config): seq<Todo> {
    if GetProbe(config).None? then [] else [TestClose, Reset, Decide]
  }

  function DoTodo(c: Container, todo: Todo): Container {
    match todo
    case CloseStored => Close(c)
    case Clear => c.(stop := None)
    case Reset => Restarted(c)
    case Make => Open(c)
    case _ => c
  }

  // What it goes on with.
  function Then(config: Config, c: Container, todo: Todo): seq<Todo> {
    match todo
    case TestClose => if c.health.Some? && c.stop.Some? then [CloseStored, Clear] else []
    case Decide => if c.health.None? then [] else if WantRunning(config, c) then [TestOpen] else [TestClose]
    case TestOpen => if c.stop.None? then [Make] else []
    case Make => [Start]
    case _ => []
  }

  // ---------------------------------------------------------------------------------------------
  // The monitors

  // Reporting: waiting for the container lock with a result. Writing: holding it, past the test of the channel.
  datatype Phase =
    | Idle
    | Probing(start: int)
    | Reporting(result: Result, expired: bool)
    | Writing(result: Result, expired: bool)
    | Draining
    | Gone

  datatype Monitor = Monitor(ch: nat, phase: Phase)

  // A probe result that was applied, by which monitor, and the time from which the start period counted then.
  datatype Applied = Applied(monitor: nat, result: Result, startedAt: int)

  // `event` is what is still to do for the event or the start that is being handled, `locked` whether that holds the
  // container lock; `stops` is the same for every call of containerStop. `history` is everything applied so far,
  // `since` its length at the last initialisation.
  datatype Sys = Sys(
    c: Container,
    event: seq<Todo>,
    locked: bool,
    stops: seq<seq<Todo>>,
    monitors: seq<Monitor>,
    history: seq<Applied>,
    since: nat)

  datatype Step =
    | Assign(running: bool, paused: bool, startedAt: int)
    | Event(call: seq<Todo>, locked: bool)
    | EnterStop
    | Advance
    | AdvanceStop(k: nat)
    | Begin(m: nat, at: int)
    | Receive(m: nat, result: Result)
    | Expire(m: nat, end: int, message: string)
    | Test(m: nat)
    | Write(m: nat)
    | Drain(m: nat)
    | Quit(m: nat)

  const START := Sys(Container(false, false, 0, None, None, [], false), [], false, [], [], [], 0)

  ghost predicate LockFree(s: Sys) {
    (s.event == [] || !s.locked) && forall m :: 0 <= m < |s.monitors| ==> !s.monitors[m].phase.Writing?
  }

  ghost predicate Enabled(config: Config, s: Sys, step: Step) {
    && !s.c.crashed
    && match step
       case Assign(_, _, _) => LockFree(s)
       case Event(call, locked) =>
         && s.event == [] && call in {StopCall(), UpdateCall(), InitCall(config)}
         && if locked then LockFree(s) else call != StopCall()
       case EnterStop => s.c.running && LockFree(s)
       case Advance => s.event != []
       case AdvanceStop(k) => k < |s.stops| && s.stops[k] != []
       case Begin(m, _) => m < |s.monitors| && s.monitors[m].phase.Idle?
       case Receive(m, result) =>
         m < |s.monitors| && s.monitors[m].phase.Probing? && result.start == s.monitors[m].phase.start
       case Expire(m, _, _) => m < |s.monitors| && s.monitors[m].phase.Probing?
       case Test(m) => m < |s.monitors| && s.monitors[m].phase.Reporting? && LockFree(s)
       case Write(m) => m < |s.monitors| && s.monitors[m].phase.Writing?
       case Drain(m) => m < |s.monitors| && s.monitors[m].phase.Draining?
       case Quit(m) =>
         && m < |s.monitors| && (s.monitors[m].phase.Idle? || s.monitors[m].phase.Probing?)
         && s.monitors[m].ch < |s.c.closed| && s.c.closed[s.monitors[m].ch]
  }

  function InPhase(s: Sys, m: nat, phase: Phase): Sys
    requires m < |s.monitors|
  {
    s.(monitors := s.monitors[m := s.monitors[m].(phase := phase)])
  }

  // One thing a call does, apart from what it goes on with.
  function Carry(s: Sys, todo: Todo): Sys {
    s.(c := DoTodo(s.c, todo),
       since := if todo.Reset? then |s.history| else s.since,
       monitors := if todo.Start? && s.c.stop.Some? then s.monitors + [Monitor(s.c.stop.value, Idle)] else s.monitors)
  }

  // What is left of a call after that.
  function After(config: Config, c: Container, p: seq<Todo>): seq<Todo>
    requires p != []
  {
    Then(config, c, p[0]) + p[1..]
  }

  function Written(config: Config, s: Sys, m: nat, result: Result): Sys {
    if s.c.health.None? then s
    else
      s.(c := s.c.(health := Some(Handle(config, s.c.startedAt, s.c.health.value, result))),
         history := s.history + [Applied(m, result, s.c.startedAt)])
  }

  function Next(config: Config, s: Sys, step: Step): Sys
    requires Enabled(config, s, step)
  {
    match step
    case Assign(running, paused, startedAt) =>
      s.(c := s.c.(running := running, paused := paused, startedAt := startedAt))
    case Event(call, locked) => s.(event := call, locked := locked)
    case EnterStop => s.(stops := s.stops + [StopCall()])
    case Advance => Carry(s, s.event[0]).(event := After(config, s.c, s.event))
    case AdvanceStop(k) =>
      Carry(s, s.stops[k][0]).(stops := s.stops[k := After(config, s.c, s.stops[k])])
    case Begin(m, at) => InPhase(s, m, Probing(at))
    case Receive(m, result) => InPhase(s, m, Reporting(result, false))
    case Expire(m, end, message) =>
      InPhase(s, m, Reporting(Result(s.monitors[m].phase.start, end, -1, message), true))
    case Test(m) =>
      var result, expired := s.monitors[m].phase.result, s.monitors[m].phase.expired;
      InPhase(s, m, if !Discards(s.c, s.monitors[m].ch) then Writing(result, expired)
                    else if expired then Draining else Idle)
    case Write(m) =>
      var result, expired := s.monitors[m].phase.result, s.monitors[m].phase.expired;
      Written(config, InPhase(s, m, if expired then Draining else Idle), m, result)
    case Drain(m) => InPhase(s, m, Idle)
    case Quit(m) => InPhase(s, m, Gone)
  }

  ghost predicate Leads(config: Config, s: Sys, steps: seq<Step>, t: Sys)
    decreases |steps|
  {
    if steps == [] then s == t
    else Enabled(config, s, steps[0]) && Leads(config, Next(config, s, steps[0]), steps[1..], t)
  }

  ghost predicate Reachable(config: Config, s: Sys) {
    exists steps :: Leads(config, START, steps, s)
  }
}
