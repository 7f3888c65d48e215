// containerd/supervisor: the event loop with addProcess, exit, execExit and delete, the goroutines they
// start, and the exec sync channels between them, as a transition system on top of the event bus.

module ExecSync {
  import opened Wrappers
  import opened EventBus

  const INIT_PROCESS := "init"

  // An exec process from its sync channel on. Created: in the map, not yet monitored. RolledBack: monitoring
  // failed. Monitored, Starting: the loop is about to notify, or notifying, its start. Running. Waiting: the
  // loop handled its exit, a goroutine waits for its IO. Exiting: the goroutine notifies the exit. Notified:
  // about to close the sync channel. Closed.
  datatype Stage = Created | RolledBack | Monitored | Starting | Running | Waiting | Exiting | Notified | Closed

  // `started` and `exited` are the notifications of its start and exit, `captured` the sync channel that the
  // exit goroutine took from the map.
  datatype Exec = Exec(cid: string, pid: string, reg: nat, ch: nat, stage: Stage,
                       started: Option<nat>, exited: Option<nat>, captured: Option<nat>)

  // The goroutine of delete: it waits for the channels taken from the map, then notifies.
  datatype InitExit = InitExit(cid: string, reg: nat, waits: set<nat>, note: Option<nat>)

  datatype Loop = Free | Adding(x: nat)

  // Who sent a notification.
  datatype Owner = StartOf(x: nat) | ExitOf(x: nat) | InitOf(i: nat) | Other

  datatype Crash = NilMapWrite | CloseOfNil | CloseOfClosed

  datatype Sys = Sys(
    bus: Bus,
    containers: map<string, nat>,             // s.containers: id -> number of its registration
    regs: nat,
    workers: set<(string, nat)>,              // containers still being started by a worker
    sync: map<string, map<string, nat>>,      // s.containerExecSync
    chans: nat,                               // sync channels made
    closed: set<nat>,
    execs: seq<Exec>,
    inits: seq<InitExit>,
    loop: Loop,
    owners: seq<Owner>,
    crash: Option<Crash>)

  function InitSys(retain: nat, stored: seq<Event>): Sys {
    Sys(Init(retain, stored), map[], 0, {}, map[], 0, {}, [], [], Free, [], None)
  }

  datatype Task =
    | Register(cid: string)
    | WorkerMap(cid: string, reg: nat)
    | WorkerFails(cid: string, reg: nat)
    | AddProcess(cid: string, pid: string)
    | MonitorOk
    | MonitorFails
    | StartBegin(time: int)
    | StartEnd
    | Dispatch(x: nat)
    | ExitBegin(x: nat, time: int)
    | ExitEnd(x: nat)
    | CloseSync(x: nat)
    | Delete(cid: string, noEvent: bool)
    | InitBegin(i: nat, time: int)
    | InitEnd(i: nat)
    | OtherBegin(e: Event)
    | OtherEnd(n: nat)
    | OnBus(s: Step)

  // The exec directory exists until the process is removed, so its id cannot be reused before that.
  predicate InUse(y: Sys, reg: nat, pid: string) {
    || pid == INIT_PROCESS
    || exists x :: 0 <= x < |y.execs| && y.execs[x].reg == reg && y.execs[x].pid == pid
                   && y.execs[x].stage in {Created, Monitored, Starting, Running}
  }

  function Lookup(sync: map<string, map<string, nat>>, cid: string, pid: string): Option<nat> {
    if cid in sync && pid in sync[cid] then Some(sync[cid][pid]) else None
  }

  function Channels(sync: map<string, map<string, nat>>, cid: string): set<nat> {
    if cid in sync then sync[cid].Values else {}
  }

  function WithChannel(channels: map<string, nat>, pid: string, ch: nat): map<string, nat> {
    channels[pid := ch]
  }

  predicate IsExec(y: Sys, x: nat, stage: Stage) {
    x < |y.execs| && y.execs[x].stage == stage
  }

  predicate CanTask(y: Sys, t: Task) {
    && y.crash.None?
    && match t
       case Register(cid) => y.loop == Free && cid !in y.containers
       case WorkerMap(cid, reg) => (cid, reg) in y.workers
       case WorkerFails(cid, reg) => (cid, reg) in y.workers
       case AddProcess(cid, pid) => y.loop == Free && cid in y.containers && !InUse(y, y.containers[cid], pid)
       case MonitorOk => y.loop.Adding? && IsExec(y, y.loop.x, Created)
       case MonitorFails => y.loop.Adding? && IsExec(y, y.loop.x, Created)
       case StartBegin(_) => y.loop.Adding? && IsExec(y, y.loop.x, Monitored) && !y.bus.wedged
       case StartEnd => && y.loop.Adding? && IsExec(y, y.loop.x, Starting) && y.execs[y.loop.x].started.Some?
                        && Enabled(y.bus, End(y.execs[y.loop.x].started.value))
       case Dispatch(x) => y.loop == Free && x < |y.execs| && y.execs[x].stage in {Monitored, Starting, Running}
       case ExitBegin(x, _) => IsExec(y, x, Waiting) && !y.bus.wedged
       case ExitEnd(x) => && IsExec(y, x, Exiting) && y.execs[x].exited.Some?
                          && Enabled(y.bus, End(y.execs[x].exited.value))
       case CloseSync(x) => IsExec(y, x, Notified)
       case Delete(cid, _) => y.loop == Free && cid in y.containers
       case InitBegin(i, _) => i < |y.inits| && y.inits[i].note.None? && y.inits[i].waits <= y.closed && !y.bus.wedged
       case InitEnd(i) => i < |y.inits| && y.inits[i].note.Some? && Enabled(y.bus, End(y.inits[i].note.value))
       case OtherBegin(_) => !y.bus.wedged
       case OtherEnd(n) => n < |y.owners| && y.owners[n] == Other && Enabled(y.bus, End(n))
       case OnBus(s) => !s.Begin? && !s.End? && Enabled(y.bus, s)
  }

  function Notify(y: Sys, e: Event, owner: Owner): Sys
    requires !y.bus.wedged
  {
    y.(bus := Next(y.bus, Begin(e)), owners := y.owners + [owner])
  }

  function Finish(y: Sys, n: nat): Sys
    requires Enabled(y.bus, End(n))
  {
    y.(bus := Next(y.bus, End(n)))
  }

  function WithExec(y: Sys, x: nat, e: Exec): Sys
    requires x < |y.execs|
  {
    y.(execs := y.execs[x := e])
  }

  function Do(y: Sys, t: Task): Sys
    requires CanTask(y, t)
  {
    match t
    case Register(cid) =>
      y.(containers := y.containers[cid := y.regs], regs := y.regs + 1, workers := y.workers + {(cid, y.regs)})
    case WorkerMap(cid, reg) =>
      y.(workers := y.workers - {(cid, reg)}, sync := y.sync[cid := map[]])
    case WorkerFails(cid, reg) =>
      y.(workers := y.workers - {(cid, reg)})
    case AddProcess(cid, pid) =>
      if cid !in y.sync then y.(crash := Some(NilMapWrite))
      else y.(sync := y.sync[cid := WithChannel(y.sync[cid], pid, y.chans)],
              chans := y.chans + 1,
              loop := Adding(|y.execs|),
              execs := y.execs + [Exec(cid, pid, y.containers[cid], y.chans, Created, None, None, None)])
    case MonitorOk =>
      WithExec(y, y.loop.x, y.execs[y.loop.x].(stage := Monitored))
    case MonitorFails =>
      var e := y.execs[y.loop.x];
      var sync := if e.cid in y.sync then y.sync[e.cid := y.sync[e.cid] - {e.pid}] else y.sync;
      WithExec(y, y.loop.x, e.(stage := RolledBack)).(sync := sync, loop := Free)
    case StartBegin(time) =>
      var e := y.execs[y.loop.x];
      Notify(WithExec(y, y.loop.x, e.(stage := Starting, started := Some(|y.bus.emitted|))),
             Event(e.cid, StartProcess, e.pid, time), StartOf(y.loop.x))
    case StartEnd =>
      var e := y.execs[y.loop.x];
      Finish(WithExec(y, y.loop.x, e.(stage := Running)).(loop := Free), e.started.value)
    case Dispatch(x) =>
      var e := y.execs[x];
      var captured := Lookup(y.sync, e.cid, e.pid);
      WithExec(y, x, e.(stage := Waiting, captured := captured))
    case ExitBegin(x, time) =>
      var e := y.execs[x];
      Notify(WithExec(y, x, e.(stage := Exiting, exited := Some(|y.bus.emitted|))),
             Event(e.cid, Exit, e.pid, time), ExitOf(x))
    case ExitEnd(x) =>
      var e := y.execs[x];
      Finish(WithExec(y, x, e.(stage := Notified)), e.exited.value)
    case CloseSync(x) =>
      var e := y.execs[x];
      if e.captured.None? then y.(crash := Some(CloseOfNil))
      else if e.captured.value in y.closed then y.(crash := Some(CloseOfClosed))
      else WithExec(y, x, e.(stage := Closed)).(closed := y.closed + {e.captured.value})
    case Delete(cid, noEvent) =>
      var gone := y.(containers := y.containers - {cid});
      if noEvent then gone
      else gone.(sync := y.sync - {cid},
                 inits := y.inits + [InitExit(cid, y.containers[cid], Channels(y.sync, cid), None)])
    case InitBegin(i, time) =>
      Notify(y.(inits := y.inits[i := y.inits[i].(note := Some(|y.bus.emitted|))]),
             Event(y.inits[i].cid, Exit, INIT_PROCESS, time), InitOf(i))
    case InitEnd(i) =>
      Finish(y, y.inits[i].note.value)
    case OtherBegin(e) =>
      Notify(y, e, Other)
    case OtherEnd(n) =>
      Finish(y, n)
    case OnBus(s) =>
      y.(bus := Next(y.bus, s))
  }

  ghost predicate Runs(y: Sys, tasks: seq<Task>, y': Sys)
    decreases |tasks|
  {
    if tasks == [] then y == y'
    else CanTask(y, tasks[0]) && Runs(Do(y, tasks[0]), tasks[1..], y')
  }

  ghost predicate Arises(y: Sys) {
    exists tasks, retain, stored :: Runs(InitSys(retain, stored), tasks, y)
  }

  // ---------------------------------------------------------------------------------------------
  // Invariants

  // Sync channels: each belongs to one exec, and the map holds a channel only under its exec's own ids.
  ghost predicate OwnChannels(execs: seq<Exec>, chans: nat) {
    && (forall x :: 0 <= x < |execs| ==> execs[x].ch < chans)
    && (forall x, z :: 0 <= x < z < |execs| ==> execs[x].ch != execs[z].ch)
  }

  ghost predicate OwnEntries(execs: seq<Exec>, sync: map<string, map<string, nat>>, chans: nat) {
    && (forall c, p :: c in sync && p in sync[c] ==> sync[c][p] < chans)
    && (forall c, p, x :: c in sync && p in sync[c] && 0 <= x < |execs| && execs[x].ch == sync[c][p] ==>
          execs[x].cid == c && execs[x].pid == p && execs[x].stage != RolledBack)
  }

  // A container's exit never waits for an exec that is still being added or was rolled back.
  ghost predicate OwnWaits(execs: seq<Exec>, inits: seq<InitExit>, chans: nat) {
    && (forall i, k :: 0 <= i < |inits| && k in inits[i].waits ==> k < chans)
    && (forall i, x :: 0 <= i < |inits| && 0 <= x < |execs| && execs[x].ch in inits[i].waits ==>
          execs[x].stage !in {Created, Monitored, Starting, RolledBack})
  }

  ghost predicate Owned(y: Sys) {
    OwnChannels(y.execs, y.chans) && OwnEntries(y.execs, y.sync, y.chans) && OwnWaits(y.execs, y.inits, y.chans)
  }

  // The loop works on the exec it is adding, and on no other unfinished one.
  ghost predicate LoopOk(y: Sys) {
    && (y.loop.Adding? ==> y.loop.x < |y.execs| && y.execs[y.loop.x].stage in {Created, Monitored, Starting})
    && (forall x :: 0 <= x < |y.execs| && y.execs[x].stage in {Created, Monitored, Starting} ==> y.loop == Adding(x))
    && (y.loop.Adding? && y.execs[y.loop.x].stage == Created ==>
          var e := y.execs[y.loop.x];
          Lookup(y.sync, e.cid, e.pid).Some? ==> Lookup(y.sync, e.cid, e.pid) == Some(e.ch))
  }

  // What each stage says about the notifications of an exec.
  ghost predicate ExecOk(e: Exec, bus: Bus) {
    && (e.stage in {Created, Monitored, RolledBack} ==> e.started.None? && e.exited.None?)
    && (e.stage in {Starting, Running, Waiting} ==> e.started.Some? && e.exited.None?)
    && (e.stage in {Exiting, Notified, Closed} ==> e.started.Some? && e.exited.Some?)
    && (e.started.Some? ==> e.started.value < |bus.emitted|)
    && (e.stage in {Running, Waiting, Exiting, Notified, Closed} ==> e.started.value in bus.ended)
    && (e.exited.Some? ==> e.started.Some? && e.exited.value < |bus.emitted|
                           && Before(bus.ended, e.started.value, e.exited.value))
    && (e.stage in {Notified, Closed} ==> e.exited.value in bus.ended)
  }

  ghost predicate Execs(y: Sys) {
    forall x :: 0 <= x < |y.execs| ==> ExecOk(y.execs[x], y.bus)
  }

  // Another exec's exit found the channel of exec x in the map.
  ghost predicate Grabbed(execs: seq<Exec>, x: nat)
    requires x < |execs|
  {
    exists z :: 0 <= z < |execs| && z != x && execs[z].captured == Some(execs[x].ch)
  }

  ghost predicate ClosedBy(execs: seq<Exec>, k: nat, z: nat) {
    z < |execs| && execs[z].stage == Closed && execs[z].captured == Some(k)
  }

  // The closed channels are those that exit goroutines took from the map and closed.
  ghost predicate Captures(y: Sys) {
    && (forall k :: k in y.closed ==> exists z :: ClosedBy(y.execs, k, z))
    && (forall z :: 0 <= z < |y.execs| && y.execs[z].stage == Closed ==>
          y.execs[z].captured.Some? && y.execs[z].captured.value in y.closed)
    && (forall z :: 0 <= z < |y.execs| && y.execs[z].captured.Some? ==>
          y.execs[z].stage in {Waiting, Exiting, Notified, Closed} && y.execs[z].captured.value < y.chans)
  }

  ghost predicate ExitedBefore(y: Sys, x: nat, n: nat)
    requires x < |y.execs|
  {
    y.execs[x].exited.Some? && Before(y.bus.ended, y.execs[x].exited.value, n)
  }

  // An init exit was notified only after the exits of all the execs it waited for and whose channels no other
  // exec took.
  ghost predicate InitAfterExecs(y: Sys) {
    forall i, x :: (0 <= i < |y.inits| && y.inits[i].note.Some? && 0 <= x < |y.execs|
                    && y.execs[x].ch in y.inits[i].waits && !Grabbed(y.execs, x)) ==>
      ExitedBefore(y, x, y.inits[i].note.value)
  }

  // Registrations are used once.
  ghost predicate Registered(y: Sys) {
    && (forall c :: c in y.containers ==> y.containers[c] < y.regs)
    && (forall c, d :: c in y.containers && d in y.containers && c != d ==> y.containers[c] != y.containers[d])
    && (forall i :: 0 <= i < |y.inits| ==> y.inits[i].reg < y.regs)
    && (forall i, c :: 0 <= i < |y.inits| && c in y.containers ==> y.inits[i].reg != y.containers[c])
    && (forall i, j :: 0 <= i < j < |y.inits| ==> y.inits[i].reg != y.inits[j].reg)
  }

  // Every notification is the one its sender remembers, with the event the source builds for it.
  ghost predicate NoteOk(y: Sys, n: nat)
    requires n < |y.owners| && n < |y.bus.emitted|
  {
    var e := y.bus.emitted[n];
    match y.owners[n]
    case StartOf(x) => && x < |y.execs| && y.execs[x].started == Some(n)
                       && e.kind == StartProcess && e.id == y.execs[x].cid && e.pid == y.execs[x].pid
    case ExitOf(x) => && x < |y.execs| && y.execs[x].exited == Some(n)
                      && e.kind == Exit && e.id == y.execs[x].cid && e.pid == y.execs[x].pid
    case InitOf(i) => && i < |y.inits| && y.inits[i].note == Some(n)
                      && e.kind == Exit && e.id == y.inits[i].cid && e.pid == INIT_PROCESS
    case Other => true
  }

  ghost predicate Notes(y: Sys) {
    && |y.owners| == |y.bus.emitted|
    && (forall n :: 0 <= n < |y.owners| ==> NoteOk(y, n))
    && (forall i :: 0 <= i < |y.inits| && y.inits[i].note.Some? ==> y.inits[i].note.value < |y.bus.emitted|)
  }

  ghost predicate SysInv(y: Sys) {
    && Inv(y.bus) && Owned(y) && LoopOk(y) && Execs(y) && Captures(y) && InitAfterExecs(y) && Registered(y) && Notes(y)
  }
}
