// The handlers of containerd/supervisor's event loop and the goroutines they start, in their own form: maps
// changed step by step, events sent through the hub. What one of them does while no other notification is
// under way is shown to be a run of the protocol in ExecSync.

module Supervisor {
  import opened Wrappers
  import opened EventBus
  import opened EventHub
  import opened ExecSync
  import opened ExecSyncProofs

  // ---------------------------------------------------------------------------------------------
  // Whole operations as tasks

  // A notification from beginning to end.
  function Broadcast(y: Sys, e: Event, owner: Owner): Sys {
    y.(bus := NotifyAll(y.bus, e), owners := y.owners + [owner])
  }

  datatype AddError = ContainerNotFound | ExecFailed | MonitorFailed

  // What addProcess does for a known container whose runtime made the process.
  function Added(y: Sys, cid: string, pid: string, monitored: bool, time: int): (Sys, Option<AddError>)
    requires CanTask(y, AddProcess(cid, pid))
  {
    var made := Do(y, AddProcess(cid, pid));
    if made.crash.Some? then (made, None)
    else if !monitored then (Do(made, MonitorFails), Some(MonitorFailed))
    else (Started(made, |y.execs|, time), None)
  }

  function Started(made: Sys, x: nat, time: int): Sys
    requires x < |made.execs|
  {
    var e := made.execs[x];
    Broadcast(WithExec(made, x, e.(stage := Running, started := Some(|made.bus.emitted|))).(loop := Free),
      Event(e.cid, StartProcess, e.pid, time), StartOf(x))
  }

  // What the goroutine of execExit does once the IO of the process is done.
  function Exited(y: Sys, x: nat, time: int): Sys
    requires CanTask(y, ExitBegin(x, time))
  {
    var e := y.execs[x];
    var notified := WithExec(y, x, e.(stage := Notified, exited := Some(|y.bus.emitted|)));
    Do(Broadcast(notified, Event(e.cid, Exit, e.pid, time), ExitOf(x)), CloseSync(x))
  }

  // What the goroutine of delete does once all its channels are closed.
  function InitExited(y: Sys, i: nat, time: int): Sys
    requires CanTask(y, InitBegin(i, time))
  {
    Broadcast(y.(inits := y.inits[i := y.inits[i].(note := Some(|y.bus.emitted|))]),
      Event(y.inits[i].cid, Exit, INIT_PROCESS, time), InitOf(i))
  }

  lemma {:induction false} SendsArise(y: Sys, b: Bus, e: Event, todo: set<nat>)
    requires Arises(y) && y.crash.None? && Locked(b) && todo <= b.subscribed && y.bus == Undelivered(b, e, todo)
    ensures Arises(y.(bus := Undelivered(b, e, {})))
    decreases |todo|
  {
    if todo != {} {
      var sub :| sub in todo;
      SendOne(b, e, todo, sub);
      var y' := Then(y, OnBus(Send(|b.emitted|, sub)));
      SendsArise(y', b, e, todo - {sub});
    }
  }

  // Nothing else is being notified.
  ghost predicate Quiet(y: Sys) {
    Arises(y) && y.crash.None? && y.bus.pending == map[] && !y.bus.wedged
  }

  // The rest of a notification that a task began.
  lemma Sent(y: Sys, t: Task, e: Event) returns (y': Sys)
    requires Quiet(y) && CanTask(y, t) && Do(y, t).bus == Next(y.bus, Begin(e)) && Do(y, t).crash.None?
    ensures Arises(y') && y' == Do(y, t).(bus := Undelivered(y.bus, e, {}))
    ensures Enabled(y'.bus, End(|y.bus.emitted|)) && Next(y'.bus, End(|y.bus.emitted|)) == NotifyAll(y.bus, e)
  {
    ArisesInv(y);
    var begun := Then(y, t);
    BeginAll(y.bus, e);
    SendsArise(begun, y.bus, e, y.bus.subscribed);
    EndAll(y.bus, e);
    y' := begun.(bus := Undelivered(y.bus, e, {}));
  }

  // Each operation is a run of the protocol.
  lemma InitExitedArises(y: Sys, i: nat, time: int)
    requires Quiet(y) && CanTask(y, InitBegin(i, time))
    ensures Arises(InitExited(y, i, time))
  {
    var y' := Sent(y, InitBegin(i, time), Event(y.inits[i].cid, Exit, INIT_PROCESS, time));
    y' := Then(y', InitEnd(i));
  }

  // The two tasks of a notification, as far as they change more than the event bus.
  lemma ExitTasks(y: Sys, x: nat, time: int, b: Bus)
    requires CanTask(y, ExitBegin(x, time)) && Enabled(b, End(|y.bus.emitted|))
    ensures var begun := Do(y, ExitBegin(x, time)).(bus := b);
      && CanTask(begun, ExitEnd(x))
      && Do(begun, ExitEnd(x)).execs == y.execs[x := y.execs[x].(stage := Notified, exited := Some(|y.bus.emitted|))]
      && Do(begun, ExitEnd(x)) == y.(bus := Next(b, End(|y.bus.emitted|)), owners := y.owners + [ExitOf(x)],
                                     execs := Do(begun, ExitEnd(x)).execs)
  {
  }

  lemma ExitedArises(y: Sys, x: nat, time: int)
    requires Quiet(y) && CanTask(y, ExitBegin(x, time))
    ensures Arises(Exited(y, x, time))
  {
    var e := y.execs[x];
    var begun := Sent(y, ExitBegin(x, time), Event(e.cid, Exit, e.pid, time));
    ExitTasks(y, x, time, begun.bus);
    var ended := Then(begun, ExitEnd(x));
    Closed(y, x, time, ended);
  }

  lemma Closed(y: Sys, x: nat, time: int, ended: Sys)
    requires CanTask(y, ExitBegin(x, time)) && Arises(ended)
    requires ended.execs == y.execs[x := y.execs[x].(stage := Notified, exited := Some(|y.bus.emitted|))]
    requires ended == y.(bus := NotifyAll(y.bus, Event(y.execs[x].cid, Exit, y.execs[x].pid, time)),
                         owners := y.owners + [ExitOf(x)], execs := ended.execs)
    ensures Arises(Exited(y, x, time))
  {
    var closed := Then(ended, CloseSync(x));
  }

  lemma StartTasks(y: Sys, time: int, b: Bus)
    requires CanTask(y, StartBegin(time)) && Enabled(b, End(|y.bus.emitted|))
    ensures var x := y.loop.x;
      var begun := Do(y, StartBegin(time)).(bus := b);
      && CanTask(begun, StartEnd)
      && Do(begun, StartEnd).execs == y.execs[x := y.execs[x].(stage := Running, started := Some(|y.bus.emitted|))]
      && Do(begun, StartEnd) == y.(bus := Next(b, End(|y.bus.emitted|)), owners := y.owners + [StartOf(x)],
                                   execs := Do(begun, StartEnd).execs, loop := Free)
  {
  }

  lemma StartedArises(y: Sys, time: int)
    requires Quiet(y) && CanTask(y, StartBegin(time))
    ensures y.loop.x < |y.execs| && Arises(Started(y, y.loop.x, time))
  {
    var e := y.execs[y.loop.x];
    var begun := Sent(y, StartBegin(time), Event(e.cid, StartProcess, e.pid, time));
    StartTasks(y, time, begun.bus);
    var ended := Then(begun, StartEnd);
  }

  lemma MonitorTask(made: Sys, x: nat, time: int)
    requires made.crash.None? && made.loop == Adding(x) && IsExec(made, x, Created)
    ensures CanTask(made, MonitorOk) && CanTask(made, MonitorFails)
    ensures Do(made, MonitorOk).loop == Adding(x) && IsExec(Do(made, MonitorOk), x, Monitored)
    ensures Started(Do(made, MonitorOk), x, time) == Started(made, x, time)
    ensures Do(made, MonitorOk).bus == made.bus && Do(made, MonitorOk).crash.None?
  {
    assert Started(Do(made, MonitorOk), x, time).execs == Started(made, x, time).execs;
  }

  lemma AddTask(y: Sys, cid: string, pid: string)
    requires CanTask(y, AddProcess(cid, pid))
    ensures var made := Do(y, AddProcess(cid, pid));
      made.crash.None? ==> made.loop == Adding(|y.execs|) && IsExec(made, |y.execs|, Created) && made.bus == y.bus
  {
  }

  lemma AddedArises(y: Sys, cid: string, pid: string, monitored: bool, time: int)
    requires Quiet(y) && CanTask(y, AddProcess(cid, pid))
    ensures Arises(Added(y, cid, pid, monitored, time).0)
  {
    var made := Then(y, AddProcess(cid, pid));
    AddTask(y, cid, pid);
    if made.crash.None? {
      MonitorTask(made, |y.execs|, time);
      if !monitored {
        var failed := Then(made, MonitorFails);
      } else {
        var ready := Then(made, MonitorOk);
        StartedArises(ready, time);
      }
    }
  }

  // ---------------------------------------------------------------------------------------------
  // What each operation comes to

  // A map without channels for the container is a panic. A refused process leaves no channel and no event, and
  // the error says so; an accepted one keeps its new channel, and its start is the one new event.
  lemma AddedExactly(y: Sys, cid: string, pid: string, monitored: bool, time: int)
    requires CanTask(y, AddProcess(cid, pid))
    ensures var (y', error) := Added(y, cid, pid, monitored, time);
      && y'.containers == y.containers && y'.closed == y.closed && y'.inits == y.inits
      && if cid !in y.sync then
           error == None && y' == y.(crash := Some(NilMapWrite))
         else
           && y'.crash.None? && y'.loop == Free && y'.sync.Keys == y.sync.Keys && |y'.execs| == |y.execs| + 1
           && y'.execs[..|y.execs|] == y.execs
           && (forall c, p :: c in y.sync && (c != cid || p != pid) ==>
                 (p in y'.sync[c] <==> p in y.sync[c]) && (p in y.sync[c] ==> y'.sync[c][p] == y.sync[c][p]))
           && if monitored then
                && error == None && pid in y'.sync[cid] && y'.sync[cid][pid] == y.chans
                && y'.bus.emitted == y.bus.emitted + [Event(cid, StartProcess, pid, time)]
                && y'.execs[|y.execs|].stage == Running
              else
                && error == Some(MonitorFailed) && pid !in y'.sync[cid] && y'.bus == y.bus
                && y'.execs[|y.execs|].stage == RolledBack
  {
  }

  // The exit is the one new event. The channel that was found is then closed, once; having found none, or one
  // that is closed already, is a panic.
  lemma ExitedExactly(y: Sys, x: nat, time: int)
    requires CanTask(y, ExitBegin(x, time))
    ensures var y', e := Exited(y, x, time), y.execs[x];
      && y'.bus.emitted == y.bus.emitted + [Event(e.cid, Exit, e.pid, time)]
      && y'.containers == y.containers && y'.sync == y.sync && y'.inits == y.inits
      && (e.captured.Some? && e.captured.value !in y.closed ==>
            y'.crash.None? && y'.closed == y.closed + {e.captured.value})
      && (e.captured.None? || e.captured.value in y.closed ==> y'.crash.Some? && y'.closed == y.closed)
  {
  }

  // The exit of a container is the one new event, and it begins the notification that its record names.
  lemma InitExitedExactly(y: Sys, i: nat, time: int)
    requires CanTask(y, InitBegin(i, time))
    ensures var y' := InitExited(y, i, time);
      && y'.bus.emitted == y.bus.emitted + [Event(y.inits[i].cid, Exit, INIT_PROCESS, time)]
      && y'.inits == y.inits[i := y.inits[i].(note := Some(|y.bus.emitted|))]
      && y'.containers == y.containers && y'.sync == y.sync && y'.closed == y.closed && y'.execs == y.execs
      && y'.crash.None?
  {
  }

  // A deleted container is forgotten; if an event is to be sent so are its channels, and the goroutine waits for
  // those and no others.
  lemma DeletedExactly(y: Sys, cid: string, noEvent: bool)
    requires CanTask(y, Delete(cid, noEvent))
    ensures var y' := Do(y, Delete(cid, noEvent));
      && cid !in y'.containers && y'.bus == y.bus && y'.execs == y.execs && y'.closed == y.closed
      && (forall c :: c != cid ==> (c in y'.containers <==> c in y.containers)
                                   && (c in y.containers ==> y'.containers[c] == y.containers[c]))
      && if noEvent then y'.sync == y.sync && y'.inits == y.inits
         else
           && cid !in y'.sync && (forall c :: c in y.sync && c != cid ==> c in y'.sync && y'.sync[c] == y.sync[c])
           && |y'.inits| == |y.inits| + 1 && y'.inits[..|y.inits|] == y.inits
           && y'.inits[|y.inits|].cid == cid && y'.inits[|y.inits|].note.None?
           && forall k :: k in y'.inits[|y.inits|].waits
                     <==> cid in y.sync && exists pid :: pid in y.sync[cid] && y.sync[cid][pid] == k
  {
  }

  // ---------------------------------------------------------------------------------------------
  // The handlers

  class EventLoop {
    const hub: Hub
    // Registered containers, numbered.
    var containers: map<string, nat>
    var regs: nat
    var containerExecSync: map<string, map<string, nat>>
    // Sync channels made and closed.
    var chans: nat
    var closed: set<nat>
    var crash: Option<Crash>
    // The processes, the goroutines of delete, and who sent each notification.
    ghost var workers: set<(string, nat)>
    ghost var execs: seq<Exec>
    ghost var inits: seq<InitExit>
    ghost var loop: Loop
    ghost var owners: seq<Owner>

    ghost function State(): Sys
      reads this, hub
    {
      Sys(hub.State(), containers, regs, workers, containerExecSync, chans, closed, execs, inits, loop, owners, crash)
    }

    // Subscribers have channels, and no replay is stuck.
    ghost predicate Valid()
      reads this, hub
    {
      (forall c :: c in hub.subscribers ==> c < |hub.channels|) && !hub.wedged
    }

    constructor (hub: Hub)
      ensures this.hub == hub && State() == InitSys(hub.retainCount, hub.stored).(bus := hub.State())
    {
      this.hub := hub;
      containers, regs, containerExecSync, chans, closed, crash := map[], 0, map[], 0, {}, None;
      workers, execs, inits, loop, owners := {}, [], [], Free, [];
    }

    method NewExecSyncMap(cid: string)
      modifies this`containerExecSync
      ensures containerExecSync == old(containerExecSync)[cid := map[]]
    {
      containerExecSync := containerExecSync[cid := map[]];
    }

    // A start task: the container is registered and handed to a worker.
    method Start(cid: string)
      requires CanTask(State(), Register(cid))
      modifies this`containers, this`regs, this`workers
      ensures State() == Do(old(State()), Register(cid))
      ensures containers == old(containers)[cid := old(regs)] && regs == old(regs) + 1
    {
      containers := containers[cid := regs];
      workers := workers + {(cid, regs)};
      regs := regs + 1;
    }

    // A worker, once the container runs: execs can be added from now on.
    method WorkerStarted(cid: string, ghost reg: nat)
      requires CanTask(State(), WorkerMap(cid, reg))
      modifies this`containerExecSync, this`workers
      ensures State() == Do(old(State()), WorkerMap(cid, reg))
      ensures containerExecSync == old(containerExecSync)[cid := map[]]
    {
      NewExecSyncMap(cid);
      workers := workers - {(cid, reg)};
    }

    // Writing to the map of a container that has none panics.
    method NewExecSyncChannel(cid: string, pid: string)
      modifies this`containerExecSync, this`chans, this`crash
      ensures if cid in old(containerExecSync) then
                && containerExecSync
                   == old(containerExecSync)[cid := WithChannel(old(containerExecSync)[cid], pid, old(chans))]
                && chans == old(chans) + 1 && crash == old(crash)
              else containerExecSync == old(containerExecSync) && chans == old(chans) && crash == Some(NilMapWrite)
    {
      if cid !in containerExecSync {
        crash := Some(NilMapWrite);
      } else {
        containerExecSync := containerExecSync[cid := WithChannel(containerExecSync[cid], pid, chans)];
        chans := chans + 1;
      }
    }

    method DeleteExecSyncChannel(cid: string, pid: string)
      modifies this`containerExecSync
      ensures containerExecSync == if cid in old(containerExecSync)
                then old(containerExecSync)[cid := old(containerExecSync)[cid] - {pid}] else old(containerExecSync)
    {
      if cid in containerExecSync {
        containerExecSync := containerExecSync[cid := containerExecSync[cid] - {pid}];
      }
    }

    method GetExecSyncChannel(cid: string, pid: string) returns (ch: Option<nat>)
      ensures ch == Lookup(containerExecSync, cid, pid)
      ensures ch.Some? <==> cid in containerExecSync && pid in containerExecSync[cid]
      ensures ch.Some? ==> ch.value == containerExecSync[cid][pid]
    {
      if cid in containerExecSync && pid in containerExecSync[cid] {
        return Some(containerExecSync[cid][pid]);
      }
      return None;
    }

    method GetDeleteExecSyncMap(cid: string) returns (chs: set<nat>)
      modifies this`containerExecSync
      ensures chs == Channels(old(containerExecSync), cid) && containerExecSync == old(containerExecSync) - {cid}
    {
      chs := if cid in containerExecSync then containerExecSync[cid].Values else {};
      containerExecSync := containerExecSync - {cid};
    }

    // Closing a nil or a closed channel panics.
    method CloseChannel(ch: Option<nat>)
      modifies this`closed, this`crash
      ensures if ch.None? then closed == old(closed) && crash == Some(CloseOfNil)
              else if ch.value in old(closed) then closed == old(closed) && crash == Some(CloseOfClosed)
              else closed == old(closed) + {ch.value} && crash == old(crash)
    {
      if ch.None? {
        crash := Some(CloseOfNil);
      } else if ch.value in closed {
        crash := Some(CloseOfClosed);
      } else {
        closed := closed + {ch.value};
      }
    }

    // Sends an event; `owner` records who did.
    method Notify(e: Event, ghost owner: Owner)
      requires Valid()
      modifies this`owners, hub`emitted, hub`channels, hub`ended
      ensures State() == Broadcast(old(State()), e, owner)
    {
      owners := owners + [owner];
      hub.NotifySubscribers(e);
    }

    // `made` is whether the runtime makes the process, which it does not under an id in use; `monitored` is
    // whether the monitor accepts it.
    method AddProcess(cid: string, pid: string, made: bool, monitored: bool, time: int)
        returns (error: Option<AddError>)
      requires Valid() && crash.None? && loop == Free
      requires made && cid in containers ==> !InUse(State(), containers[cid], pid)
      modifies this, hub`emitted, hub`channels, hub`ended
      ensures if cid !in old(containers) then State() == old(State()) && error == Some(ContainerNotFound)
              else if !made then State() == old(State()) && error == Some(ExecFailed)
              else (State(), error) == Added(old(State()), cid, pid, monitored, time)
      ensures made && cid in old(containers) && cid !in old(containerExecSync) ==>
                crash == Some(NilMapWrite) && hub.emitted == old(hub.emitted)
      ensures made && cid in old(containers) && cid in old(containerExecSync) && !monitored ==>
                && error == Some(MonitorFailed) && crash.None? && hub.emitted == old(hub.emitted)
                && cid in containerExecSync && pid !in containerExecSync[cid]
      ensures made && cid in old(containers) && cid in old(containerExecSync) && monitored ==>
                && error == None && crash.None? && cid in containerExecSync
                && pid in containerExecSync[cid] && containerExecSync[cid][pid] == old(chans)
                && hub.emitted == old(hub.emitted) + [Event(cid, StartProcess, pid, time)]
    {
      if cid !in containers {
        return Some(ContainerNotFound);
      }
      if !made {
        return Some(ExecFailed);
      }
      ghost var x := |execs|;
      AddedExactly(State(), cid, pid, monitored, time);
      MakeChannel(cid, pid);
      if crash.Some? {
        return None;
      }
      if !monitored {
        RollBack(cid, pid, x);
        return Some(MonitorFailed);
      }
      NotifyStart(cid, pid, time, x);
      return None;
    }

    method NotifyStart(cid: string, pid: string, time: int, ghost x: nat)
      requires Valid() && x < |execs| && execs[x].cid == cid && execs[x].pid == pid
      modifies this`owners, this`loop, this`execs, hub`emitted, hub`channels, hub`ended
      ensures State() == Started(old(State()), x, time)
    {
      loop, execs := Free, execs[x := execs[x].(stage := Running, started := Some(|hub.emitted|))];
      Notify(Event(cid, StartProcess, pid, time), StartOf(x));
    }

    // The sync channel of a new process.
    method MakeChannel(cid: string, pid: string)
      requires CanTask(State(), ExecSync.AddProcess(cid, pid))
      modifies this`containerExecSync, this`chans, this`crash, this`loop, this`execs
      ensures State() == Do(old(State()), ExecSync.AddProcess(cid, pid))
    {
      ghost var e := Exec(cid, pid, containers[cid], chans, Created, None, None, None);
      NewExecSyncChannel(cid, pid);
      if crash.None? {
        loop, execs := Adding(|execs|), execs + [e];
      }
    }

    method RollBack(cid: string, pid: string, ghost x: nat)
      requires CanTask(State(), MonitorFails) && loop == Adding(x) && execs[x].cid == cid && execs[x].pid == pid
      modifies this`containerExecSync, this`loop, this`execs
      ensures State() == Do(old(State()), MonitorFails)
    {
      DeleteExecSyncChannel(cid, pid);
      loop, execs := Free, execs[x := execs[x].(stage := RolledBack)];
    }

    // The process is not the init process of its container. Returns the channel that the goroutine keeps.
    method ExecExit(cid: string, pid: string, ghost x: nat) returns (synCh: Option<nat>)
      requires CanTask(State(), Dispatch(x)) && execs[x].cid == cid && execs[x].pid == pid
      modifies this`execs
      ensures State() == Do(old(State()), Dispatch(x)) && synCh == execs[x].captured
      ensures synCh == if cid in containerExecSync && pid in containerExecSync[cid]
                then Some(containerExecSync[cid][pid]) else None
    {
      synCh := GetExecSyncChannel(cid, pid);
      execs := execs[x := execs[x].(stage := Waiting, captured := synCh)];
    }

    // The goroutine of ExecExit, after the IO of the process.
    method ExecExited(cid: string, pid: string, synCh: Option<nat>, time: int, ghost x: nat)
      requires Valid() && CanTask(State(), ExitBegin(x, time))
      requires execs[x].cid == cid && execs[x].pid == pid && execs[x].captured == synCh
      modifies this, hub`emitted, hub`channels, hub`ended
      ensures State() == Exited(old(State()), x, time)
      ensures hub.emitted == old(hub.emitted) + [Event(cid, Exit, pid, time)]
      ensures if synCh.Some? && synCh.value !in old(closed) then closed == old(closed) + {synCh.value} && crash.None?
              else closed == old(closed) && crash.Some?
    {
      ExitedExactly(State(), x, time);
      execs := execs[x := execs[x].(stage := Notified, exited := Some(|hub.emitted|))];
      Notify(Event(cid, Exit, pid, time), ExitOf(x));
      CloseSyncChannel(synCh, x);
    }

    method CloseSyncChannel(synCh: Option<nat>, ghost x: nat)
      requires CanTask(State(), CloseSync(x)) && execs[x].captured == synCh
      modifies this`closed, this`crash, this`execs
      ensures State() == Do(old(State()), CloseSync(x))
    {
      CloseChannel(synCh);
      if crash.None? {
        execs := execs[x := execs[x].(stage := Closed)];
      }
    }

    // Returns the channels that the goroutine waits for, if an event is to be sent.
    method Delete(cid: string, noEvent: bool) returns (waits: Option<set<nat>>)
      requires crash.None? && loop == Free
      modifies this`containers, this`containerExecSync, this`inits
      ensures if cid in old(containers) then State() == Do(old(State()), ExecSync.Delete(cid, noEvent))
              else State() == old(State())
      ensures waits == if cid in old(containers) && !noEvent then Some(Channels(old(containerExecSync), cid)) else None
      ensures cid !in containers && (!noEvent && cid in old(containers) ==> cid !in containerExecSync)
    {
      if cid in containers {
        ghost var reg := containers[cid];
        containers := containers - {cid};
        if !noEvent {
          var chs := GetDeleteExecSyncMap(cid);
          inits := inits + [InitExit(cid, reg, chs, None)];
          return Some(chs);
        }
      }
      return None;
    }

    // The goroutine of Delete, after all its channels are closed.
    method Deleted(cid: string, time: int, ghost i: nat)
      requires Valid() && CanTask(State(), InitBegin(i, time)) && inits[i].cid == cid
      modifies this, hub`emitted, hub`channels, hub`ended
      ensures State() == InitExited(old(State()), i, time)
      ensures hub.emitted == old(hub.emitted) + [Event(cid, Exit, INIT_PROCESS, time)]
    {
      InitExitedExactly(State(), i, time);
      inits := inits[i := inits[i].(note := Some(|hub.emitted|))];
      Notify(Event(cid, Exit, INIT_PROCESS, time), InitOf(i));
    }

    // The exit of a process: of an exec, or of a whole container.
    method ExitOfProcess(cid: string, pid: string, ghost x: nat)
      requires crash.None? && loop == Free
      requires pid != INIT_PROCESS ==> CanTask(State(), Dispatch(x)) && execs[x].cid == cid && execs[x].pid == pid
      modifies this`containers, this`containerExecSync, this`inits, this`execs
      ensures pid != INIT_PROCESS ==> State() == Do(old(State()), Dispatch(x))
      ensures pid == INIT_PROCESS ==> cid !in containers && (cid in old(containers) ==> cid !in containerExecSync)
      ensures pid == INIT_PROCESS && cid in old(containers) ==> State() == Do(old(State()), ExecSync.Delete(cid, false))
      ensures pid == INIT_PROCESS && cid !in old(containers) ==> State() == old(State())
    {
      if pid != INIT_PROCESS {
        var synCh := ExecExit(cid, pid, x);
        return;
      }
      var waits := Delete(cid, false);
    }
  }
}
