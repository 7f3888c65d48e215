// Whole-run properties of the exec protocol: exits of execs come before the exit of their container, starts
// before exits, one exit per registration, and no misuse of the sync channels.

module ExecSyncProofs {
  import opened Wrappers
  import opened EventBus
  import EventBusProofs
  import opened ExecSync

  // ---------------------------------------------------------------------------------------------
  // What a task touches

  // The step of the event bus that a task makes, if any.
  ghost function Moves(y: Sys, t: Task): (s: Option<Step>)
    requires CanTask(y, t)
  {
    match t
    case StartBegin(time) =>
      var e := y.execs[y.loop.x];
      Some(Begin(Event(e.cid, StartProcess, e.pid, time)))
    case StartEnd => Some(End(y.execs[y.loop.x].started.value))
    case ExitBegin(x, time) => Some(Begin(Event(y.execs[x].cid, Exit, y.execs[x].pid, time)))
    case ExitEnd(x) => Some(End(y.execs[x].exited.value))
    case InitBegin(i, time) => Some(Begin(Event(y.inits[i].cid, Exit, INIT_PROCESS, time)))
    case InitEnd(i) => Some(End(y.inits[i].note.value))
    case OtherBegin(e) => Some(Begin(e))
    case OtherEnd(n) => Some(End(n))
    case OnBus(s) => Some(s)
    case _ => None
  }

  lemma BusOf(y: Sys, t: Task)
    requires CanTask(y, t)
    ensures Moves(y, t).Some? ==> Enabled(y.bus, Moves(y, t).value) && Do(y, t).bus == Next(y.bus, Moves(y, t).value)
    ensures Moves(y, t).None? ==> Do(y, t).bus == y.bus
  {
  }

  // Notifications already over stay so, at the same time.
  ghost predicate Later(b: Bus, b': Bus) {
    && |b.emitted| <= |b'.emitted|
    && (forall n :: n in b.ended ==> n in b'.ended && b'.ended[n] == b.ended[n])
    && (forall n :: 0 <= n < |b.emitted| ==> b'.emitted[n] == b.emitted[n])
  }

  lemma LaterStep(b: Bus, s: Step)
    requires Timed(b) && Enabled(b, s)
    ensures Later(b, Next(b, s))
  {
  }

  lemma LaterTask(y: Sys, t: Task)
    requires Timed(y.bus) && CanTask(y, t)
    ensures Later(y.bus, Do(y, t).bus)
  {
    BusOf(y, t);
    if Moves(y, t).Some? {
      LaterStep(y.bus, Moves(y, t).value);
    }
  }

  lemma BusStep(y: Sys, t: Task)
    requires Inv(y.bus) && CanTask(y, t)
    ensures Inv(Do(y, t).bus)
  {
    BusOf(y, t);
    if Moves(y, t).Some? {
      EventBusProofs.InvStep(y.bus, Moves(y, t).value);
    }
  }

  // The exec a task changes or adds, and what it becomes.
  datatype Touch = Untouched | Touched(x: nat, exec: Exec)

  ghost function TouchOf(y: Sys, t: Task): Touch
    requires CanTask(y, t)
  {
    match t
    case AddProcess(cid, pid) =>
      if cid !in y.sync then Untouched
      else Touched(|y.execs|, Exec(cid, pid, y.containers[cid], y.chans, Created, None, None, None))
    case MonitorOk => Touched(y.loop.x, y.execs[y.loop.x].(stage := Monitored))
    case MonitorFails => Touched(y.loop.x, y.execs[y.loop.x].(stage := RolledBack))
    case StartBegin(_) => Touched(y.loop.x, y.execs[y.loop.x].(stage := Starting, started := Some(|y.bus.emitted|)))
    case StartEnd => Touched(y.loop.x, y.execs[y.loop.x].(stage := Running))
    case Dispatch(x) =>
      Touched(x, y.execs[x].(stage := Waiting, captured := Lookup(y.sync, y.execs[x].cid, y.execs[x].pid)))
    case ExitBegin(x, _) => Touched(x, y.execs[x].(stage := Exiting, exited := Some(|y.bus.emitted|)))
    case ExitEnd(x) => Touched(x, y.execs[x].(stage := Notified))
    case CloseSync(x) => if Do(y, t).crash.Some? then Untouched else Touched(x, y.execs[x].(stage := Closed))
    case _ => Untouched
  }

  lemma ExecsOf(y: Sys, t: Task)
    requires CanTask(y, t)
    ensures match TouchOf(y, t)
            case Untouched => Do(y, t).execs == y.execs
            case Touched(x, e) =>
              x <= |y.execs| && Do(y, t).execs == if x < |y.execs| then y.execs[x := e] else y.execs + [e]
  {
  }

  // The same exec in a later state: only its progress changes.
  ghost predicate SameExec(e: Exec, e': Exec) {
    e'.cid == e.cid && e'.pid == e.pid && e'.reg == e.reg && e'.ch == e.ch
  }

  lemma ExecsKept(y: Sys, t: Task)
    requires CanTask(y, t)
    ensures |y.execs| <= |Do(y, t).execs|
    ensures forall x :: 0 <= x < |y.execs| ==> SameExec(y.execs[x], Do(y, t).execs[x])
    ensures !t.AddProcess? ==> |Do(y, t).execs| == |y.execs|
  {
    ExecsOf(y, t);
  }

  lemma InitsOf(y: Sys, t: Task)
    requires CanTask(y, t)
    ensures var y' := Do(y, t);
            match t
            case Delete(cid, noEvent) =>
              y'.inits == if noEvent then y.inits
                          else y.inits + [InitExit(cid, y.containers[cid], Channels(y.sync, cid), None)]
            case InitBegin(i, _) => y'.inits == y.inits[i := y.inits[i].(note := Some(|y.bus.emitted|))]
            case _ => y'.inits == y.inits
  {
  }

  lemma InitsKept(y: Sys, t: Task)
    requires CanTask(y, t)
    ensures |y.inits| <= |Do(y, t).inits|
    ensures forall i :: 0 <= i < |y.inits| ==>
              && Do(y, t).inits[i].waits == y.inits[i].waits
              && Do(y, t).inits[i].reg == y.inits[i].reg && Do(y, t).inits[i].cid == y.inits[i].cid
              && (y.inits[i].note.Some? && (t.InitBegin? ==> t.i != i) ==> Do(y, t).inits[i].note == y.inits[i].note)
  {
    InitsOf(y, t);
  }

  // ---------------------------------------------------------------------------------------------
  // Stages of an exec

  lemma ExecLater(e: Exec, b: Bus, b': Bus)
    requires ExecOk(e, b) && Later(b, b')
    ensures ExecOk(e, b')
  {
  }

  lemma TouchedOk(y: Sys, t: Task)
    requires Timed(y.bus) && Execs(y) && LoopOk(y) && CanTask(y, t) && TouchOf(y, t).Touched?
    ensures ExecOk(TouchOf(y, t).exec, Do(y, t).bus)
  {
    BusOf(y, t);
    var x := TouchOf(y, t).x;
    if x < |y.execs| {
      assert ExecOk(y.execs[x], y.bus);
    }
  }

  lemma ExecsStep(y: Sys, t: Task)
    requires Timed(y.bus) && Execs(y) && LoopOk(y) && CanTask(y, t)
    ensures Execs(Do(y, t))
  {
    LaterTask(y, t);
    ExecsOf(y, t);
    if TouchOf(y, t).Touched? {
      TouchedOk(y, t);
    }
    forall z | 0 <= z < |y.execs| ensures ExecOk(y.execs[z], Do(y, t).bus) {
      ExecLater(y.execs[z], y.bus, Do(y, t).bus);
    }
  }

  // ---------------------------------------------------------------------------------------------
  // Ownership of sync channels

  ghost predicate SubSync(sync': map<string, map<string, nat>>, sync: map<string, map<string, nat>>) {
    forall c, p :: c in sync' && p in sync'[c] ==> c in sync && p in sync[c] && sync'[c][p] == sync[c][p]
  }

  lemma SyncOf(y: Sys, t: Task)
    requires CanTask(y, t) && !t.AddProcess?
    ensures Do(y, t).chans == y.chans && SubSync(Do(y, t).sync, y.sync)
    ensures !t.WorkerMap? && !t.MonitorFails? && !t.Delete? ==> Do(y, t).sync == y.sync
  {
    SyncKept(y, t);
    if t.WorkerMap? || t.MonitorFails? || t.Delete? {
      SyncLess(y, t);
    }
  }

  lemma SyncKept(y: Sys, t: Task)
    requires CanTask(y, t) && !t.AddProcess?
    ensures Do(y, t).chans == y.chans
    ensures !t.WorkerMap? && !t.MonitorFails? && !t.Delete? ==> Do(y, t).sync == y.sync
  {
    ChansKept(y, t);
    if !t.WorkerMap? && !t.MonitorFails? && !t.Delete? {
      SyncSame(y, t);
    }
  }

  lemma ChansKept(y: Sys, t: Task)
    requires CanTask(y, t) && !t.AddProcess?
    ensures Do(y, t).chans == y.chans
  {
  }

  lemma SyncSame(y: Sys, t: Task)
    requires CanTask(y, t) && !t.AddProcess? && !t.WorkerMap? && !t.MonitorFails? && !t.Delete?
    ensures Do(y, t).sync == y.sync
  {
  }

  lemma SyncLess(y: Sys, t: Task)
    requires CanTask(y, t) && (t.WorkerMap? || t.MonitorFails? || t.Delete?)
    ensures SubSync(Do(y, t).sync, y.sync)
  {
  }

  // The execs after a task: the same, with none newly rolled back.
  ghost predicate KeptExecs(execs: seq<Exec>, execs': seq<Exec>) {
    && |execs'| == |execs|
    && forall x :: 0 <= x < |execs| ==>
         SameExec(execs[x], execs'[x]) && (execs'[x].stage == RolledBack ==> execs[x].stage == RolledBack)
  }

  lemma ChannelsKept(execs: seq<Exec>, execs': seq<Exec>, chans: nat)
    requires |execs'| == |execs| && forall x :: 0 <= x < |execs| ==> SameExec(execs[x], execs'[x])
    requires OwnChannels(execs, chans)
    ensures OwnChannels(execs', chans)
  {
  }

  lemma EntriesKept(execs: seq<Exec>, execs': seq<Exec>, sync: map<string, map<string, nat>>,
                    sync': map<string, map<string, nat>>, chans: nat)
    requires KeptExecs(execs, execs') && SubSync(sync', sync) && OwnEntries(execs, sync, chans)
    ensures OwnEntries(execs', sync', chans)
  {
  }

  lemma EntriesAdded(execs: seq<Exec>, e: Exec, sync: map<string, map<string, nat>>)
    requires OwnChannels(execs, e.ch) && OwnEntries(execs, sync, e.ch) && e.cid in sync && e.stage == Created
    ensures OwnChannels(execs + [e], e.ch + 1)
    ensures OwnEntries(execs + [e], sync[e.cid := WithChannel(sync[e.cid], e.pid, e.ch)], e.ch + 1)
  {
  }

  lemma EntriesRolledBack(execs: seq<Exec>, x: nat, sync: map<string, map<string, nat>>, chans: nat)
    requires x < |execs| && OwnChannels(execs, chans) && OwnEntries(execs, sync, chans)
    requires Lookup(sync, execs[x].cid, execs[x].pid).Some? ==>
      Lookup(sync, execs[x].cid, execs[x].pid) == Some(execs[x].ch)
    ensures var e := execs[x];
            var sync' := if e.cid in sync then sync[e.cid := sync[e.cid] - {e.pid}] else sync;
            OwnEntries(execs[x := e.(stage := RolledBack)], sync', chans)
  {
  }

  lemma WaitsOfMap(execs: seq<Exec>, inits: seq<InitExit>, sync: map<string, map<string, nat>>, chans: nat, i: InitExit)
    requires OwnEntries(execs, sync, chans) && OwnWaits(execs, inits, chans) && i.waits == Channels(sync, i.cid)
    requires forall x :: 0 <= x < |execs| ==> execs[x].stage !in {Created, Monitored, Starting}
    ensures OwnWaits(execs, inits + [i], chans)
  {
    forall k | k in i.waits ensures exists p :: i.cid in sync && p in sync[i.cid] && sync[i.cid][p] == k {
    }
  }

  // A task moves no exec back to the stages before Running, and rolls back only the one being added.
  lemma StagesForward(y: Sys, t: Task, x: nat)
    requires LoopOk(y) && CanTask(y, t) && x < |y.execs|
    ensures Do(y, t).execs[x].stage in {Created, Monitored, Starting, RolledBack} ==>
              y.execs[x].stage in {Created, Monitored, Starting, RolledBack}
    ensures !t.MonitorFails? && Do(y, t).execs[x].stage == RolledBack ==> y.execs[x].stage == RolledBack
  {
    ExecsOf(y, t);
  }

  lemma WaitsKept(y: Sys, t: Task)
    requires Owned(y) && LoopOk(y) && CanTask(y, t)
    ensures OwnWaits(Do(y, t).execs, Do(y, t).inits, Do(y, t).chans)
  {
    var y' := Do(y, t);
    if t.Delete? {
      ExecsOf(y, t);
      InitsOf(y, t);
      WaitsOfMap(y.execs, y.inits, y.sync, y.chans,
                 InitExit(t.cid, y.containers[t.cid], Channels(y.sync, t.cid), None));
    } else {
      ExecsKept(y, t);
      InitsKept(y, t);
      InitsOf(y, t);
      forall i, x | 0 <= i < |y'.inits| && 0 <= x < |y'.execs| && y'.execs[x].ch in y'.inits[i].waits
        ensures y'.execs[x].stage !in {Created, Monitored, Starting, RolledBack}
      {
        NewChannelIsFresh(y, t);
        StagesForward(y, t, x);
      }
      if !t.AddProcess? {
        SyncOf(y, t);
      }
    }
  }

  lemma NewChannelIsFresh(y: Sys, t: Task)
    requires CanTask(y, t)
    ensures forall x :: |y.execs| <= x < |Do(y, t).execs| ==> Do(y, t).execs[x].ch == y.chans
    ensures y.chans <= Do(y, t).chans
  {
    ExecsOf(y, t);
  }

  lemma OwnedStep(y: Sys, t: Task)
    requires Owned(y) && LoopOk(y) && CanTask(y, t)
    ensures Owned(Do(y, t))
  {
    WaitsKept(y, t);
    ExecsOf(y, t);
    if t.AddProcess? {
      if t.cid in y.sync {
        EntriesAdded(y.execs, TouchOf(y, t).exec, y.sync);
      }
    } else {
      ExecsKept(y, t);
      SyncOf(y, t);
      ChannelsKept(y.execs, Do(y, t).execs, y.chans);
      if t.MonitorFails? {
        EntriesRolledBack(y.execs, y.loop.x, y.sync, y.chans);
      } else {
        forall x | 0 <= x < |y.execs| ensures Do(y, t).execs[x].stage == RolledBack ==> y.execs[x].stage == RolledBack {
          StagesForward(y, t, x);
        }
        EntriesKept(y.execs, Do(y, t).execs, y.sync, Do(y, t).sync, y.chans);
      }
    }
  }

  // ---------------------------------------------------------------------------------------------
  // The event loop

  lemma LoopOf(y: Sys, t: Task)
    requires CanTask(y, t)
    ensures Do(y, t).loop == match t
              case AddProcess(cid, _) => if cid in y.sync then Adding(|y.execs|) else y.loop
              case MonitorFails => Free
              case StartEnd => Free
              case _ => y.loop
  {
  }

  lemma LoopStep(y: Sys, t: Task)
    requires LoopOk(y) && CanTask(y, t)
    ensures LoopOk(Do(y, t))
  {
    LoopOf(y, t);
    ExecsOf(y, t);
    if t.AddProcess? {
    } else {
      SyncOf(y, t);
    }
  }

  // ---------------------------------------------------------------------------------------------
  // Captured channels

  lemma ClosedOf(y: Sys, t: Task)
    requires CanTask(y, t) && !t.CloseSync?
    ensures Do(y, t).closed == y.closed
    ensures Do(y, t).crash.None? || Do(y, t).crash == Some(NilMapWrite)
  {
  }

  // What an exit found in the map stays, and an exec that closed a channel changes no more.
  lemma CapturedKept(y: Sys, t: Task, z: nat)
    requires CanTask(y, t) && z < |y.execs|
    requires y.execs[z].captured.Some? ==> y.execs[z].stage !in {Monitored, Starting, Running}
    ensures z < |Do(y, t).execs|
    ensures y.execs[z].captured.Some? ==> Do(y, t).execs[z].captured == y.execs[z].captured
    ensures y.execs[z].stage == Closed ==> Do(y, t).execs[z] == y.execs[z]
  {
    ExecsOf(y, t);
  }

  lemma ClosersKept(y: Sys, t: Task)
    requires Captures(y) && CanTask(y, t)
    ensures forall k :: k in y.closed ==> exists z :: ClosedBy(Do(y, t).execs, k, z)
  {
    forall k | k in y.closed ensures exists z :: ClosedBy(Do(y, t).execs, k, z) {
      var z :| ClosedBy(y.execs, k, z);
      CapturedKept(y, t, z);
      assert ClosedBy(Do(y, t).execs, k, z);
    }
  }

  lemma CloseOk(y: Sys, x: nat)
    requires Captures(y) && CanTask(y, CloseSync(x))
    ensures Captures(Do(y, CloseSync(x)))
  {
    var e, y' := y.execs[x], Do(y, CloseSync(x));
    if y'.crash.None? {
      ClosersKept(y, CloseSync(x));
      assert ClosedBy(y'.execs, e.captured.value, x);
    }
  }

  // The channels that exits find in the map exist.
  lemma CapturedExists(y: Sys, t: Task)
    requires Owned(y) && Captures(y) && CanTask(y, t) && !t.CloseSync?
    ensures forall z :: 0 <= z < |Do(y, t).execs| && Do(y, t).execs[z].captured.Some? ==>
      && Do(y, t).execs[z].stage in {Waiting, Exiting, Notified, Closed}
      && Do(y, t).execs[z].captured.value < Do(y, t).chans
  {
    ExecsOf(y, t);
    NewChannelIsFresh(y, t);
  }

  lemma CapturesStep(y: Sys, t: Task)
    requires Owned(y) && Captures(y) && CanTask(y, t)
    ensures Captures(Do(y, t))
  {
    if t.CloseSync? {
      CloseOk(y, t.x);
    } else {
      ClosedOf(y, t);
      ClosersKept(y, t);
      CapturedExists(y, t);
      ExecsOf(y, t);
    }
  }

  // ---------------------------------------------------------------------------------------------
  // Init exits after exec exits

  lemma ExitedKept(y: Sys, t: Task, x: nat)
    requires Execs(y) && CanTask(y, t) && x < |y.execs| && y.execs[x].exited.Some?
    ensures x < |Do(y, t).execs| && Do(y, t).execs[x].exited == y.execs[x].exited
  {
    assert ExecOk(y.execs[x], y.bus);
    ExecsOf(y, t);
  }

  // Once taken, always taken.
  lemma GrabbedKept(y: Sys, t: Task, x: nat)
    requires Captures(y) && CanTask(y, t) && x < |y.execs| && Grabbed(y.execs, x)
    ensures x < |Do(y, t).execs| && Grabbed(Do(y, t).execs, x)
  {
    var z :| 0 <= z < |y.execs| && z != x && y.execs[z].captured == Some(y.execs[x].ch);
    CapturedKept(y, t, z);
    ExecsKept(y, t);
  }

  // Only its own exit closes a channel that no other exec took.
  lemma OwnClose(y: Sys, x: nat)
    requires Execs(y) && Captures(y) && x < |y.execs| && !Grabbed(y.execs, x) && y.execs[x].ch in y.closed
    ensures y.execs[x].stage == Closed && y.execs[x].exited.Some? && y.execs[x].exited.value in y.bus.ended
  {
    var z :| ClosedBy(y.execs, y.execs[x].ch, z);
    assert ExecOk(y.execs[x], y.bus);
  }

  lemma InitAfterBegin(y: Sys, t: Task)
    requires Timed(y.bus) && Execs(y) && Captures(y) && InitAfterExecs(y) && CanTask(y, t) && t.InitBegin?
    ensures InitAfterExecs(Do(y, t))
  {
    InitsOf(y, t);
    ExecsOf(y, t);
    forall x | 0 <= x < |y.execs| && y.execs[x].ch in y.inits[t.i].waits && !Grabbed(y.execs, x)
      ensures ExitedBefore(Do(y, t), x, |y.bus.emitted|)
    {
      assert y.execs[x].ch in y.closed;
      OwnClose(y, x);
    }
  }

  lemma InitAfterKept(y: Sys, t: Task, i: nat, x: nat)
    requires Timed(y.bus) && Owned(y) && Execs(y) && Captures(y) && InitAfterExecs(y) && CanTask(y, t) && !t.InitBegin?
    requires i < |Do(y, t).inits| && Do(y, t).inits[i].note.Some? && x < |Do(y, t).execs|
    requires Do(y, t).execs[x].ch in Do(y, t).inits[i].waits && !Grabbed(Do(y, t).execs, x)
    ensures ExitedBefore(Do(y, t), x, Do(y, t).inits[i].note.value)
  {
    LaterTask(y, t);
    InitsOf(y, t);
    NewChannelIsFresh(y, t);
    ExecsKept(y, t);
    assert i < |y.inits| && y.inits[i] == Do(y, t).inits[i];
    assert Do(y, t).execs[x].ch < y.chans && x < |y.execs|;
    if Grabbed(y.execs, x) {
      GrabbedKept(y, t, x);
    }
    assert ExitedBefore(y, x, y.inits[i].note.value);
    ExitedKept(y, t, x);
  }

  lemma InitAfterStep(y: Sys, t: Task)
    requires Timed(y.bus) && Owned(y) && Execs(y) && Captures(y) && InitAfterExecs(y) && CanTask(y, t)
    ensures InitAfterExecs(Do(y, t))
  {
    if t.InitBegin? {
      InitAfterBegin(y, t);
    } else {
      var y' := Do(y, t);
      forall i, x | 0 <= i < |y'.inits| && y'.inits[i].note.Some? && 0 <= x < |y'.execs|
                    && y'.execs[x].ch in y'.inits[i].waits && !Grabbed(y'.execs, x)
        ensures ExitedBefore(y', x, y'.inits[i].note.value)
      {
        InitAfterKept(y, t, i, x);
      }
    }
  }

  // ---------------------------------------------------------------------------------------------
  // Registrations

  lemma RegsOf(y: Sys, t: Task)
    requires CanTask(y, t)
    ensures match t
            case Register(cid) => Do(y, t).containers == y.containers[cid := y.regs] && Do(y, t).regs == y.regs + 1
            case Delete(cid, _) => Do(y, t).containers == y.containers - {cid} && Do(y, t).regs == y.regs
            case _ => Do(y, t).containers == y.containers && Do(y, t).regs == y.regs
  {
  }

  lemma RegisteredStep(y: Sys, t: Task)
    requires Registered(y) && CanTask(y, t)
    ensures Registered(Do(y, t))
  {
    RegsOf(y, t);
    InitsKept(y, t);
    if t.Delete? {
      RegisteredDelete(y, t.cid, t.noEvent);
    } else {
      SameInits(y, t);
    }
  }

  lemma SameInits(y: Sys, t: Task)
    requires CanTask(y, t) && !t.Delete?
    ensures |Do(y, t).inits| == |y.inits|
  {
    InitsOf(y, t);
  }

  lemma RegisteredDelete(y: Sys, cid: string, noEvent: bool)
    requires Registered(y) && CanTask(y, Delete(cid, noEvent))
    ensures Registered(Do(y, Delete(cid, noEvent)))
  {
    RegsOf(y, Delete(cid, noEvent));
    InitsOf(y, Delete(cid, noEvent));
  }

  // ---------------------------------------------------------------------------------------------
  // Notifications and their senders

  ghost function OwnerOf(t: Task, y: Sys): Owner {
    match t
    case StartBegin(_) => if y.loop.Adding? then StartOf(y.loop.x) else Other
    case ExitBegin(x, _) => ExitOf(x)
    case InitBegin(i, _) => InitOf(i)
    case _ => Other
  }

  lemma OwnersOf(y: Sys, t: Task)
    requires CanTask(y, t)
    ensures var y' := Do(y, t);
      if Moves(y, t).Some? && Moves(y, t).value.Begin?
      then y'.owners == y.owners + [OwnerOf(t, y)] && y'.bus.emitted == y.bus.emitted + [Moves(y, t).value.e]
      else y'.owners == y.owners && y'.bus.emitted == y.bus.emitted
  {
    BusOf(y, t);
  }

  lemma StartedKept(y: Sys, t: Task, x: nat)
    requires Execs(y) && CanTask(y, t) && x < |y.execs| && y.execs[x].started.Some?
    ensures x < |Do(y, t).execs| && Do(y, t).execs[x].started == y.execs[x].started
  {
    assert ExecOk(y.execs[x], y.bus);
    ExecsOf(y, t);
  }

  lemma NoteKept(y: Sys, t: Task, n: nat)
    requires Execs(y) && Notes(y) && CanTask(y, t) && n < |y.owners|
    ensures n < |Do(y, t).owners| && n < |Do(y, t).bus.emitted| && NoteOk(Do(y, t), n)
  {
    OwnersOf(y, t);
    ExecsKept(y, t);
    InitsKept(y, t);
    assert NoteOk(y, n);
    match y.owners[n]
    case StartOf(x) => StartedKept(y, t, x);
    case ExitOf(x) => ExitedKept(y, t, x);
    case InitOf(_) =>
    case Other =>
  }

  lemma NewNoteOk(y: Sys, t: Task)
    requires |y.owners| == |y.bus.emitted| && CanTask(y, t) && Moves(y, t).Some? && Moves(y, t).value.Begin?
    ensures |Do(y, t).owners| == |Do(y, t).bus.emitted| == |y.owners| + 1 && NoteOk(Do(y, t), |y.owners|)
  {
    OwnersOf(y, t);
  }

  lemma NotesStep(y: Sys, t: Task)
    requires Execs(y) && Notes(y) && CanTask(y, t)
    ensures Notes(Do(y, t))
  {
    OwnersOf(y, t);
    InitsOf(y, t);
    forall n | 0 <= n < |Do(y, t).owners| ensures NoteOk(Do(y, t), n) {
      if n < |y.owners| {
        NoteKept(y, t, n);
      } else {
        NewNoteOk(y, t);
      }
    }
  }

  // ---------------------------------------------------------------------------------------------
  // Whole runs

  lemma SysStep(y: Sys, t: Task)
    requires SysInv(y) && CanTask(y, t)
    ensures SysInv(Do(y, t))
  {
    BusStep(y, t);
    OwnedStep(y, t);
    LoopStep(y, t);
    ExecsStep(y, t);
    CapturesStep(y, t);
    InitAfterStep(y, t);
    RegisteredStep(y, t);
    NotesStep(y, t);
  }

  lemma BusReachable(y: Sys, t: Task)
    requires Reachable(y.bus) && CanTask(y, t)
    ensures Reachable(Do(y, t).bus)
  {
    BusOf(y, t);
    if Moves(y, t).Some? {
      EventBusProofs.Extend(y.bus, Moves(y, t).value);
    }
  }

  lemma {:induction false} RunsInv(y: Sys, tasks: seq<Task>, y': Sys)
    requires SysInv(y) && Reachable(y.bus) && Runs(y, tasks, y')
    ensures SysInv(y') && Reachable(y'.bus)
    decreases |tasks|
  {
    if tasks != [] {
      SysStep(y, tasks[0]);
      BusReachable(y, tasks[0]);
      RunsInv(Do(y, tasks[0]), tasks[1..], y');
    }
  }

  // Every interleaving of the loop, the workers and the goroutines keeps the invariant, and what it does to
  // the event bus is a run of the event bus.
  lemma ArisesInv(y: Sys)
    requires Arises(y)
    ensures SysInv(y) && Reachable(y.bus)
  {
    var tasks, retain, stored :| Runs(InitSys(retain, stored), tasks, y);
    EventBusProofs.InitInv(retain, stored);
    assert Leads(Init(retain, stored), [], Init(retain, stored));
    RunsInv(InitSys(retain, stored), tasks, y);
  }

  lemma ExecFacts(y: Sys, x: nat)
    requires Arises(y) && x < |y.execs|
    ensures ExecOk(y.execs[x], y.bus) && Reachable(y.bus)
  {
    ArisesInv(y);
  }

  lemma NoteFacts(y: Sys, n: nat)
    requires Arises(y) && n < |y.owners|
    ensures n < |y.bus.emitted| && NoteOk(y, n)
  {
    ArisesInv(y);
  }

  // In the live part of a stream m comes before n.
  ghost predicate LiveInOrder(ch: Subscriber, m: nat, n: nat) {
    forall i, j :: (ch.replayed <= i < |ch.stream| && ch.stream[i] == Emitted(m)
                    && ch.replayed <= j < |ch.stream| && ch.stream[j] == Emitted(n)) ==> i < j
  }

  ghost predicate SeenInOrder(b: Bus, m: nat, n: nat) {
    forall c :: 0 <= c < |b.channels| ==> LiveInOrder(b.channels[c], m, n)
  }

  lemma SeenBefore(b: Bus, m: nat, n: nat)
    requires Reachable(b) && Before(b.ended, m, n)
    ensures SeenInOrder(b, m, n)
  {
    forall c | 0 <= c < |b.channels| ensures LiveInOrder(b.channels[c], m, n) {
      EventBusProofs.OrderOfEvents(b, c, m, n);
    }
  }

  // Main result: the exit of a container is notified only after the exits of all execs whose channels delete
  // took from the map, and every subscriber sees them in that order, for each of them whose channel no other
  // exec took.
  lemma InitExitAfterExecExits(y: Sys, i: nat, x: nat)
    requires Arises(y) && i < |y.inits| && y.inits[i].note.Some? && x < |y.execs|
    requires y.execs[x].ch in y.inits[i].waits && !Grabbed(y.execs, x)
    ensures ExitedBefore(y, x, y.inits[i].note.value)
    ensures SeenInOrder(y.bus, y.execs[x].exited.value, y.inits[i].note.value)
  {
    ArisesInv(y);
    SeenBefore(y.bus, y.execs[x].exited.value, y.inits[i].note.value);
  }

  // Main result: a registration of a container has at most one exit notification.
  lemma OneExitPerRegistration(y: Sys, m: nat, n: nat)
    requires Arises(y) && m < |y.owners| && n < |y.owners| && y.owners[m].InitOf? && y.owners[n].InitOf?
    ensures y.owners[m].i < |y.inits| && y.owners[n].i < |y.inits|
    ensures y.inits[y.owners[m].i].reg == y.inits[y.owners[n].i].reg ==> m == n
  {
    NoteFacts(y, m);
    NoteFacts(y, n);
    ArisesRegistered(y);
  }

  lemma ArisesRegistered(y: Sys)
    requires Arises(y)
    ensures Registered(y)
  {
    ArisesInv(y);
  }

  // Main result: an exec's exit is notified only after the notification of its start was over, and every
  // subscriber sees them in that order. Each is notified at most once.
  lemma StartBeforeExit(y: Sys, x: nat)
    requires Arises(y) && x < |y.execs| && y.execs[x].exited.Some?
    ensures y.execs[x].started.Some?
    ensures Before(y.bus.ended, y.execs[x].started.value, y.execs[x].exited.value)
    ensures SeenInOrder(y.bus, y.execs[x].started.value, y.execs[x].exited.value)
    ensures forall n :: 0 <= n < |y.owners| && y.owners[n] == StartOf(x) ==> n == y.execs[x].started.value
    ensures forall n :: 0 <= n < |y.owners| && y.owners[n] == ExitOf(x) ==> n == y.execs[x].exited.value
  {
    ExecFacts(y, x);
    SeenBefore(y.bus, y.execs[x].started.value, y.execs[x].exited.value);
    forall n | 0 <= n < |y.owners|
      ensures y.owners[n] == StartOf(x) ==> n == y.execs[x].started.value
      ensures y.owners[n] == ExitOf(x) ==> n == y.execs[x].exited.value
    {
      NoteFacts(y, n);
    }
  }

  // Main result: a failed monitor registration leaves no sync channel behind, neither in the map nor with a
  // waiting container exit, and no event was or will be notified for it.
  lemma RollbackLeavesNothing(y: Sys, x: nat)
    requires Arises(y) && x < |y.execs| && y.execs[x].stage == RolledBack
    ensures forall c, p :: c in y.sync && p in y.sync[c] ==> y.sync[c][p] != y.execs[x].ch
    ensures forall i :: 0 <= i < |y.inits| ==> y.execs[x].ch !in y.inits[i].waits
    ensures forall n :: 0 <= n < |y.owners| ==> y.owners[n] != StartOf(x) && y.owners[n] != ExitOf(x)
    ensures forall t :: CanTask(y, t) ==> x < |Do(y, t).execs| && Do(y, t).execs[x] == y.execs[x]
  {
    ArisesOwned(y);
    ExecFacts(y, x);
    forall n | 0 <= n < |y.owners| ensures y.owners[n] != StartOf(x) && y.owners[n] != ExitOf(x) {
      NoteFacts(y, n);
    }
    forall t | CanTask(y, t) ensures x < |Do(y, t).execs| && Do(y, t).execs[x] == y.execs[x] {
      ExecsOf(y, t);
    }
  }

  lemma ArisesOwned(y: Sys)
    requires Arises(y)
    ensures Owned(y)
  {
    ArisesInv(y);
  }

  // Main result: when an exit goroutine comes to its close, the close is safe exactly when it found a channel
  // in the map and no other goroutine that found the same one has closed it; otherwise the supervisor is gone.
  lemma CloseSafeExactly(y: Sys, x: nat)
    requires Arises(y) && CanTask(y, CloseSync(x))
    ensures var k, y' := y.execs[x].captured, Do(y, CloseSync(x));
      if k.Some? && forall z :: !ClosedBy(y.execs, k.value, z) then y'.crash.None? && y'.closed == y.closed + {k.value}
      else y'.crash.Some? && forall t :: !CanTask(y', t)
  {
    ArisesInv(y);
    var k := y.execs[x].captured;
    if k.Some? && k.value in y.closed {
      var z :| ClosedBy(y.execs, k.value, z);
    }
  }

  lemma {:induction false} RunsMore(y: Sys, tasks: seq<Task>, y': Sys, t: Task)
    requires Runs(y, tasks, y') && CanTask(y', t)
    ensures Runs(y, tasks + [t], Do(y', t))
    decreases |tasks|
  {
    if tasks == [] {
      assert Runs(Do(y, t), [], Do(y', t));
      assert (tasks + [t])[1..] == [];
    } else {
      RunsMore(Do(y, tasks[0]), tasks[1..], y', t);
      assert (tasks + [t])[1..] == tasks[1..] + [t];
    }
  }

  lemma Then(y: Sys, t: Task) returns (y': Sys)
    requires Arises(y) && CanTask(y, t)
    ensures y' == Do(y, t) && Arises(y')
  {
    var tasks, retain, stored :| Runs(InitSys(retain, stored), tasks, y);
    RunsMore(InitSys(retain, stored), tasks, y, t);
    y' := Do(y, t);
  }
}
