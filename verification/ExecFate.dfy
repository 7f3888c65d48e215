// What is decided early: whether an exit goroutine will crash is fixed when the exit is handled, and whether the exit
// of a container waits for an exec depends on what happened to the map since the exec was added.

module ExecFate {
  import opened Wrappers
  import opened EventBus
  import opened ExecSync
  import opened ExecSyncProofs
  import opened ExecReuse
  import opened ExecOvertake

  // ---------------------------------------------------------------------------------------------
  // The close of an exit goroutine

  // Whenever the goroutine of exec x comes to its close, the supervisor crashes.
  ghost predicate AlwaysCrashes(y: Sys, x: nat) {
    forall tasks, y' :: Runs(y, tasks, y') && CanTask(y', CloseSync(x)) ==> Do(y', CloseSync(x)).crash.Some?
  }

  ghost predicate Doomed(y: Sys, x: nat) {
    && x < |y.execs| && y.execs[x].stage !in IN_USE
    && (y.execs[x].captured.Some? ==> y.execs[x].captured.value in y.closed)
  }

  lemma ClosedGrows(y: Sys, t: Task)
    requires CanTask(y, t)
    ensures y.closed <= Do(y, t).closed
  {
    if !t.CloseSync? {
      ClosedOf(y, t);
    }
  }

  lemma DoomedStep(y: Sys, t: Task, x: nat)
    requires Doomed(y, x) && CanTask(y, t)
    ensures Doomed(Do(y, t), x)
  {
    UseEnds(y, t, x);
    ClosedGrows(y, t);
    ExecsOf(y, t);
  }

  lemma {:induction false} DoomedRun(y: Sys, tasks: seq<Task>, y': Sys, x: nat)
    requires Doomed(y, x) && Runs(y, tasks, y')
    ensures Doomed(y', x)
    decreases |tasks|
  {
    if tasks != [] {
      DoomedStep(y, tasks[0], x);
      DoomedRun(Do(y, tasks[0]), tasks[1..], y', x);
    }
  }

  // A goroutine that found an open channel can close it, if nothing else comes first.
  lemma CanClose(y: Sys, x: nat) returns (y': Sys)
    requires Arises(y) && CanTask(y, Dispatch(x)) && !y.bus.wedged && y.execs[x].stage == Running
    requires Found(y, x).Some? && Found(y, x).value !in y.closed
    ensures Follows(Do(y, Dispatch(x)), y') && CanTask(y', CloseSync(x)) && Do(y', CloseSync(x)).crash.None?
  {
    var k := Found(y, x).value;
    DispatchDoes(y, x);
    ArisesSteady(y);
    SteadyStep(y, Dispatch(x));
    var y1 := Do(y, Dispatch(x));
    assert Runs(y1, [], y1);
    y' := NotifyIt(y1, y1, x);
    CloseSyncDoes(y', x, k);
  }

  // Main result: when an exit is handled, its goroutine will crash the supervisor in every continuation exactly when
  // it finds no channel or one that is closed already. (While the bus is blocked no goroutine comes to its close.)
  lemma FateAtDispatch(y: Sys, x: nat)
    requires Arises(y) && CanTask(y, Dispatch(x)) && !y.bus.wedged
    ensures AlwaysCrashes(Do(y, Dispatch(x)), x) <==> Found(y, x).None? || Found(y, x).value in y.closed
  {
    var y1 := Do(y, Dispatch(x));
    if Found(y, x).None? || Found(y, x).value in y.closed {
      StartsDoomed(y, x);
      forall tasks, y' | Runs(y1, tasks, y') && CanTask(y', CloseSync(x)) ensures Do(y', CloseSync(x)).crash.Some? {
        DoomedRun(y1, tasks, y', x);
      }
    } else {
      IdleMeansRunning(y, x);
      var y' := CanClose(y, x);
    }
  }

  lemma StartsDoomed(y: Sys, x: nat)
    requires CanTask(y, Dispatch(x)) && (Found(y, x).None? || Found(y, x).value in y.closed)
    ensures Doomed(Do(y, Dispatch(x)), x)
  {
  }

  lemma IdleMeansRunning(y: Sys, x: nat)
    requires Arises(y) && CanTask(y, Dispatch(x))
    ensures y.execs[x].stage == Running
  {
    ArisesSteady(y);
  }

  // ---------------------------------------------------------------------------------------------
  // What the exit of a container waits for

  // The task takes the channel of exec x out of the map: its id is added again, its map is made anew or taken, or an
  // exec of that id is rolled back.
  ghost predicate Removes(y: Sys, t: Task, x: nat)
    requires x < |y.execs|
  {
    var e := y.execs[x];
    match t
    case AddProcess(cid, pid) => cid == e.cid && pid == e.pid
    case WorkerMap(cid, _) => cid == e.cid
    case Delete(cid, noEvent) => cid == e.cid && !noEvent
    case MonitorFails =>
      y.loop.Adding? && y.loop.x < |y.execs| && y.execs[y.loop.x].cid == e.cid && y.execs[y.loop.x].pid == e.pid
    case _ => false
  }

  ghost predicate NeverRemoved(y: Sys, tasks: seq<Task>, x: nat)
    decreases |tasks|
  {
    tasks != [] && x < |y.execs| && CanTask(y, tasks[0]) ==>
      !Removes(y, tasks[0], x) && NeverRemoved(Do(y, tasks[0]), tasks[1..], x)
  }

  ghost predicate InMap(y: Sys, x: nat) {
    x < |y.execs| && Found(y, x) == Some(y.execs[x].ch)
  }

  lemma InMapStep(y: Sys, t: Task, x: nat)
    requires CanTask(y, t) && x < |y.execs| && y.execs[x].ch < y.chans
    ensures InMap(Do(y, t), x) <==> InMap(y, x) && !Removes(y, t, x)
  {
    ExecsKept(y, t);
    if t.WorkerMap? || t.MonitorFails? || t.Delete? {
      InMapLess(y, t, x);
    } else if !t.AddProcess? {
      SyncKept(y, t);
    }
  }

  lemma InMapLess(y: Sys, t: Task, x: nat)
    requires CanTask(y, t) && (t.WorkerMap? || t.MonitorFails? || t.Delete?) && x < |y.execs|
    ensures Lookup(Do(y, t).sync, y.execs[x].cid, y.execs[x].pid)
         == if Removes(y, t, x) then None else Found(y, x)
  {
  }

  lemma {:induction false} InMapRun(y: Sys, tasks: seq<Task>, y': Sys, x: nat)
    requires SysInv(y) && Runs(y, tasks, y') && x < |y.execs|
    ensures InMap(y', x) <==> InMap(y, x) && NeverRemoved(y, tasks, x)
    decreases |tasks|
  {
    if tasks != [] {
      InMapStep(y, tasks[0], x);
      ExecsKept(y, tasks[0]);
      SysStep(y, tasks[0]);
      InMapRun(Do(y, tasks[0]), tasks[1..], y', x);
    }
  }

  lemma InMapIsWaited(y: Sys, cid: string, x: nat)
    requires OwnEntries(y.execs, y.sync, y.chans) && x < |y.execs| && y.execs[x].cid == cid
    ensures y.execs[x].ch in Channels(y.sync, cid) <==> InMap(y, x)
  {
    if y.execs[x].ch in Channels(y.sync, cid) {
      var pid :| pid in y.sync[cid] && y.sync[cid][pid] == y.execs[x].ch;
    }
  }

  // Main result: the exit of a container waits for an exec exactly when its channel was never taken out of the map
  // since it was added.
  lemma WaitedForExactly(y: Sys, cid: string, pid: string, tasks: seq<Task>, y': Sys)
    requires Arises(y) && CanTask(y, AddProcess(cid, pid)) && cid in y.sync
    requires Runs(Do(y, AddProcess(cid, pid)), tasks, y') && CanTask(y', Delete(cid, false))
    ensures var x, added, gone := |y.execs|, Do(y, AddProcess(cid, pid)), Do(y', Delete(cid, false));
      && x < |y'.execs| && |gone.inits| == |y'.inits| + 1
      && (y'.execs[x].ch in gone.inits[|y'.inits|].waits <==> NeverRemoved(added, tasks, x))
  {
    var x := |y.execs|;
    var added := Added(y, cid, pid);
    AddedId(y, cid, pid);
    RunsSteady(added, tasks, y');
    SameId(added, tasks, y', x);
    InMapRun(added, tasks, y', x);
    InMapIsWaited(y', cid, x);
    TakesMap(y', cid);
  }

  lemma AddedId(y: Sys, cid: string, pid: string)
    requires CanTask(y, AddProcess(cid, pid)) && cid in y.sync
    ensures var added := Do(y, AddProcess(cid, pid));
      |added.execs| == |y.execs| + 1 && added.execs[|y.execs|].cid == cid && InMap(added, |y.execs|)
  {
  }

  lemma TakesMap(y: Sys, cid: string)
    requires CanTask(y, Delete(cid, false))
    ensures var gone := Do(y, Delete(cid, false));
      |gone.inits| == |y.inits| + 1 && gone.inits[|y.inits|].waits == Channels(y.sync, cid)
  {
  }

  lemma {:induction false} SameId(y: Sys, tasks: seq<Task>, y': Sys, x: nat)
    requires Runs(y, tasks, y') && x < |y.execs|
    ensures x < |y'.execs| && SameExec(y.execs[x], y'.execs[x])
    decreases |tasks|
  {
    if tasks != [] {
      ExecsKept(y, tasks[0]);
      SameId(Do(y, tasks[0]), tasks[1..], y', x);
    }
  }
}
