// The converse: an exec that is added while a namesake of an earlier registration still runs can be overtaken by
// the exit of its container, as long as notifications are possible at all. And when adding an exec panics.

module ExecOvertake {
  import opened Wrappers
  import opened EventBus
  import opened ExecSync
  import opened ExecSyncProofs
  import opened ExecReuse
  import EventBusProofs
  import Supervisor

  // ---------------------------------------------------------------------------------------------
  // Every exit under way is still being notified

  ghost predicate Linked(y: Sys) {
    && (forall x :: 0 <= x < |y.execs| && y.execs[x].exited.Some? ==>
          y.execs[x].exited.value < |y.owners| && y.owners[y.execs[x].exited.value] == ExitOf(x))
    && (forall x :: 0 <= x < |y.execs| && y.execs[x].started.Some? ==>
          y.execs[x].started.value < |y.owners| && y.owners[y.execs[x].started.value] == StartOf(x))
    && (forall i :: 0 <= i < |y.inits| && y.inits[i].note.Some? ==>
          y.inits[i].note.value < |y.owners| && y.owners[y.inits[i].note.value] == InitOf(i))
  }

  ghost predicate StillPending(y: Sys) {
    forall x :: 0 <= x < |y.execs| && y.execs[x].stage == Exiting ==>
      y.execs[x].exited.Some? && y.execs[x].exited.value in y.bus.pending
  }

  lemma LinkedStep(y: Sys, t: Task)
    requires |y.owners| == |y.bus.emitted| && Linked(y) && CanTask(y, t)
    ensures Linked(Do(y, t))
  {
    LinkedExits(y, t);
    LinkedStarts(y, t);
    LinkedInits(y, t);
  }

  lemma LinkedExits(y: Sys, t: Task)
    requires |y.owners| == |y.bus.emitted| && Linked(y) && CanTask(y, t)
    ensures var y' := Do(y, t);
      forall x :: 0 <= x < |y'.execs| && y'.execs[x].exited.Some? ==>
        y'.execs[x].exited.value < |y'.owners| && y'.owners[y'.execs[x].exited.value] == ExitOf(x)
  {
    OwnersOf(y, t);
    forall x | 0 <= x < |Do(y, t).execs| && Do(y, t).execs[x].exited.Some?
      ensures Do(y, t).execs[x].exited.value < |Do(y, t).owners|
      ensures Do(y, t).owners[Do(y, t).execs[x].exited.value] == ExitOf(x)
    {
      ExitedWhen(y, t, x);
    }
  }

  // An exit is notified when it begins, and not again.
  lemma ExitedWhen(y: Sys, t: Task, x: nat)
    requires CanTask(y, t) && x < |Do(y, t).execs| && Do(y, t).execs[x].exited.Some?
    ensures x < |y.execs|
    ensures || Do(y, t).execs[x].exited == y.execs[x].exited
            || (t.ExitBegin? && t.x == x && Do(y, t).execs[x].exited == Some(|y.bus.emitted|))
  {
    ExecsOf(y, t);
  }

  lemma StartedWhen(y: Sys, t: Task, x: nat)
    requires CanTask(y, t) && x < |Do(y, t).execs| && Do(y, t).execs[x].started.Some?
    ensures x < |y.execs|
    ensures || Do(y, t).execs[x].started == y.execs[x].started
            || (t.StartBegin? && y.loop == Adding(x) && Do(y, t).execs[x].started == Some(|y.bus.emitted|))
  {
    ExecsOf(y, t);
  }

  lemma LinkedStarts(y: Sys, t: Task)
    requires |y.owners| == |y.bus.emitted| && Linked(y) && CanTask(y, t)
    ensures var y' := Do(y, t);
      forall x :: 0 <= x < |y'.execs| && y'.execs[x].started.Some? ==>
        y'.execs[x].started.value < |y'.owners| && y'.owners[y'.execs[x].started.value] == StartOf(x)
  {
    OwnersOf(y, t);
    forall x | 0 <= x < |Do(y, t).execs| && Do(y, t).execs[x].started.Some?
      ensures Do(y, t).execs[x].started.value < |Do(y, t).owners|
      ensures Do(y, t).owners[Do(y, t).execs[x].started.value] == StartOf(x)
    {
      StartedWhen(y, t, x);
    }
  }

  lemma LinkedInits(y: Sys, t: Task)
    requires |y.owners| == |y.bus.emitted| && Linked(y) && CanTask(y, t)
    ensures var y' := Do(y, t);
      forall i :: 0 <= i < |y'.inits| && y'.inits[i].note.Some? ==>
        y'.inits[i].note.value < |y'.owners| && y'.owners[y'.inits[i].note.value] == InitOf(i)
  {
    OwnersOf(y, t);
    InitsOf(y, t);
  }

  // The notification that a task ends.
  lemma EndedBy(y: Sys, t: Task, n: nat)
    requires Timed(y.bus) && CanTask(y, t) && n in y.bus.pending && n !in Do(y, t).bus.pending
    ensures Moves(y, t) == Some(End(n))
  {
    BusOf(y, t);
  }

  lemma StillPendingStep(y: Sys, t: Task)
    requires Timed(y.bus) && Linked(y) && Execs(y) && LoopOk(y) && StillPending(y) && CanTask(y, t)
    ensures StillPending(Do(y, t))
  {
    ExecsOf(y, t);
    forall x | 0 <= x < |Do(y, t).execs| && Do(y, t).execs[x].stage == Exiting
      ensures Do(y, t).execs[x].exited.Some? && Do(y, t).execs[x].exited.value in Do(y, t).bus.pending
    {
      if x < |y.execs| && y.execs[x].stage == Exiting {
        if y.execs[x].exited.value !in Do(y, t).bus.pending {
          EndedBy(y, t, y.execs[x].exited.value);
        }
      } else {
        BusOf(y, t);
      }
    }
  }

  ghost predicate Steady(y: Sys) {
    SysInv(y) && ReuseOk(y) && Linked(y) && StillPending(y)
  }

  lemma SteadyStep(y: Sys, t: Task)
    requires Steady(y) && CanTask(y, t)
    ensures Steady(Do(y, t))
  {
    LinkedStep(y, t);
    StillPendingStep(y, t);
    ReuseStep(y, t);
    SysStep(y, t);
  }

  lemma {:induction false} RunsSteady(y: Sys, tasks: seq<Task>, y': Sys)
    requires Steady(y) && Runs(y, tasks, y')
    ensures Steady(y')
    decreases |tasks|
  {
    if tasks != [] {
      SteadyStep(y, tasks[0]);
      RunsSteady(Do(y, tasks[0]), tasks[1..], y');
    }
  }

  lemma ArisesSteady(y: Sys)
    requires Arises(y)
    ensures Steady(y)
  {
    var tasks, retain, stored :| Runs(InitSys(retain, stored), tasks, y);
    var y0 := InitSys(retain, stored);
    assert Runs(y0, [], y0);
    ArisesReuse(y0);
    RunsSteady(y0, tasks, y);
  }

  // ---------------------------------------------------------------------------------------------
  // Continuations

  ghost predicate Follows(y: Sys, y': Sys) {
    exists tasks :: Runs(y, tasks, y')
  }

  lemma Follow(y: Sys, y1: Sys, t: Task) returns (y2: Sys)
    requires Follows(y, y1) && CanTask(y1, t)
    ensures y2 == Do(y1, t) && Follows(y, y2)
  {
    var tasks :| Runs(y, tasks, y1);
    RunsMore(y, tasks, y1, t);
    y2 := Do(y1, t);
  }

  // What the continuation needs of the invariants.
  lemma SteadyLater(y: Sys, y1: Sys)
    requires Steady(y) && Follows(y, y1)
    ensures Steady(y1)
  {
    var tasks :| Runs(y, tasks, y1);
    RunsSteady(y, tasks, y1);
  }

  lemma SendReady(y: Sys, y1: Sys, n: nat, c: nat)
    requires Steady(y) && Follows(y, y1) && y1.crash.None? && n in y1.bus.pending && c in y1.bus.pending[n]
    ensures CanTask(y1, OnBus(Send(n, c)))
  {
    SteadyLater(y, y1);
    assert c in y1.bus.subscribed;
  }

  lemma EndReady(y: Sys, y1: Sys, x: nat)
    requires Steady(y) && Follows(y, y1) && x < |y1.execs| && y1.execs[x].stage == Exiting
    ensures y1.execs[x].exited.Some? && y1.execs[x].exited.value in y1.bus.pending
  {
    SteadyLater(y, y1);
  }

  // The rest of the sends of one notification.
  lemma {:induction false} SendRest(y: Sys, y1: Sys, n: nat) returns (y2: Sys)
    requires Steady(y) && Follows(y, y1) && y1.crash.None? && n in y1.bus.pending
    ensures Follows(y, y2) && y2 == y1.(bus := y2.bus) && Enabled(y2.bus, End(n)) && y2.bus.wedged == y1.bus.wedged
    decreases |y1.bus.pending[n]|
  {
    y2 := y1;
    if y1.bus.pending[n] != {} {
      var c :| c in y1.bus.pending[n];
      SendReady(y, y1, n, c);
      y2 := Follow(y, y1, OnBus(Send(n, c)));
      assert y2.bus.pending[n] == y1.bus.pending[n] - {c};
      y2 := SendRest(y, y2, n);
    }
  }

  // What the operations below leave alone.
  ghost predicate SameMaps(y: Sys, y': Sys) {
    && y'.containers == y.containers && y'.sync == y.sync && y'.inits == y.inits && y'.chans == y.chans
    && y'.crash == y.crash && y'.bus.wedged == y.bus.wedged && |y'.execs| == |y.execs|
  }

  ghost predicate SameExecsBut(y: Sys, y': Sys, x: nat) {
    SameMaps(y, y') && forall z :: 0 <= z < |y.execs| && z != x ==> y'.execs[z] == y.execs[z]
  }

  ghost predicate Ready(y: Sys) {
    y.crash.None? && y.loop == Free && !y.bus.wedged
  }

  // The single tasks.
  lemma DispatchDoes(y: Sys, x: nat)
    requires Ready(y) && IsExec(y, x, Running)
    ensures CanTask(y, Dispatch(x))
    ensures var y' := Do(y, Dispatch(x));
      Ready(y') && SameExecsBut(y, y', x) && y'.closed == y.closed
      && y'.execs[x] == y.execs[x].(stage := Waiting, captured := Found(y, x))
  {
  }

  lemma ExitBeginDoes(y: Sys, x: nat)
    requires Ready(y) && IsExec(y, x, Waiting)
    ensures CanTask(y, ExitBegin(x, 0))
    ensures var y' := Do(y, ExitBegin(x, 0));
      Ready(y') && SameExecsBut(y, y', x) && y'.closed == y.closed
      && y'.execs[x] == y.execs[x].(stage := Exiting, exited := Some(|y.bus.emitted|))
  {
  }

  lemma ExitEndDoes(y: Sys, x: nat)
    requires Ready(y) && IsExec(y, x, Exiting)
    requires y.execs[x].exited.Some? && Enabled(y.bus, End(y.execs[x].exited.value))
    ensures CanTask(y, ExitEnd(x))
    ensures var y' := Do(y, ExitEnd(x));
      Ready(y') && SameExecsBut(y, y', x) && y'.closed == y.closed && y'.execs[x] == y.execs[x].(stage := Notified)
  {
  }

  lemma CloseSyncDoes(y: Sys, x: nat, k: nat)
    requires Ready(y) && IsExec(y, x, Notified) && y.execs[x].captured == Some(k) && k !in y.closed
    ensures CanTask(y, CloseSync(x))
    ensures var y' := Do(y, CloseSync(x));
      Ready(y') && SameExecsBut(y, y', x) && y'.closed == y.closed + {k}
  {
  }

  lemma MonitorOkDoes(y: Sys, x: nat)
    requires y.crash.None? && !y.bus.wedged && y.loop == Adding(x) && IsExec(y, x, Created)
    ensures CanTask(y, MonitorOk)
    ensures var y' := Do(y, MonitorOk);
      y' == y.(execs := y'.execs) && SameExecsBut(y, y', x) && y'.execs[x] == y.execs[x].(stage := Monitored)
  {
  }

  lemma StartBeginDoes(y: Sys, x: nat)
    requires y.crash.None? && !y.bus.wedged && y.loop == Adding(x) && IsExec(y, x, Monitored)
    ensures CanTask(y, StartBegin(0))
    ensures var n, y' := |y.bus.emitted|, Do(y, StartBegin(0));
      y'.loop == y.loop && y'.closed == y.closed && SameExecsBut(y, y', x) && n in y'.bus.pending
      && y'.execs[x] == y.execs[x].(stage := Starting, started := Some(n))
  {
  }

  lemma StartEndDoes(y: Sys, x: nat)
    requires y.crash.None? && !y.bus.wedged && y.loop == Adding(x) && IsExec(y, x, Starting)
    requires y.execs[x].started.Some? && Enabled(y.bus, End(y.execs[x].started.value))
    ensures CanTask(y, StartEnd)
    ensures var y' := Do(y, StartEnd);
      Ready(y') && SameExecsBut(y, y', x) && y'.closed == y.closed && y'.execs[x] == y.execs[x].(stage := Running)
  {
  }

  // An exec whose exit is under way comes to its close.
  lemma NotifyIt(y: Sys, y1: Sys, x: nat) returns (y2: Sys)
    requires Steady(y) && Follows(y, y1) && Ready(y1) && x < |y1.execs| && y1.execs[x].stage in {Waiting, Exiting}
    ensures Follows(y, y2) && Ready(y2) && SameExecsBut(y1, y2, x) && y2.closed == y1.closed
    ensures IsExec(y2, x, Notified) && y2.execs[x].captured == y1.execs[x].captured
  {
    y2 := y1;
    if y1.execs[x].stage == Waiting {
      ExitBeginDoes(y1, x);
      y2 := Follow(y, y1, ExitBegin(x, 0));
    }
    EndReady(y, y2, x);
    y2 := SendRest(y, y2, y2.execs[x].exited.value);
    ExitEndDoes(y2, x);
    y2 := Follow(y, y2, ExitEnd(x));
  }

  // An exec exits, and its goroutine closes channel k, which it found or will find in the map.
  lemma Finish(y: Sys, y1: Sys, x: nat, k: nat) returns (y2: Sys)
    requires Steady(y) && Follows(y, y1) && Ready(y1) && x < |y1.execs| && k !in y1.closed
    requires y1.execs[x].stage in {Running, Waiting, Exiting, Notified}
    requires (if y1.execs[x].stage == Running then Found(y1, x) else y1.execs[x].captured) == Some(k)
    ensures Follows(y, y2) && Ready(y2) && SameExecsBut(y1, y2, x) && y2.closed == y1.closed + {k}
  {
    y2 := Notify(y, y1, x, k);
    CloseSyncDoes(y2, x, k);
    y2 := Follow(y, y2, CloseSync(x));
  }

  lemma Notify(y: Sys, y1: Sys, x: nat, k: nat) returns (y2: Sys)
    requires Steady(y) && Follows(y, y1) && Ready(y1) && x < |y1.execs|
    requires y1.execs[x].stage in {Running, Waiting, Exiting, Notified}
    requires (if y1.execs[x].stage == Running then Found(y1, x) else y1.execs[x].captured) == Some(k)
    ensures Follows(y, y2) && Ready(y2) && SameExecsBut(y1, y2, x) && y2.closed == y1.closed
    ensures IsExec(y2, x, Notified) && y2.execs[x].captured == Some(k)
  {
    y2 := HandleExit(y, y1, x, k);
    if y2.execs[x].stage != Notified {
      y2 := NotifyIt(y, y2, x);
    }
  }

  lemma HandleExit(y: Sys, y1: Sys, x: nat, k: nat) returns (y2: Sys)
    requires Follows(y, y1) && Ready(y1) && x < |y1.execs|
    requires y1.execs[x].stage in {Running, Waiting, Exiting, Notified}
    requires (if y1.execs[x].stage == Running then Found(y1, x) else y1.execs[x].captured) == Some(k)
    ensures Follows(y, y2) && Ready(y2) && SameExecsBut(y1, y2, x) && y2.closed == y1.closed
    ensures y2.execs[x].stage in {Waiting, Exiting, Notified} && y2.execs[x].captured == Some(k)
  {
    y2 := y1;
    if y1.execs[x].stage == Running {
      DispatchDoes(y1, x);
      y2 := Follow(y, y1, Dispatch(x));
    }
  }

  // The owner of an open channel in the map can still close it.
  lemma OwnerCloses(y: Sys, y1: Sys, cid: string, k: nat)
    requires Steady(y) && Follows(y, y1) && Ready(y1) && k in Channels(y1.sync, cid) && k !in y1.closed
    ensures k < |y1.execs| && y1.execs[k].ch == k && y1.execs[k].stage in {Running, Waiting, Exiting, Notified}
    ensures (if y1.execs[k].stage == Running then Found(y1, k) else y1.execs[k].captured) == Some(k)
  {
    SteadyLater(y, y1);
    OwnerOf(y1, cid, k);
    OwnerStage(y1, k);
  }

  lemma OwnerOf(y: Sys, cid: string, k: nat)
    requires Numbered(y) && OwnEntries(y.execs, y.sync, y.chans) && k in Channels(y.sync, cid)
    ensures k < |y.execs| && y.execs[k].ch == k && Found(y, k) == Some(k) && y.execs[k].stage != RolledBack
  {
    var pid :| pid in y.sync[cid] && y.sync[cid][pid] == k;
    assert y.execs[k].ch == k;
    assert y.execs[k].cid == cid && y.execs[k].pid == pid;
  }

  lemma OwnerStage(y: Sys, k: nat)
    requires LoopOk(y) && Latest(y) && Captures(y) && y.loop == Free && k < |y.execs| && k !in y.closed
    requires y.execs[k].ch == k && Found(y, k) == Some(k) && y.execs[k].stage != RolledBack
    ensures y.execs[k].stage in {Running, Waiting, Exiting, Notified}
    ensures y.execs[k].stage != Running ==> y.execs[k].captured == Some(k)
  {
  }

  // All other channels that delete will take can be closed while x runs on.
  lemma {:induction false} CloseAll(y: Sys, y1: Sys, cid: string, x: nat) returns (y2: Sys)
    requires Steady(y) && Follows(y, y1) && Ready(y1) && x < |y1.execs| && x in y1.closed
    ensures Follows(y, y2) && Ready(y2) && SameMaps(y1, y2) && y2.execs[x] == y1.execs[x]
    ensures Channels(y1.sync, cid) <= y2.closed
    decreases |Channels(y1.sync, cid) - y1.closed|
  {
    y2 := y1;
    var open := Channels(y1.sync, cid) - y1.closed;
    if open != {} {
      var k :| k in open;
      OwnerCloses(y, y1, cid, k);
      y2 := Finish(y, y1, k, k);
      assert Channels(y2.sync, cid) - y2.closed == open - {k};
      y2 := CloseAll(y, y2, cid, x);
    } else {
      AllIn(Channels(y1.sync, cid), y1.closed);
    }
  }

  lemma AllIn(a: set<nat>, b: set<nat>)
    requires a - b == {}
    ensures a <= b
  {
    forall k | k in a ensures k in b {
      assert k !in a - b;
    }
  }

  // A new exec starts up.
  lemma StartUp(y: Sys, y1: Sys, x: nat) returns (y2: Sys)
    requires Steady(y) && Follows(y, y1) && y1.crash.None? && !y1.bus.wedged
    requires y1.loop == Adding(x) && IsExec(y1, x, Created)
    ensures Follows(y, y2) && Ready(y2) && SameExecsBut(y1, y2, x) && y2.closed == y1.closed
    ensures IsExec(y2, x, Running) && y2.execs[x].ch == y1.execs[x].ch && y2.execs[x].exited == y1.execs[x].exited
  {
    MonitorOkDoes(y1, x);
    y2 := Follow(y, y1, MonitorOk);
    StartBeginDoes(y2, x);
    y2 := Follow(y, y2, StartBegin(0));
    y2 := SendRest(y, y2, y2.execs[x].started.value);
    StartEndDoes(y2, x);
    y2 := Follow(y, y2, StartEnd);
  }

  // The container exits.
  lemma DeleteDoes(y: Sys, cid: string)
    requires Ready(y) && cid in y.containers && Channels(y.sync, cid) <= y.closed
    ensures CanTask(y, Delete(cid, false))
    ensures var y', i := Do(y, Delete(cid, false)), |y.inits|;
      y'.execs == y.execs && CanTask(y', InitBegin(i, 0)) && y'.inits[i].waits == Channels(y.sync, cid)
  {
  }

  lemma InitBeginDoes(y: Sys, i: nat, x: nat)
    requires CanTask(y, InitBegin(i, 0)) && x < |y.execs|
    requires y.execs[x].ch in y.inits[i].waits && y.execs[x].exited.None?
    ensures Overtaken(Do(y, InitBegin(i, 0)), x)
  {
    var y' := Do(y, InitBegin(i, 0));
    assert y'.inits[i].note.Some? && !ExitedBefore(y', x, y'.inits[i].note.value);
  }

  lemma InitExits(y: Sys, y1: Sys, cid: string, x: nat) returns (y2: Sys)
    requires Follows(y, y1) && Ready(y1) && cid in y1.containers && Channels(y1.sync, cid) <= y1.closed
    requires x < |y1.execs| && y1.execs[x].ch in Channels(y1.sync, cid) && y1.execs[x].exited.None?
    ensures Follows(y, y2) && Overtaken(y2, x)
  {
    DeleteDoes(y1, cid);
    y2 := Follow(y, y1, Delete(cid, false));
    InitBeginDoes(y2, |y1.inits|, x);
    y2 := Follow(y, y2, InitBegin(|y1.inits|, 0));
  }

  lemma Added(y: Sys, cid: string, pid: string) returns (y1: Sys)
    requires Arises(y) && CanTask(y, AddProcess(cid, pid)) && cid in y.sync
    ensures y1 == Do(y, AddProcess(cid, pid)) && Steady(y1) && Follows(y1, y1)
    ensures y1.crash.None? && y1.bus == y.bus && y1.loop == Adding(|y.execs|) && IsExec(y1, |y.execs|, Created)
    ensures y1.containers == y.containers && y1.inits == y.inits && y1.execs[..|y.execs|] == y.execs
    ensures Lookup(y1.sync, cid, pid) == Some(|y.execs|)
    ensures y1.execs[|y.execs|].ch == |y.execs| && y1.execs[|y.execs|].exited.None?
    ensures |y.execs| !in y1.closed && forall i :: 0 <= i < |y.inits| ==> |y.execs| !in y.inits[i].waits
  {
    ArisesSteady(y);
    y1 := Do(y, AddProcess(cid, pid));
    SteadyStep(y, AddProcess(cid, pid));
    assert Runs(y1, [], y1);
    Unclosed(y);
  }

  lemma Unclosed(y: Sys)
    requires Steady(y)
    ensures y.chans == |y.execs| && |y.execs| !in y.closed
    ensures forall i :: 0 <= i < |y.inits| ==> |y.execs| !in y.inits[i].waits
  {
    forall k | k in y.closed ensures k < y.chans {
      var z :| ClosedBy(y.execs, k, z);
    }
  }

  // A namesake that still runs when an exec is added can take its channel, close it, and let the exit of the
  // container pass it.
  lemma CanBeOvertaken(y: Sys, cid: string, pid: string, z: nat) returns (y': Sys)
    requires Arises(y) && CanTask(y, AddProcess(cid, pid)) && cid in y.sync && !y.bus.wedged
    requires Namesake(y.execs, cid, pid, z)
    ensures Follows(Do(y, AddProcess(cid, pid)), y') && Overtaken(y', |y.execs|)
  {
    var x := |y.execs|;
    NamesakeRuns(y, cid, pid, z);
    var y1 := Added(y, cid, pid);
    assert y1.execs[z] == y1.execs[..x][z];
    var y2 := StartUp(y1, y1, x);
    var y3 := Finish(y1, y2, z, x);
    var y4 := CloseAll(y1, y3, cid, x);
    assert x in Channels(y4.sync, cid);
    y' := InitExits(y1, y4, cid, x);
  }

  // The loop is idle, so nothing is being added.
  lemma NamesakeRuns(y: Sys, cid: string, pid: string, z: nat)
    requires Arises(y) && y.loop == Free && Namesake(y.execs, cid, pid, z)
    ensures y.execs[z].stage == Running
  {
    ArisesSteady(y);
  }

  // ---------------------------------------------------------------------------------------------
  // Main results

  // Some continuation lets the exit of its container overtake the exec that is added.
  ghost predicate MayBeOvertaken(y: Sys, cid: string, pid: string)
    requires CanTask(y, AddProcess(cid, pid))
  {
    exists tasks, y' :: Runs(Do(y, AddProcess(cid, pid)), tasks, y') && Overtaken(y', |y.execs|)
  }

  // At the moment an exec is added: the exit of its container may overtake it exactly when a namesake still
  // runs (and the bus is not blocked, so that anything is notified at all).
  lemma OvertakenExactly(y: Sys, cid: string, pid: string)
    requires Arises(y) && CanTask(y, AddProcess(cid, pid)) && cid in y.sync
    ensures MayBeOvertaken(y, cid, pid) <==> !y.bus.wedged && exists z: nat :: Namesake(y.execs, cid, pid, z)
  {
    if MayBeOvertaken(y, cid, pid) {
      OnlyIfNamesake(y, cid, pid);
    }
    if !y.bus.wedged && exists z: nat :: Namesake(y.execs, cid, pid, z) {
      var z: nat :| Namesake(y.execs, cid, pid, z);
      var y' := CanBeOvertaken(y, cid, pid, z);
    }
  }

  lemma OnlyIfNamesake(y: Sys, cid: string, pid: string)
    requires Arises(y) && CanTask(y, AddProcess(cid, pid)) && cid in y.sync && MayBeOvertaken(y, cid, pid)
    ensures !y.bus.wedged && exists z: nat :: Namesake(y.execs, cid, pid, z)
  {
    var tasks, y' :| Runs(Do(y, AddProcess(cid, pid)), tasks, y') && Overtaken(y', |y.execs|);
    if y.bus.wedged {
      Blocked(y, cid, pid, tasks, y');
    }
    if forall z: nat :: !Namesake(y.execs, cid, pid, z) {
      NotOvertaken(y, cid, pid, tasks, y');
    }
  }

  // While the bus is blocked no exit is notified.
  lemma Blocked(y: Sys, cid: string, pid: string, tasks: seq<Task>, y': Sys)
    requires Arises(y) && CanTask(y, AddProcess(cid, pid)) && cid in y.sync && y.bus.wedged
    requires Runs(Do(y, AddProcess(cid, pid)), tasks, y')
    ensures !Overtaken(y', |y.execs|)
  {
    var added := Added(y, cid, pid);
    BlockedRun(added, tasks, y', |y.execs|);
  }

  // No container exit that was notified waited for exec x.
  ghost predicate NoneWaits(y: Sys, x: nat) {
    x < |y.execs| && forall i :: 0 <= i < |y.inits| && y.inits[i].note.Some? ==> y.execs[x].ch !in y.inits[i].waits
  }

  lemma BlockedStep(y: Sys, t: Task, x: nat)
    requires y.bus.wedged && NoneWaits(y, x) && CanTask(y, t)
    ensures Do(y, t).bus.wedged && NoneWaits(Do(y, t), x)
  {
    BusOf(y, t);
    ExecsKept(y, t);
    InitsOf(y, t);
  }

  lemma {:induction false} BlockedRun(y: Sys, tasks: seq<Task>, y': Sys, x: nat)
    requires y.bus.wedged && NoneWaits(y, x) && Runs(y, tasks, y')
    ensures NoneWaits(y', x)
    decreases |tasks|
  {
    if tasks != [] {
      BlockedStep(y, tasks[0], x);
      BlockedRun(Do(y, tasks[0]), tasks[1..], y', x);
    }
  }

  // ---------------------------------------------------------------------------------------------
  // Adding an exec without a map

  // Whether the last thing that concerned the container's map made it: a worker that had started the container,
  // rather than the handling of its exit.
  function MapMade(tasks: seq<Task>, cid: string, made: bool): bool {
    if tasks == [] then made
    else
      var after := match tasks[0]
        case WorkerMap(c, _) => made || c == cid
        case Delete(c, noEvent) => made && (c != cid || noEvent)
        case _ => made;
      MapMade(tasks[1..], cid, after)
  }

  lemma MapStep(y: Sys, t: Task, cid: string)
    requires CanTask(y, t)
    ensures cid in Do(y, t).sync <==> match t
      case WorkerMap(c, _) => cid in y.sync || c == cid
      case Delete(c, noEvent) => cid in y.sync && (c != cid || noEvent)
      case _ => cid in y.sync
  {
  }

  lemma {:induction false} MapMadeIs(y: Sys, tasks: seq<Task>, y': Sys, cid: string)
    requires Runs(y, tasks, y')
    ensures cid in y'.sync <==> MapMade(tasks, cid, cid in y.sync)
    decreases |tasks|
  {
    if tasks != [] {
      MapStep(y, tasks[0], cid);
      MapMadeIs(Do(y, tasks[0]), tasks[1..], y', cid);
    }
  }

  // After any run, adding an exec panics exactly when no worker has made the container's map since its exit was
  // last handled, as when the container is registered but its worker has not started it yet.
  lemma AddPanicsExactly(retain: nat, stored: seq<Event>, tasks: seq<Task>, y: Sys, cid: string, pid: string)
    requires Runs(InitSys(retain, stored), tasks, y) && CanTask(y, AddProcess(cid, pid))
    ensures Do(y, AddProcess(cid, pid)).crash == Some(NilMapWrite) <==> !MapMade(tasks, cid, false)
  {
    MapMadeIs(InitSys(retain, stored), tasks, y, cid);
  }

  // ---------------------------------------------------------------------------------------------
  // Examples

  lemma StartedContainer() returns (y: Sys)
    ensures Arises(y) && y == InitSys(0, []).(containers := map["c" := 0], regs := 1, sync := map["c" := map[]])
  {
    y := InitSys(0, []);
    assert Runs(y, [], y);
    y := Then(y, Register("c"));
    y := Then(y, WorkerMap("c", 0));
    assert y.workers == {};
  }

  lemma OneRunning() returns (y: Sys)
    ensures Supervisor.Quiet(y) && y.loop == Free && y.containers == map["c" := 0]
    ensures y.regs == 1 && y.workers == {} && y.sync == map["c" := map["p" := 0]]
    ensures y.execs == [Exec("c", "p", 0, 0, Running, Some(0), None, None)]
  {
    y := StartedContainer();
    Supervisor.AddedArises(y, "c", "p", true, 1);
    y := Supervisor.Added(y, "c", "p", true, 1).0;
    assert y.execs[0] == Exec("c", "p", 0, 0, Running, Some(0), None, None);
  }

  // An exec whose exit is handled after that of its container has nothing to close and crashes the supervisor.
  lemma LateExitCanCrash()
    ensures exists y :: Arises(y) && y.crash == Some(CloseOfNil)
  {
    var y := OneRunning();
    y := Then(y, Delete("c", false));
    y := Then(y, Dispatch(0));
    CrashesLate(y);
  }

  lemma CrashesLate(y: Sys)
    requires Supervisor.Quiet(y) && y.execs == [Exec("c", "p", 0, 0, Waiting, Some(0), None, None)]
    ensures exists y :: Arises(y) && y.crash == Some(CloseOfNil)
  {
    Supervisor.ExitedArises(y, 0, 2);
    assert Supervisor.Exited(y, 0, 2).crash == Some(CloseOfNil);
  }

  // A container is registered again while an exec of its previous registration runs. An exec of the same id that
  // is added now may be overtaken.
  lemma ReuseBreaksOrder()
    ensures exists y :: Arises(y) && CanTask(y, AddProcess("c", "p")) && MayBeOvertaken(y, "c", "p")
  {
    var y := OneRunning();
    y := Then(y, Delete("c", false));
    y := Then(y, Register("c"));
    y := Then(y, WorkerMap("c", 1));
    assert Namesake(y.execs, "c", "p", 0);
    OvertakenExactly(y, "c", "p");
  }
}
