// When one exec can take the sync channel of another: only if an exec id is used again, under a later
// registration of the container id, while the process that had it still runs. An exec that was added when no
// such namesake was running is waited for, whatever happens afterwards.

module ExecReuse {
  import opened Wrappers
  import opened EventBus
  import opened ExecSync
  import opened ExecSyncProofs

  const IN_USE := {Created, Monitored, Starting, Running}

  // ---------------------------------------------------------------------------------------------
  // Invariants

  // Channels are numbered like the execs they were made for.
  ghost predicate Numbered(y: Sys) {
    y.chans == |y.execs| && forall x :: 0 <= x < |y.execs| ==> y.execs[x].ch == x
  }

  function Found(y: Sys, x: nat): Option<nat>
    requires x < |y.execs|
  {
    Lookup(y.sync, y.execs[x].cid, y.execs[x].pid)
  }

  // The map holds the channel of the newest exec of an id, and an exec whose channel is in the map found it
  // there when it exited.
  ghost predicate Latest(y: Sys) {
    forall x :: 0 <= x < |y.execs| && Found(y, x).Some? ==>
      && x <= Found(y, x).value
      && (Found(y, x) == Some(y.execs[x].ch) && y.execs[x].stage !in IN_USE ==>
            y.execs[x].captured == Some(y.execs[x].ch))
  }

  // Within one registration an id is used again only after the process that had it is removed.
  ghost predicate OneAtATime(execs: seq<Exec>) {
    forall x, z :: 0 <= x < z < |execs| && execs[x].reg == execs[z].reg && execs[x].pid == execs[z].pid ==>
      execs[x].stage !in IN_USE
  }

  ghost predicate ReuseOk(y: Sys) {
    Numbered(y) && Latest(y) && OneAtATime(y.execs)
  }

  lemma NumberedStep(y: Sys, t: Task)
    requires Numbered(y) && CanTask(y, t)
    ensures Numbered(Do(y, t))
  {
    ExecsOf(y, t);
    if !t.AddProcess? {
      SyncKept(y, t);
    }
  }

  lemma LatestAdded(y: Sys, cid: string, pid: string)
    requires Numbered(y) && Latest(y) && CanTask(y, AddProcess(cid, pid))
    ensures Latest(Do(y, AddProcess(cid, pid)))
  {
    var y' := Do(y, AddProcess(cid, pid));
    forall x | 0 <= x < |y.execs| ensures Found(y', x).Some? ==>
      Found(y', x) == Found(y, x) || (y'.crash.None? && Found(y', x) == Some(|y.execs|))
    {
      assert y'.execs[x] == y.execs[x];
    }
  }

  lemma LatestStep(y: Sys, t: Task)
    requires Owned(y) && Numbered(y) && Latest(y) && CanTask(y, t)
    ensures Latest(Do(y, t))
  {
    if t.AddProcess? {
      LatestAdded(y, t.cid, t.pid);
    } else {
      forall x | 0 <= x < |Do(y, t).execs| && Found(Do(y, t), x).Some?
        ensures x <= Found(Do(y, t), x).value
        ensures Found(Do(y, t), x) == Some(Do(y, t).execs[x].ch) && Do(y, t).execs[x].stage !in IN_USE ==>
                  Do(y, t).execs[x].captured == Some(Do(y, t).execs[x].ch)
      {
        LatestOf(y, t, x);
      }
    }
  }

  lemma LatestOf(y: Sys, t: Task, x: nat)
    requires Owned(y) && Numbered(y) && Latest(y) && CanTask(y, t) && !t.AddProcess?
    requires x < |Do(y, t).execs| && Found(Do(y, t), x).Some?
    ensures var y' := Do(y, t);
      && x <= Found(y', x).value
      && (Found(y', x) == Some(y'.execs[x].ch) && y'.execs[x].stage !in IN_USE ==>
            y'.execs[x].captured == Some(y'.execs[x].ch))
  {
    ExecsKept(y, t);
    SyncOf(y, t);
    assert Found(y, x) == Found(Do(y, t), x);
    ExecsOf(y, t);
    if t.MonitorFails? {
      RolledBackGone(y);
    }
  }

  lemma RolledBackGone(y: Sys)
    requires CanTask(y, MonitorFails)
    ensures y.loop.x < |Do(y, MonitorFails).execs| && Found(Do(y, MonitorFails), y.loop.x).None?
  {
  }

  // No stage before the exit is ever entered again.
  lemma UseEnds(y: Sys, t: Task, x: nat)
    requires CanTask(y, t) && x < |y.execs| && y.execs[x].stage !in IN_USE
    ensures x < |Do(y, t).execs| && Do(y, t).execs[x].stage !in IN_USE
  {
    ExecsOf(y, t);
  }

  lemma OneAtATimeStep(y: Sys, t: Task)
    requires OneAtATime(y.execs) && CanTask(y, t)
    ensures OneAtATime(Do(y, t).execs)
  {
    var execs' := Do(y, t).execs;
    ExecsKept(y, t);
    ExecsOf(y, t);
    forall x, z | 0 <= x < z < |execs'| && execs'[x].reg == execs'[z].reg && execs'[x].pid == execs'[z].pid
      ensures execs'[x].stage !in IN_USE
    {
      if z < |y.execs| {
        UseEnds(y, t, x);
      } else {
        assert !InUse(y, y.containers[t.cid], t.pid);
      }
    }
  }

  lemma ReuseStep(y: Sys, t: Task)
    requires SysInv(y) && ReuseOk(y) && CanTask(y, t)
    ensures ReuseOk(Do(y, t))
  {
    NumberedStep(y, t);
    LatestStep(y, t);
    OneAtATimeStep(y, t);
  }

  lemma {:induction false} RunsReuse(y: Sys, tasks: seq<Task>, y': Sys)
    requires SysInv(y) && ReuseOk(y) && Runs(y, tasks, y')
    ensures SysInv(y') && ReuseOk(y')
    decreases |tasks|
  {
    if tasks != [] {
      ReuseStep(y, tasks[0]);
      SysStep(y, tasks[0]);
      RunsReuse(Do(y, tasks[0]), tasks[1..], y');
    }
  }

  lemma ArisesReuse(y: Sys)
    requires Arises(y)
    ensures SysInv(y) && ReuseOk(y)
  {
    var tasks, retain, stored :| Runs(InitSys(retain, stored), tasks, y);
    var y0 := InitSys(retain, stored);
    assert Runs(y0, [], y0);
    ArisesInv(y0);
    RunsReuse(y0, tasks, y);
  }

  // ---------------------------------------------------------------------------------------------
  // Namesakes

  // An exec of this container id and exec id that has not exited yet.
  ghost predicate Namesake(execs: seq<Exec>, cid: string, pid: string, z: nat) {
    z < |execs| && execs[z].cid == cid && execs[z].pid == pid && execs[z].stage in IN_USE
  }

  // An exit that finds the channel of another exec finds that of a newer one, under another registration.
  lemma FoundOther(y: Sys, x: nat)
    requires Arises(y) && CanTask(y, Dispatch(x)) && Found(y, x).Some? && Found(y, x) != Some(y.execs[x].ch)
    ensures var z := Found(y, x).value;
      x < z < |y.execs| && y.execs[z].ch == z && y.execs[z].cid == y.execs[x].cid && y.execs[z].pid == y.execs[x].pid
      && y.execs[z].reg != y.execs[x].reg
  {
    ArisesReuse(y);
    var z := Found(y, x).value;
    assert z < y.chans && y.execs[z].ch == z;
  }

  // Nobody took the channel of x, and no older namesake is left that could.
  ghost predicate Safe(y: Sys, x: nat) {
    && x < |y.execs| && !Grabbed(y.execs, x)
    && forall z :: Namesake(y.execs, y.execs[x].cid, y.execs[x].pid, z) ==> x <= z
  }

  lemma NamesakeBefore(y: Sys, t: Task, cid: string, pid: string, z: nat)
    requires CanTask(y, t) && z < |y.execs| && Namesake(Do(y, t).execs, cid, pid, z)
    ensures Namesake(y.execs, cid, pid, z)
  {
    ExecsKept(y, t);
    if y.execs[z].stage !in IN_USE {
      UseEnds(y, t, z);
    }
  }

  // Only dispatching lets an exec take a channel.
  lemma GrabsOnlyDispatched(y: Sys, t: Task, z: nat)
    requires CanTask(y, t) && z < |Do(y, t).execs| && Do(y, t).execs[z].captured.Some?
    ensures z < |y.execs| && (Do(y, t).execs[z].captured == y.execs[z].captured || t == Dispatch(z))
  {
    ExecsOf(y, t);
  }

  lemma SafeDispatch(y: Sys, x: nat, z: nat)
    requires SysInv(y) && ReuseOk(y) && Safe(y, x) && CanTask(y, Dispatch(z)) && z != x
    ensures Do(y, Dispatch(z)).execs[z].captured != Some(y.execs[x].ch)
  {
    if Found(y, z) == Some(y.execs[x].ch) {
      assert y.execs[x].cid == y.execs[z].cid && y.execs[x].pid == y.execs[z].pid;
      assert Namesake(y.execs, y.execs[x].cid, y.execs[x].pid, z);
    }
  }

  lemma SafeStep(y: Sys, t: Task, x: nat)
    requires SysInv(y) && ReuseOk(y) && Safe(y, x) && CanTask(y, t)
    ensures Safe(Do(y, t), x)
  {
    StillUngrabbed(y, t, x);
    var y' := Do(y, t);
    ExecsKept(y, t);
    forall z: nat | Namesake(y'.execs, y'.execs[x].cid, y'.execs[x].pid, z) ensures x <= z {
      if z < x {
        NamesakeBefore(y, t, y.execs[x].cid, y.execs[x].pid, z);
      }
    }
  }

  lemma StillUngrabbed(y: Sys, t: Task, x: nat)
    requires SysInv(y) && ReuseOk(y) && Safe(y, x) && CanTask(y, t)
    ensures x < |Do(y, t).execs| && !Grabbed(Do(y, t).execs, x)
  {
    var y' := Do(y, t);
    ExecsKept(y, t);
    if Grabbed(y'.execs, x) {
      var z :| 0 <= z < |y'.execs| && z != x && y'.execs[z].captured == Some(y'.execs[x].ch);
      GrabsOnlyDispatched(y, t, z);
      if t == Dispatch(z) {
        SafeDispatch(y, x, z);
      }
    }
  }

  lemma {:induction false} SafeStays(y: Sys, tasks: seq<Task>, y': Sys, x: nat)
    requires SysInv(y) && ReuseOk(y) && Safe(y, x) && Runs(y, tasks, y')
    ensures Safe(y', x)
    decreases |tasks|
  {
    if tasks != [] {
      SafeStep(y, tasks[0], x);
      ReuseStep(y, tasks[0]);
      SysStep(y, tasks[0]);
      SafeStays(Do(y, tasks[0]), tasks[1..], y', x);
    }
  }

  // The exit of the container is notified although delete took the channel of x, whose exit was not, or not
  // completely, notified before.
  ghost predicate Overtaken(y: Sys, x: nat) {
    x < |y.execs| && exists i :: 0 <= i < |y.inits| && y.inits[i].note.Some? && y.execs[x].ch in y.inits[i].waits
                                 && !ExitedBefore(y, x, y.inits[i].note.value)
  }

  lemma SafeAdded(y: Sys, cid: string, pid: string)
    requires SysInv(y) && ReuseOk(y) && CanTask(y, AddProcess(cid, pid)) && cid in y.sync
    requires forall z :: !Namesake(y.execs, cid, pid, z)
    ensures Safe(Do(y, AddProcess(cid, pid)), |y.execs|)
  {
    var y' := Do(y, AddProcess(cid, pid));
    var x := |y.execs|;
    forall z | 0 <= z < |y'.execs| && z != x ensures y'.execs[z].captured != Some(y'.execs[x].ch) {
      assert y'.execs[z] == y.execs[z];
    }
    forall z: nat | Namesake(y'.execs, cid, pid, z) ensures x <= z {
      if z < x {
        NamesakeBefore(y, AddProcess(cid, pid), cid, pid, z);
      }
    }
  }

  // An exec that is added while no namesake runs is never overtaken.
  lemma NotOvertaken(y: Sys, cid: string, pid: string, tasks: seq<Task>, y': Sys)
    requires Arises(y) && CanTask(y, AddProcess(cid, pid)) && cid in y.sync
    requires forall z :: !Namesake(y.execs, cid, pid, z)
    requires Runs(Do(y, AddProcess(cid, pid)), tasks, y')
    ensures !Overtaken(y', |y.execs|)
  {
    var added := Do(y, AddProcess(cid, pid));
    ArisesReuse(y);
    SafeAdded(y, cid, pid);
    ReuseStep(y, AddProcess(cid, pid));
    SysStep(y, AddProcess(cid, pid));
    SafeStays(added, tasks, y', |y.execs|);
    RunsReuse(added, tasks, y');
  }
}
