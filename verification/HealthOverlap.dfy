// What overlapping stops can do, and exactly when; when more than one monitor goroutine lives; and that an operation
// without interference is a run.

module HealthOverlap {
  import opened Wrappers
  import opened Health
  import opened HealthChannels

  // ---------------------------------------------------------------------------------------------
  // Building runs

  lemma {:induction false} WithinMore(config: Config, n: nat, s: Sys, steps: seq<Step>, t: Sys, step: Step)
    requires LeadsWithin(config, n, s, steps, t) && Enabled(config, t, step) && Busy(Next(config, t, step)) <= n
    ensures LeadsWithin(config, n, s, steps + [step], Next(config, t, step))
    decreases |steps|
  {
    if steps == [] {
      assert LeadsWithin(config, n, Next(config, t, step), [], Next(config, t, step));
      assert (steps + [step])[1..] == [];
    } else {
      WithinMore(config, n, Next(config, s, steps[0]), steps[1..], t, step);
      assert (steps + [step])[1..] == steps[1..] + [step];
    }
  }

  lemma Go(config: Config, n: nat, s: Sys, step: Step) returns (t: Sys)
    requires ReachableWithin(config, n, s) && Enabled(config, s, step) && Busy(Next(config, s, step)) <= n
    ensures t == Next(config, s, step) && ReachableWithin(config, n, t)
  {
    var steps :| LeadsWithin(config, n, START, steps, s);
    WithinMore(config, n, START, steps, s, step);
    t := Next(config, s, step);
  }

  lemma {:induction false} BusyAtMost(calls: seq<seq<Todo>>)
    ensures Count(IsBusy, calls) <= |calls|
  {
    if calls != [] {
      BusyAtMost(calls[..|calls| - 1]);
    }
  }

  lemma {:induction false} WithinLooser(config: Config, n: nat, s: Sys, steps: seq<Step>, t: Sys, more: nat)
    requires LeadsWithin(config, n, s, steps, t) && n <= more
    ensures LeadsWithin(config, more, s, steps, t)
    decreases |steps|
  {
    if steps != [] {
      WithinLooser(config, n, Next(config, s, steps[0]), steps[1..], t, more);
    }
  }

  lemma ReachableLooser(config: Config, n: nat, s: Sys, more: nat)
    requires ReachableWithin(config, n, s) && n <= more
    ensures ReachableWithin(config, more, s)
  {
    var steps :| LeadsWithin(config, n, START, steps, s);
    WithinLooser(config, n, START, steps, s, more);
  }

  // The event being handled goes on, with nothing else under way.
  lemma Ahead(config: Config, s: Sys) returns (t: Sys)
    requires ReachableWithin(config, 1, s) && !s.c.crashed && s.event != []
    ensures ReachableWithin(config, 1, t)
    ensures t == Carry(s, s.event[0]).(event := After(config, s.c, s.event))
  {
    var steps :| LeadsWithin(config, 1, START, steps, s);
    WithinEnd(config, 1, START, steps, s);
    t := Go(config, 1, s, Advance);
  }

  lemma {:induction false} WithinEnd(config: Config, n: nat, s: Sys, steps: seq<Step>, t: Sys)
    requires LeadsWithin(config, n, s, steps, t)
    ensures Busy(t) <= n
    decreases |steps|
  {
    if steps != [] {
      WithinEnd(config, n, Next(config, s, steps[0]), steps[1..], t);
    }
  }

  // ---------------------------------------------------------------------------------------------
  // Two examples of states

  lemma Initialised(config: Config) returns (s: Sys)
    requires GetProbe(config).Some?
    ensures ReachableWithin(config, 1, s) && s.event == [Decide] && s.locked && s.stops == [] && s.monitors == []
    ensures s.c == Container(true, false, 0, Some(Health(Starting, 0, [])), None, [], false)
  {
    assert LeadsWithin(config, 1, START, [], START);
    s := Go(config, 1, START, Assign(true, false, 0));
    s := Go(config, 1, s, Event(InitCall(config), true));
    s := Ahead(config, s);
    s := Ahead(config, s);
  }

  lemma Monitored(config: Config) returns (s: Sys)
    requires GetProbe(config).Some?
    ensures ReachableWithin(config, 1, s) && s.event == [] && s.stops == [] && s.monitors == [Monitor(0, Idle)]
    ensures s.c == Container(true, false, 0, Some(Health(Starting, 0, [])), Some(0), [false], false)
  {
    s := Initialised(config);
    s := Ahead(config, s);
    assert s.event == [TestOpen];
    s := Ahead(config, s);
    assert s.event == [Make];
    s := Ahead(config, s);
    assert s.event == [Start] && s.c.closed == [false];
    s := Ahead(config, s);
  }

  // ---------------------------------------------------------------------------------------------
  // Overlapping stops

  // Nothing is under way.
  ghost predicate Quiet(s: Sys) {
    !s.c.crashed && s.event == [] && LockFree(s) && forall k :: 0 <= k < |s.stops| ==> s.stops[k] == []
  }

  // Only calls of containerStop.
  ghost predicate OnlyStops(steps: seq<Step>) {
    forall i :: 0 <= i < |steps| ==> steps[i] == EnterStop || steps[i].AdvanceStop?
  }

  ghost predicate StopsCanCrash(config: Config, s: Sys) {
    exists steps, t :: OnlyStops(steps) && Leads(config, s, steps, t) && t.c.crashed
  }

  // There is nothing to stop, or nobody stops.
  ghost predicate NothingStored(s: Sys) {
    && !s.c.crashed && (s.c.health.None? || s.c.stop.None? || !s.c.running)
    && forall k :: 0 <= k < |s.stops| ==> s.stops[k] == [] || (s.c.running && s.stops[k] == [TestClose])
  }

  lemma {:induction false} NothingToStop(config: Config, s: Sys, steps: seq<Step>, t: Sys)
    requires NothingStored(s) && OnlyStops(steps) && Leads(config, s, steps, t)
    ensures !t.c.crashed
    decreases |steps|
  {
    if steps != [] {
      assert OnlyStops(steps[1..]);
      NothingToStop(config, Next(config, s, steps[0]), steps[1..], t);
    }
  }

  lemma {:induction false} LeadsMore(config: Config, s: Sys, steps: seq<Step>, t: Sys, step: Step)
    requires Leads(config, s, steps, t) && Enabled(config, t, step)
    ensures Leads(config, s, steps + [step], Next(config, t, step))
    decreases |steps|
  {
    if steps == [] {
      assert Leads(config, Next(config, t, step), [], Next(config, t, step));
      assert (steps + [step])[1..] == [];
    } else {
      LeadsMore(config, Next(config, s, steps[0]), steps[1..], t, step);
      assert (steps + [step])[1..] == steps[1..] + [step];
    }
  }

  // Both calls have found a stored channel: the second close meets it closed, or meets none.
  lemma BothClose(config: Config, s: Sys, k: nat) returns (steps: seq<Step>, t: Sys)
    requires !s.c.crashed && k + 1 < |s.stops| && s.stops[k] == s.stops[k + 1] == [CloseStored, Clear]
    ensures steps == [AdvanceStop(k)] || steps == [AdvanceStop(k), AdvanceStop(k + 1)]
    ensures Leads(config, s, steps, t) && t.c.crashed
  {
    assert Leads(config, s, [], s);
    LeadsMore(config, s, [], s, AdvanceStop(k));
    steps, t := [] + [AdvanceStop(k)], Next(config, s, AdvanceStop(k));
    if !t.c.crashed {
      LeadsMore(config, s, steps, t, AdvanceStop(k + 1));
      steps, t := steps + [AdvanceStop(k + 1)], Next(config, t, AdvanceStop(k + 1));
    }
  }

  // Two stops enter and test the field.
  lemma BothTest(config: Config, s: Sys) returns (steps: seq<Step>, t: Sys)
    requires Quiet(s) && s.c.running && s.c.health.Some? && s.c.stop.Some?
    ensures OnlyStops(steps) && Leads(config, s, steps, t) && t.c == s.c
    ensures t.stops == s.stops + [[CloseStored, Clear]] + [[CloseStored, Clear]]
  {
    var k := |s.stops|;
    assert Leads(config, s, [], s);
    LeadsMore(config, s, [], s, EnterStop);
    var t1, s1 := Next(config, s, EnterStop), [] + [EnterStop];
    LeadsMore(config, s, s1, t1, EnterStop);
    var t2, s2 := Next(config, t1, EnterStop), s1 + [EnterStop];
    LeadsMore(config, s, s2, t2, AdvanceStop(k));
    var t3, s3 := Next(config, t2, AdvanceStop(k)), s2 + [AdvanceStop(k)];
    assert [CloseStored, Clear] + StopCall()[1..] == [CloseStored, Clear];
    assert t3.stops == s.stops + [[CloseStored, Clear]] + [StopCall()];
    LeadsMore(config, s, s3, t3, AdvanceStop(k + 1));
    steps, t := s3 + [AdvanceStop(k + 1)], Next(config, t3, AdvanceStop(k + 1));
  }

  lemma {:induction false} LeadsBoth(config: Config, s: Sys, a: seq<Step>, t: Sys, b: seq<Step>, u: Sys)
    requires Leads(config, s, a, t) && Leads(config, t, b, u)
    ensures Leads(config, s, a + b, u)
    decreases |a|
  {
    if a == [] {
      assert a + b == b;
    } else {
      LeadsBoth(config, Next(config, s, a[0]), a[1..], t, b, u);
      assert (a + b)[1..] == a[1..] + b;
    }
  }

  // Main result: from a quiet state, calls of containerStop can close a channel twice and crash the daemon exactly
  // when the container runs and a channel is stored.
  lemma StopsCrashExactly(config: Config, s: Sys)
    requires Quiet(s)
    ensures StopsCanCrash(config, s) <==> s.c.running && s.c.health.Some? && s.c.stop.Some?
  {
    if s.c.running && s.c.health.Some? && s.c.stop.Some? {
      var a, t := BothTest(config, s);
      var b, u := BothClose(config, t, |s.stops|);
      LeadsBoth(config, s, a, t, b, u);
      assert OnlyStops(a + b);
    } else {
      forall steps, t | OnlyStops(steps) && Leads(config, s, steps, t) ensures !t.c.crashed {
        NothingToStop(config, s, steps, t);
      }
    }
  }

  // ---------------------------------------------------------------------------------------------
  // When a close is safe

  // What a step does to the stored channel, if anything.
  ghost function Touch(config: Config, s: Sys, step: Step): Option<Todo>
    requires Enabled(config, s, step)
  {
    match step
    case Advance => if s.event[0] in {CloseStored, Clear, Make} then Some(s.event[0]) else None
    case AdvanceStop(k) => if s.stops[k][0] in {CloseStored, Clear, Make} then Some(s.stops[k][0]) else None
    case _ => None
  }

  // The last such thing in a run, or `last` if there is none.
  ghost function LastTouch(config: Config, s: Sys, steps: seq<Step>, last: Option<Todo>): Option<Todo>
    decreases |steps|
  {
    if steps == [] || !Enabled(config, s, steps[0]) then last
    else
      var touch := Touch(config, s, steps[0]);
      LastTouch(config, Next(config, s, steps[0]), steps[1..], if touch.Some? then touch else last)
  }

  lemma TouchStep(config: Config, s: Sys, step: Step)
    requires Enabled(config, s, step)
    ensures var touch, open := Touch(config, s, step), StoredIsOpen(Next(config, s, step).c);
      open == if touch.None? then StoredIsOpen(s.c) else touch == Some(Make)
  {
  }

  lemma {:induction false} OpenSince(config: Config, s: Sys, steps: seq<Step>, t: Sys, last: Option<Todo>)
    requires Leads(config, s, steps, t) && (StoredIsOpen(s.c) <==> last == None || last == Some(Make))
    ensures var touch := LastTouch(config, s, steps, last);
      StoredIsOpen(t.c) <==> touch == None || touch == Some(Make)
    decreases |steps|
  {
    if steps != [] {
      var touch := Touch(config, s, steps[0]);
      TouchStep(config, s, steps[0]);
      OpenSince(config, Next(config, s, steps[0]), steps[1..], t, if touch.Some? then touch else last);
    }
  }

  // The step closes the stored channel.
  ghost predicate Closes(config: Config, s: Sys, step: Step) {
    && Enabled(config, s, step)
    && ((step.Advance? && s.event[0] == CloseStored) || (step.AdvanceStop? && s.stops[step.k][0] == CloseStored))
  }

  // Main result: a call that has found an open channel closes it safely, whatever ran since, exactly when the
  // stored channel was not touched in between, or last by making a new one; so for a stop and for the handling of
  // an event.
  lemma CloseSafeExactly(config: Config, s: Sys, steps: seq<Step>, t: Sys, step: Step)
    requires StoredIsOpen(s.c) && Leads(config, s, steps, t) && Closes(config, t, step)
    ensures var touch := LastTouch(config, s, steps, None);
      !Next(config, t, step).c.crashed <==> touch == None || touch == Some(Make)
  {
    OpenSince(config, s, steps, t, None);
  }

  // ---------------------------------------------------------------------------------------------
  // How many operations may overlap

  // One more stop, or one step of one, when there are at most two and nothing else is under way.
  lemma GoStop(config: Config, s: Sys, step: Step) returns (t: Sys)
    requires ReachableWithin(config, 2, s) && s.event == [] && Enabled(config, s, step)
    requires (step.EnterStop? && |s.stops| < 2) || (step.AdvanceStop? && |s.stops| <= 2)
    ensures t == Next(config, s, step) && ReachableWithin(config, 2, t)
  {
    BusyAtMost(Next(config, s, step).stops);
    t := Go(config, 2, s, step);
  }

  lemma TwoStopsTest(config: Config) returns (s: Sys)
    requires GetProbe(config).Some?
    ensures ReachableWithin(config, 2, s) && s.event == [] && !s.c.crashed && StoredIsOpen(s.c)
    ensures s.stops == [[CloseStored, Clear], [CloseStored, Clear]]
  {
    s := Monitored(config);
    ReachableLooser(config, 1, s, 2);
    s := GoStop(config, s, EnterStop);
    s := GoStop(config, s, EnterStop);
    assert s.stops == [[TestClose], [TestClose]];
    s := TestsNext(config, s, 0);
    s := TestsNext(config, s, 1);
  }

  lemma TestsNext(config: Config, s: Sys, k: nat) returns (t: Sys)
    requires ReachableWithin(config, 2, s) && s.event == [] && !s.c.crashed && StoredIsOpen(s.c) && s.c.health.Some?
    requires |s.stops| == 2 && k < 2 && s.stops[k] == [TestClose]
    ensures ReachableWithin(config, 2, t) && t == s.(stops := s.stops[k := [CloseStored, Clear]])
  {
    t := GoStop(config, s, AdvanceStop(k));
    assert After(config, s.c, [TestClose]) == [CloseStored, Clear];
  }

  lemma TwoStopsCrash(config: Config) returns (s: Sys)
    requires GetProbe(config).Some?
    ensures ReachableWithin(config, 2, s) && s.c.crashed
  {
    s := TwoStopsTest(config);
    s := GoStop(config, s, AdvanceStop(0));
    s := GoStop(config, s, AdvanceStop(1));
  }

  // Main result: the daemon can never crash on a stop channel exactly when operations on it do not overlap.
  lemma NeverCrashesExactly(config: Config, n: nat)
    requires GetProbe(config).Some?
    ensures (forall s :: ReachableWithin(config, n, s) ==> !s.c.crashed) <==> n <= 1
  {
    if n <= 1 {
      forall s | ReachableWithin(config, n, s) ensures !s.c.crashed {
        ReachableLooser(config, n, s, 1);
        NeverCrashesAlone(config, s);
      }
    } else {
      var s := TwoStopsCrash(config);
      ReachableLooser(config, 2, s, n);
    }
  }

  // ---------------------------------------------------------------------------------------------
  // More than one monitor goroutine

  function AliveOf(monitors: seq<Monitor>): nat {
    if monitors == [] then 0
    else AliveOf(monitors[..|monitors| - 1]) + if monitors[|monitors| - 1].phase.Gone? then 0 else 1
  }

  function Alive(s: Sys): nat {
    AliveOf(s.monitors)
  }

  // The step starts a monitor.
  ghost predicate Starts(config: Config, s: Sys, step: Step)
    requires Enabled(config, s, step)
  {
    |Next(config, s, step).monitors| > |s.monitors|
  }

  // No state of the run has more than one monitor goroutine.
  ghost predicate AlwaysOne(config: Config, s: Sys, steps: seq<Step>)
    decreases |steps|
  {
    && Alive(s) <= 1
    && (steps != [] && Enabled(config, s, steps[0]) ==> AlwaysOne(config, Next(config, s, steps[0]), steps[1..]))
  }

  // No step of the run starts a monitor while an older one has not returned.
  ghost predicate NeverEarly(config: Config, s: Sys, steps: seq<Step>)
    decreases |steps|
  {
    steps != [] && Enabled(config, s, steps[0]) ==>
      && !(Starts(config, s, steps[0]) && Alive(s) > 0)
      && NeverEarly(config, Next(config, s, steps[0]), steps[1..])
  }

  lemma {:induction false} AlivePhase(monitors: seq<Monitor>, m: nat, phase: Phase)
    requires m < |monitors| && !monitors[m].phase.Gone?
    ensures AliveOf(monitors[m := monitors[m].(phase := phase)]) == AliveOf(monitors) - if phase.Gone? then 1 else 0
    ensures AliveOf(monitors) >= 1
  {
    var rest, changed := monitors[..|monitors| - 1], monitors[m := monitors[m].(phase := phase)];
    if m < |monitors| - 1 {
      AlivePhase(rest, m, phase);
      assert changed[..|monitors| - 1] == rest[m := rest[m].(phase := phase)];
    } else {
      assert changed[..|monitors| - 1] == rest;
    }
  }

  lemma AliveStart(monitors: seq<Monitor>, ch: nat)
    ensures AliveOf(monitors + [Monitor(ch, Idle)]) == AliveOf(monitors) + 1
  {
    assert (monitors + [Monitor(ch, Idle)])[..|monitors|] == monitors;
  }

  // What a step does to the monitors.
  lemma MonitorsAfter(config: Config, s: Sys, step: Step)
    requires Enabled(config, s, step)
    ensures var t := Next(config, s, step).monitors;
      || t == s.monitors
      || (exists ch: nat :: t == s.monitors + [Monitor(ch, Idle)])
      || (exists m: nat, phase: Phase :: m < |s.monitors| && !s.monitors[m].phase.Gone?
                                      && t == s.monitors[m := s.monitors[m].(phase := phase)])
  {
  }

  // Only starting one adds a monitor.
  lemma AliveStep(config: Config, s: Sys, step: Step)
    requires Enabled(config, s, step)
    ensures Starts(config, s, step) ==> Alive(Next(config, s, step)) == Alive(s) + 1
    ensures !Starts(config, s, step) ==> Alive(Next(config, s, step)) <= Alive(s)
  {
    var t := Next(config, s, step).monitors;
    MonitorsAfter(config, s, step);
    if ch: nat :| t == s.monitors + [Monitor(ch, Idle)] {
      AliveStart(s.monitors, ch);
    } else if m: nat, phase: Phase :| m < |s.monitors| && !s.monitors[m].phase.Gone?
                                      && t == s.monitors[m := s.monitors[m].(phase := phase)] {
      AlivePhase(s.monitors, m, phase);
    }
  }

  lemma {:induction false} OneExactlyFrom(config: Config, s: Sys, steps: seq<Step>, t: Sys)
    requires Leads(config, s, steps, t) && Alive(s) <= 1
    ensures AlwaysOne(config, s, steps) <==> NeverEarly(config, s, steps)
    decreases |steps|
  {
    if steps != [] {
      AliveStep(config, s, steps[0]);
      if Alive(Next(config, s, steps[0])) <= 1 {
        OneExactlyFrom(config, Next(config, s, steps[0]), steps[1..], t);
      }
    }
  }

  // Main result: there is never more than one monitor goroutine in a run exactly when no monitor is started
  // while an older one has not returned, which closing its channel does not wait for.
  lemma OneMonitorExactly(config: Config, steps: seq<Step>, t: Sys)
    requires Leads(config, START, steps, t)
    ensures AlwaysOne(config, START, steps) <==> NeverEarly(config, START, steps)
  {
    OneExactlyFrom(config, START, steps, t);
  }

  // As long as there was never more than one, only the newest can be alive.
  ghost predicate OnlyNewest(s: Sys) {
    forall m :: 0 <= m < |s.monitors| - 1 ==> s.monitors[m].phase.Gone?
  }

  lemma {:induction false} AliveSome(monitors: seq<Monitor>, m: nat)
    requires m < |monitors| && !monitors[m].phase.Gone?
    ensures AliveOf(monitors) >= 1
  {
    if m < |monitors| - 1 {
      AliveSome(monitors[..|monitors| - 1], m);
    }
  }

  lemma {:induction false} AliveNone(monitors: seq<Monitor>)
    requires forall m :: 0 <= m < |monitors| ==> monitors[m].phase.Gone?
    ensures AliveOf(monitors) == 0
  {
    if monitors != [] {
      AliveNone(monitors[..|monitors| - 1]);
    }
  }

  lemma NewestStep(config: Config, s: Sys, step: Step)
    requires OnlyNewest(s) && Enabled(config, s, step) && Alive(Next(config, s, step)) <= 1
    ensures OnlyNewest(Next(config, s, step))
  {
    var t := Next(config, s, step).monitors;
    MonitorsAfter(config, s, step);
    if ch: nat :| t == s.monitors + [Monitor(ch, Idle)] {
      AliveStart(s.monitors, ch);
      if s.monitors != [] && !s.monitors[|s.monitors| - 1].phase.Gone? {
        AliveSome(s.monitors, |s.monitors| - 1);
      }
    }
  }

  lemma {:induction false} RunNewest(config: Config, s: Sys, steps: seq<Step>, t: Sys)
    requires OnlyNewest(s) && Leads(config, s, steps, t) && AlwaysOne(config, s, steps)
    ensures OnlyNewest(t) && Alive(t) <= 1
    decreases |steps|
  {
    if steps != [] {
      NewestStep(config, s, steps[0]);
      RunNewest(config, Next(config, s, steps[0]), steps[1..], t);
    }
  }

  lemma MakeAndStart(config: Config, s: Sys)
    requires !s.c.crashed && s.event != [] && s.event[0] == Make
    ensures var made := Next(config, s, Advance);
      && Enabled(config, made, Advance)
      && Next(config, made, Advance).monitors == s.monitors + [Monitor(|s.c.closed|, Idle)]
  {
    var made := Next(config, s, Advance);
    assert made.event[0] == Start && made.monitors == s.monitors;
  }

  // Main result: at the moment a channel is to be made, with never more than one monitor goroutine so far, the
  // monitor started with it will be a second one exactly when the monitor before it has not returned.
  lemma SecondMonitorExactly(config: Config, steps: seq<Step>, s: Sys)
    requires Leads(config, START, steps, s) && AlwaysOne(config, START, steps)
    requires !s.c.crashed && s.event != [] && s.event[0] == Make
    ensures Enabled(config, Next(config, s, Advance), Advance)
    ensures Alive(Next(config, Next(config, s, Advance), Advance)) == 2
       <==> s.monitors != [] && !s.monitors[|s.monitors| - 1].phase.Gone?
  {
    RunNewest(config, START, steps, s);
    MakeAndStart(config, s);
    AliveStart(s.monitors, |s.c.closed|);
    if s.monitors != [] && !s.monitors[|s.monitors| - 1].phase.Gone? {
      AliveSome(s.monitors, |s.monitors| - 1);
    } else {
      AliveNone(s.monitors);
    }
  }

  lemma Probed(config: Config) returns (s: Sys)
    requires GetProbe(config).Some?
    ensures ReachableWithin(config, 1, s) && s.event == [] && s.stops == []
    ensures s.monitors == [Monitor(0, Reporting(Result(0, 1, 0, ""), false))]
    ensures s.c == Container(true, false, 0, Some(Health(Starting, 0, [])), Some(0), [false], false)
  {
    s := Monitored(config);
    s := Go(config, 1, s, Begin(0, 0));
    s := Go(config, 1, s, Receive(0, Result(0, 1, 0, "")));
  }

  lemma StopsNext(config: Config, s: Sys) returns (t: Sys)
    requires ReachableWithin(config, 1, s) && s.event == [] && LockFree(s) && s.stops == [] && GetProbe(config).Some?
    requires s.c == Container(true, false, 0, Some(Health(Starting, 0, [])), Some(0), [false], false)
    ensures ReachableWithin(config, 1, t) && t.monitors == s.monitors && t.event == [] && t.stops == []
    ensures t.c == Container(true, false, 0, Some(Health(Starting, 0, [])), None, [true], false)
  {
    t := Go(config, 1, s, Event(StopCall(), true));
    t := Ahead(config, t);
    assert t.event == [CloseStored, Clear];
    t := Ahead(config, t);
    assert t.event == [Clear] && t.c.closed == [true];
    t := Ahead(config, t);
  }

  lemma StartsAgain(config: Config, s: Sys) returns (t: Sys)
    requires ReachableWithin(config, 1, s) && s.event == [] && LockFree(s) && s.stops == [] && GetProbe(config).Some?
    requires s.c == Container(true, false, 0, Some(Health(Starting, 0, [])), None, [true], false)
    ensures ReachableWithin(config, 1, t) && t.monitors == s.monitors + [Monitor(1, Idle)]
  {
    t := Go(config, 1, s, Event(UpdateCall(), true));
    t := Ahead(config, t);
    assert t.event == [TestOpen];
    t := Ahead(config, t);
    assert t.event == [Make];
    t := Ahead(config, t);
    assert t.event == [Start];
    t := Ahead(config, t);
  }

  // It can be otherwise even when no operations overlap: the old monitor is about to report when the new one
  // starts.
  lemma MonitorsOverlap(config: Config) returns (s: Sys)
    requires GetProbe(config).Some?
    ensures ReachableWithin(config, 1, s) && |s.monitors| == 2
    ensures s.monitors[0].phase.Reporting? && s.monitors[1].phase.Idle? && Alive(s) == 2
  {
    var probed := Probed(config);
    s := StopsNext(config, probed);
    s := StartsAgain(config, s);
    AliveStart(probed.monitors, 1);
    assert probed.monitors[..0] == [];
  }

  // ---------------------------------------------------------------------------------------------
  // Operations without interference

  // The run of a call from the state s up to t, in which it is done unless the daemon crashed.
  ghost predicate Completes(config: Config, s: Sys, t: Sys) {
    && (exists steps :: Leads(config, s, steps, t))
    && (t.c.crashed || t.event == [])
    && t.stops == s.stops && t.history == s.history
    && t.monitors == s.monitors + (if |t.c.closed| > |s.c.closed| then [Monitor(|s.c.closed|, Idle)] else [])
  }

  lemma Onward(config: Config, s: Sys, steps: seq<Step>, t: Sys) returns (steps': seq<Step>, t': Sys)
    requires Leads(config, s, steps, t) && !t.c.crashed && t.event != []
    ensures Leads(config, s, steps', t')
    ensures t' == Carry(t, t.event[0]).(event := After(config, t.c, t.event))
  {
    LeadsMore(config, s, steps, t, Advance);
    steps', t' := steps + [Advance], Next(config, t, Advance);
  }

  lemma CloseCompletes(config: Config, s: Sys, steps: seq<Step>, t: Sys, rest: seq<Todo>)
      returns (steps': seq<Step>, t': Sys)
    requires Leads(config, s, steps, t) && !t.c.crashed && t.event == [TestClose] + rest && t.c.health.Some?
    ensures Leads(config, s, steps', t') && t'.c == CloseMonitorChannel(t.c) && (t'.c.crashed || t'.event == rest)
    ensures t' == t.(c := t'.c, event := t'.event) && |t'.c.closed| == |t.c.closed|
  {
    steps', t' := Onward(config, s, steps, t);
    if t.c.stop.Some? {
      assert t'.event == [CloseStored, Clear] + rest;
      steps', t' := CloseAndClear(config, s, steps', t', rest);
    }
  }

  lemma CloseAndClear(config: Config, s: Sys, steps: seq<Step>, t: Sys, rest: seq<Todo>)
      returns (steps': seq<Step>, t': Sys)
    requires Leads(config, s, steps, t) && !t.c.crashed && t.event == [CloseStored, Clear] + rest && t.c.stop.Some?
    ensures Leads(config, s, steps', t') && t'.c == CloseMonitorChannel(t.c) && (t'.c.crashed || t'.event == rest)
    ensures t' == t.(c := t'.c, event := t'.event) && |t'.c.closed| == |t.c.closed|
  {
    steps', t' := Onward(config, s, steps, t);
    if !t'.c.crashed {
      assert t'.event == [Clear] + rest;
      steps', t' := Onward(config, s, steps', t');
    }
  }

  lemma OpenCompletes(config: Config, s: Sys, steps: seq<Step>, t: Sys) returns (steps': seq<Step>, t': Sys)
    requires Leads(config, s, steps, t) && !t.c.crashed && t.event == [TestOpen]
    ensures Leads(config, s, steps', t') && t'.c == OpenMonitorChannel(t.c) && t'.event == []
    ensures t'.stops == t.stops && t'.history == t.history
    ensures t'.monitors == t.monitors + (if |t'.c.closed| > |t.c.closed| then [Monitor(|t.c.closed|, Idle)] else [])
  {
    steps', t' := Onward(config, s, steps, t);
    if t.c.stop.None? {
      assert t'.event == [Make];
      steps', t' := Onward(config, s, steps', t');
      assert t'.event == [Start];
      steps', t' := Onward(config, s, steps', t');
    }
  }

  lemma UpdateCompletes(config: Config, s: Sys, steps: seq<Step>, t: Sys) returns (steps': seq<Step>, t': Sys)
    requires Leads(config, s, steps, t) && !t.c.crashed && t.event == [Decide]
    ensures Leads(config, s, steps', t') && t'.c == UpdateHealthMonitor(config, t.c)
    ensures t'.c.crashed || t'.event == []
    ensures t'.stops == t.stops && t'.history == t.history
    ensures t'.monitors == t.monitors + (if |t'.c.closed| > |t.c.closed| then [Monitor(|t.c.closed|, Idle)] else [])
  {
    steps', t' := Onward(config, s, steps, t);
    if t.c.health.Some? {
      if WantRunning(config, t.c) {
        assert t'.event == [TestOpen];
        steps', t' := OpenCompletes(config, s, steps', t');
      } else {
        assert t'.event == [TestClose] + [];
        steps', t' := CloseCompletes(config, s, steps', t', []);
      }
    }
  }

  lemma Begun(config: Config, s: Sys, call: seq<Todo>, locked: bool) returns (steps: seq<Step>, t: Sys)
    requires Enabled(config, s, Event(call, locked))
    ensures Leads(config, s, steps, t) && t == s.(event := call, locked := locked)
  {
    assert Leads(config, s, [], s);
    LeadsMore(config, s, [], s, Event(call, locked));
    steps, t := [] + [Event(call, locked)], Next(config, s, Event(call, locked));
  }

  // updateHealthMonitor, stopHealthchecks and initHealthMonitor, if nothing comes in between, have the effect of the
  // whole operations, and so has handleProbeResult.
  lemma UpdateIsRun(config: Config, s: Sys, locked: bool) returns (t: Sys)
    requires !s.c.crashed && s.event == [] && (locked ==> LockFree(s))
    ensures Completes(config, s, t) && t.c == UpdateHealthMonitor(config, s.c)
  {
    var steps;
    steps, t := Begun(config, s, UpdateCall(), locked);
    steps, t := UpdateCompletes(config, s, steps, t);
  }

  lemma StopIsRun(config: Config, s: Sys) returns (t: Sys)
    requires !s.c.crashed && s.event == [] && LockFree(s)
    ensures Completes(config, s, t) && t.c == StopHealthchecks(s.c)
  {
    var steps;
    steps, t := Begun(config, s, StopCall(), true);
    if s.c.health.Some? {
      assert t.event == [TestClose] + [];
      steps, t := CloseCompletes(config, s, steps, t, []);
    } else {
      steps, t := Onward(config, s, steps, t);
    }
  }

  lemma InitIsRun(config: Config, s: Sys, locked: bool) returns (t: Sys)
    requires !s.c.crashed && s.event == [] && (locked ==> LockFree(s))
    ensures Completes(config, s, t) && t.c == InitHealthMonitor(config, s.c)
  {
    var steps;
    steps, t := Begun(config, s, InitCall(config), locked);
    if GetProbe(config).Some? {
      assert t.event == [TestClose] + [Reset, Decide];
      if s.c.health.Some? {
        steps, t := CloseCompletes(config, s, steps, t, [Reset, Decide]);
      } else {
        steps, t := Onward(config, s, steps, t);
      }
      if !t.c.crashed {
        assert t.event == [Reset, Decide];
        steps, t := ResetCompletes(config, s, steps, t);
      }
    }
  }

  lemma ResetCompletes(config: Config, s: Sys, steps: seq<Step>, t: Sys) returns (steps': seq<Step>, t': Sys)
    requires Leads(config, s, steps, t) && !t.c.crashed && t.event == [Reset, Decide]
    ensures Leads(config, s, steps', t') && t'.c == UpdateHealthMonitor(config, Restarted(t.c))
    ensures t'.c.crashed || t'.event == []
    ensures t'.stops == t.stops && t'.history == t.history
    ensures t'.monitors == t.monitors + (if |t'.c.closed| > |t.c.closed| then [Monitor(|t.c.closed|, Idle)] else [])
  {
    steps', t' := Onward(config, s, steps, t);
    assert t'.event == [Decide];
    steps', t' := UpdateCompletes(config, s, steps', t');
  }

  lemma HandleIsRun(config: Config, s: Sys, m: nat) returns (t: Sys)
    requires Enabled(config, s, Test(m))
    ensures exists steps :: Leads(config, s, steps, t)
    ensures t.c == HandleProbeResult(config, s.c, s.monitors[m].phase.result, s.monitors[m].ch)
    ensures |t.monitors| == |s.monitors| && t.monitors == s.monitors[m := t.monitors[m]]
    ensures !t.monitors[m].phase.Writing?
  {
    assert Leads(config, s, [], s);
    LeadsMore(config, s, [], s, Test(m));
    t := Next(config, s, Test(m));
    if t.monitors[m].phase.Writing? {
      LeadsMore(config, s, [] + [Test(m)], t, Write(m));
      t := Next(config, t, Write(m));
    }
  }
}
