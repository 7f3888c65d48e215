// The stop channel and its owner: what holds in every run until the daemon crashes on the channel, however many stops
// overlap; and that it never crashes as long as operations on the channel do not overlap.

module HealthChannels {
  import opened Wrappers
  import opened Health

  // ---------------------------------------------------------------------------------------------
  // Counting calls

  function Count(f: seq<Todo> -> bool, calls: seq<seq<Todo>>): nat {
    if calls == [] then 0
    else Count(f, calls[..|calls| - 1]) + if f(calls[|calls| - 1]) then 1 else 0
  }

  lemma CountSnoc(f: seq<Todo> -> bool, calls: seq<seq<Todo>>, p: seq<Todo>)
    ensures Count(f, calls + [p]) == Count(f, calls) + if f(p) then 1 else 0
  {
    assert (calls + [p])[..|calls|] == calls;
  }

  lemma {:induction false} CountUpdate(f: seq<Todo> -> bool, calls: seq<seq<Todo>>, k: nat, p: seq<Todo>)
    requires k < |calls|
    ensures Count(f, calls[k := p]) + (if f(calls[k]) then 1 else 0) == Count(f, calls) + if f(p) then 1 else 0
  {
    var rest, n := calls[..|calls| - 1], |calls| - 1;
    if k < n {
      CountUpdate(f, rest, k, p);
      assert calls[k := p][..n] == rest[k := p];
    } else {
      assert calls[k := p][..n] == rest;
    }
  }

  lemma {:induction false} CountSome(f: seq<Todo> -> bool, calls: seq<seq<Todo>>, k: nat)
    requires k < |calls| && f(calls[k])
    ensures Count(f, calls) >= 1
  {
    if k < |calls| - 1 {
      CountSome(f, calls[..|calls| - 1], k);
    }
  }

  lemma {:induction false} CountTwo(f: seq<Todo> -> bool, calls: seq<seq<Todo>>, j: nat, k: nat)
    requires j < k < |calls| && f(calls[j]) && f(calls[k])
    ensures Count(f, calls) >= 2
  {
    if k < |calls| - 1 {
      CountTwo(f, calls[..|calls| - 1], j, k);
    } else {
      CountSome(f, calls[..k], j);
    }
  }

  predicate IsBusy(p: seq<Todo>) {
    p != []
  }

  predicate Clears(p: seq<Todo>) {
    p != [] && p[0] == Clear
  }

  function One(b: bool): nat {
    if b then 1 else 0
  }

  // How many operations on the stop channel are under way, and how many of them have just closed it.
  function Busy(s: Sys): nat {
    Count(IsBusy, s.stops) + One(IsBusy(s.event))
  }

  function Clearing(s: Sys): nat {
    Count(Clears, s.stops) + One(Clears(s.event))
  }

  // ---------------------------------------------------------------------------------------------
  // The calls

  ghost predicate Tail(p: seq<Todo>) {
    forall i :: 0 <= i < |p| ==> p[i] in {Reset, Decide}
  }

  ghost predicate StopOk(p: seq<Todo>) {
    p == [] || p == [TestClose] || p == [CloseStored, Clear] || p == [Clear]
  }

  ghost predicate EventOk(p: seq<Todo>) {
    p != [] ==>
      if p[0] == CloseStored then |p| >= 2 && p[1] == Clear && Tail(p[2..]) else Tail(p[1..])
  }

  lemma StopStep(config: Config, c: Container, p: seq<Todo>)
    requires StopOk(p) && p != []
    ensures StopOk(After(config, c, p)) && (Clears(After(config, c, p)) <==> p[0] == CloseStored)
    ensures p[0] !in {Make, Start, Reset}
  {
    assert [CloseStored, Clear] + [] == [CloseStored, Clear] && [] + [Clear] == [Clear];
  }

  lemma EventStep(config: Config, c: Container, p: seq<Todo>)
    requires EventOk(p) && p != []
    ensures EventOk(After(config, c, p)) && (Clears(After(config, c, p)) <==> p[0] == CloseStored)
    ensures IsBusy(After(config, c, p)) && After(config, c, p)[0] == Make ==> p[0] == TestOpen && c.stop.None?
    ensures IsBusy(After(config, c, p)) && After(config, c, p)[0] == TestOpen ==> p[0] == Decide && c.health.Some?
    ensures IsBusy(After(config, c, p)) && After(config, c, p)[0] == Start ==> p[0] == Make
  {
    var more, rest := Then(config, c, p[0]), p[1..];
    if more == [] {
      NothingMore(config, c, p);
    } else if p[0] == TestClose {
      assert After(config, c, p)[2..] == rest;
    } else {
      assert After(config, c, p) == [more[0]] + rest && After(config, c, p)[1..] == rest;
    }
  }

  lemma NothingMore(config: Config, c: Container, p: seq<Todo>)
    requires EventOk(p) && p != [] && Then(config, c, p[0]) == []
    ensures After(config, c, p) == p[1..] && EventOk(p[1..])
  {
    assert [] + p[1..] == p[1..];
    if p[0] == CloseStored {
      assert p[1..][1..] == p[2..];
    }
  }

  // ---------------------------------------------------------------------------------------------
  // The field and the channels

  // An open channel is the newest one and the one stored; what is stored is open unless the one call that is at
  // Clear has just closed it.
  ghost predicate StoreOk(c: Container, clearing: nat) {
    && clearing <= 1
    && (c.stop.Some? ==> c.stop.value == |c.closed| - 1 && (StoredIsOpen(c) <==> clearing == 0))
    && (clearing == 1 ==> c.stop.Some?)
    && (forall ch: nat :: IsOpen(c, ch) ==> c.stop == Some(ch))
    && (c.health.None? ==> |c.closed| == 0)
  }

  lemma StoreStep(c: Container, todo: Todo, clearing: nat)
    requires StoreOk(c, clearing) && !DoTodo(c, todo).crashed
    requires todo == Clear ==> clearing == 1
    requires todo == Make ==> c.stop.None? && c.health.Some?
    ensures StoreOk(DoTodo(c, todo), clearing - One(todo == Clear) + One(todo == CloseStored))
  {
  }

  // Only the event being handled makes a channel, after finding none.
  ghost predicate MakeOk(s: Sys) {
    && (s.event != [] && s.event[0] == Make ==> s.c.stop.None?)
    && (s.event != [] && s.event[0] in {Make, TestOpen} ==> s.c.health.Some?)
  }

  ghost predicate ChannelsOk(s: Sys) {
    && EventOk(s.event) && (forall k :: 0 <= k < |s.stops| ==> StopOk(s.stops[k]))
    && StoreOk(s.c, Clearing(s)) && MakeOk(s)
  }

  lemma AdvanceClearing(config: Config, s: Sys)
    requires EventOk(s.event) && Enabled(config, s, Advance)
    ensures Clearing(Next(config, s, Advance))
         == Clearing(s) - One(s.event[0] == Clear) + One(s.event[0] == CloseStored)
    ensures s.event[0] == Clear ==> Clearing(s) >= 1
  {
    EventStep(config, s.c, s.event);
  }

  lemma AdvanceStopClearing(config: Config, s: Sys, k: nat)
    requires Enabled(config, s, AdvanceStop(k)) && StopOk(s.stops[k])
    ensures Clearing(Next(config, s, AdvanceStop(k)))
         == Clearing(s) - One(s.stops[k][0] == Clear) + One(s.stops[k][0] == CloseStored)
    ensures s.stops[k][0] == Clear ==> Clearing(s) >= 1
  {
    StopStep(config, s.c, s.stops[k]);
    CountUpdate(Clears, s.stops, k, After(config, s.c, s.stops[k]));
    if Clears(s.stops[k]) {
      CountSome(Clears, s.stops, k);
    }
  }

  lemma AdvanceChannels(config: Config, s: Sys)
    requires ChannelsOk(s) && Enabled(config, s, Advance) && !Next(config, s, Advance).c.crashed
    ensures ChannelsOk(Next(config, s, Advance))
  {
    AdvanceClearing(config, s);
    EventStep(config, s.c, s.event);
    StoreStep(s.c, s.event[0], Clearing(s));
  }

  lemma AdvanceStopChannels(config: Config, s: Sys, k: nat)
    requires ChannelsOk(s) && Enabled(config, s, AdvanceStop(k)) && !Next(config, s, AdvanceStop(k)).c.crashed
    ensures ChannelsOk(Next(config, s, AdvanceStop(k)))
  {
    AdvanceStopClearing(config, s, k);
    StopStep(config, s.c, s.stops[k]);
    StoreStep(s.c, s.stops[k][0], Clearing(s));
  }

  lemma ChannelsStep(config: Config, s: Sys, step: Step)
    requires ChannelsOk(s) && Enabled(config, s, step) && !Next(config, s, step).c.crashed
    ensures ChannelsOk(Next(config, s, step))
  {
    match step
    case Advance => AdvanceChannels(config, s);
    case AdvanceStop(k) => AdvanceStopChannels(config, s, k);
    case EnterStop => CountSnoc(Clears, s.stops, StopCall());
    case _ => OtherChannels(config, s, step);
  }

  lemma OtherChannels(config: Config, s: Sys, step: Step)
    requires ChannelsOk(s) && Enabled(config, s, step)
    requires !step.Advance? && !step.AdvanceStop? && !step.EnterStop?
    ensures ChannelsOk(Next(config, s, step))
  {
  }

  // ---------------------------------------------------------------------------------------------
  // The monitors

  // Monitors are started with ever newer channels.
  ghost predicate Newer(monitors: seq<Monitor>, bound: int) {
    && (forall m :: 0 <= m < |monitors| ==> monitors[m].ch < bound)
    && (forall m, n :: 0 <= m < n < |monitors| ==> monitors[m].ch < monitors[n].ch)
  }

  function Bound(s: Sys): int {
    if s.event != [] && s.event[0] == Start then |s.c.closed| - 1 else |s.c.closed|
  }

  // At most one monitor is past its test, and results were applied in the order of the monitors, up to that one.
  ghost predicate WritesOk(s: Sys) {
    && (forall m, n :: 0 <= m < n < |s.monitors| ==> !(s.monitors[m].phase.Writing? && s.monitors[n].phase.Writing?))
    && (forall i :: 0 <= i < |s.history| ==> s.history[i].monitor < |s.monitors|)
    && (forall i, j :: 0 <= i < j < |s.history| ==> s.history[i].monitor <= s.history[j].monitor)
    && (forall i, m :: 0 <= i < |s.history| && 0 <= m < |s.monitors| && s.monitors[m].phase.Writing? ==>
          s.history[i].monitor <= m)
  }

  ghost predicate MonitorsOk(s: Sys) {
    Newer(s.monitors, Bound(s)) && WritesOk(s)
  }

  lemma AdvanceNewer(config: Config, s: Sys)
    requires ChannelsOk(s) && Newer(s.monitors, Bound(s)) && Enabled(config, s, Advance)
    ensures Newer(Next(config, s, Advance).monitors, Bound(Next(config, s, Advance)))
  {
    var t := Next(config, s, Advance);
    EventStep(config, s.c, s.event);
    if s.event[0] == Start {
      NewerStart(s);
      assert Bound(t) == |s.c.closed|;
    } else {
      assert t.monitors == s.monitors && Bound(t) == |s.c.closed|;
    }
  }

  lemma NewerStart(s: Sys)
    requires Newer(s.monitors, |s.c.closed| - 1) && (s.c.stop.Some? ==> s.c.stop.value == |s.c.closed| - 1)
    ensures Newer(Carry(s, Start).monitors, |s.c.closed|)
  {
  }

  lemma AdvanceMonitors(config: Config, s: Sys)
    requires ChannelsOk(s) && MonitorsOk(s) && Enabled(config, s, Advance)
    ensures MonitorsOk(Next(config, s, Advance))
  {
    AdvanceNewer(config, s);
    SameWrites(s, s.event[0]);
  }

  // A new monitor is not writing.
  lemma SameWrites(s: Sys, todo: Todo)
    requires WritesOk(s)
    ensures WritesOk(Carry(s, todo))
  {
  }

  lemma AdvanceStopMonitors(config: Config, s: Sys, k: nat)
    requires ChannelsOk(s) && MonitorsOk(s) && Enabled(config, s, AdvanceStop(k))
    ensures MonitorsOk(Next(config, s, AdvanceStop(k)))
  {
    StopStep(config, s.c, s.stops[k]);
  }

  lemma NewestLast(monitors: seq<Monitor>, m: nat, bound: int)
    requires Newer(monitors, bound) && m < |monitors| && monitors[m].ch >= bound - 1
    ensures m == |monitors| - 1
  {
    assert monitors[|monitors| - 1].ch < bound;
  }

  lemma TestMonitors(config: Config, s: Sys, m: nat)
    requires ChannelsOk(s) && MonitorsOk(s) && Enabled(config, s, Test(m))
    ensures MonitorsOk(Next(config, s, Test(m)))
  {
    if !Discards(s.c, s.monitors[m].ch) {
      assert IsOpen(s.c, s.monitors[m].ch);
      NewestLast(s.monitors, m, |s.c.closed|);
    }
  }

  // A monitor moves on.
  lemma PhaseMonitors(s: Sys, m: nat, phase: Phase)
    requires MonitorsOk(s) && m < |s.monitors| && (phase.Writing? ==> s.monitors[m].phase.Writing?)
    ensures MonitorsOk(InPhase(s, m, phase))
  {
  }

  lemma WriteMonitors(config: Config, s: Sys, m: nat)
    requires MonitorsOk(s) && Enabled(config, s, Write(m))
    ensures MonitorsOk(Next(config, s, Write(m)))
  {
    var phase := if s.monitors[m].phase.expired then Draining else Idle;
    PhaseMonitors(s, m, phase);
    NoOtherWrites(s, m);
    AppendWrite(config, InPhase(s, m, phase), m, s.monitors[m].phase.result);
  }

  lemma NoOtherWrites(s: Sys, m: nat)
    requires WritesOk(s) && m < |s.monitors| && s.monitors[m].phase.Writing?
    ensures forall n :: 0 <= n < |s.monitors| && n != m ==> !s.monitors[n].phase.Writing?
  {
    forall n | 0 <= n < |s.monitors| && n != m ensures !s.monitors[n].phase.Writing? {
      assert !(s.monitors[if m < n then m else n].phase.Writing? && s.monitors[if m < n then n else m].phase.Writing?);
    }
  }

  lemma AppendWrite(config: Config, s: Sys, m: nat, result: Result)
    requires WritesOk(s) && m < |s.monitors| && forall n :: 0 <= n < |s.monitors| ==> !s.monitors[n].phase.Writing?
    requires forall i :: 0 <= i < |s.history| ==> s.history[i].monitor <= m
    ensures WritesOk(Written(config, s, m, result))
  {
  }

  lemma OtherMonitors(config: Config, s: Sys, step: Step)
    requires MonitorsOk(s) && Enabled(config, s, step)
    requires !step.Advance? && !step.AdvanceStop? && !step.Test? && !step.Write?
    ensures MonitorsOk(Next(config, s, step))
  {
    match step
    case Begin(m, at) => PhaseMonitors(s, m, Probing(at));
    case Receive(m, result) => PhaseMonitors(s, m, Reporting(result, false));
    case Expire(m, end, message) =>
      PhaseMonitors(s, m, Reporting(Result(s.monitors[m].phase.start, end, -1, message), true));
    case Drain(m) => PhaseMonitors(s, m, Idle);
    case Quit(m) => PhaseMonitors(s, m, Gone);
    case _ =>
  }

  lemma MonitorsStep(config: Config, s: Sys, step: Step)
    requires ChannelsOk(s) && MonitorsOk(s) && Enabled(config, s, step)
    ensures MonitorsOk(Next(config, s, step))
  {
    match step
    case Advance => AdvanceMonitors(config, s);
    case AdvanceStop(k) => AdvanceStopMonitors(config, s, k);
    case Test(m) => TestMonitors(config, s, m);
    case Write(m) => WriteMonitors(config, s, m);
    case _ => OtherMonitors(config, s, step);
  }

  // ---------------------------------------------------------------------------------------------
  // Runs

  lemma {:induction false} RunChannels(config: Config, s: Sys, steps: seq<Step>, t: Sys)
    requires ChannelsOk(s) && MonitorsOk(s) && Leads(config, s, steps, t)
    ensures MonitorsOk(t) && (!t.c.crashed ==> ChannelsOk(t))
    decreases |steps|
  {
    if steps != [] {
      MonitorsStep(config, s, steps[0]);
      if Next(config, s, steps[0]).c.crashed {
        assert steps[1..] == [];
      } else {
        ChannelsStep(config, s, steps[0]);
        RunChannels(config, Next(config, s, steps[0]), steps[1..], t);
      }
    }
  }

  lemma ReachableChannels(config: Config, s: Sys)
    requires Reachable(config, s)
    ensures MonitorsOk(s) && (!s.c.crashed ==> ChannelsOk(s))
  {
    var steps :| Leads(config, START, steps, s);
    RunChannels(config, START, steps, s);
  }

  // ---------------------------------------------------------------------------------------------
  // Main results: every run, until the daemon crashes

  // A channel is open exactly when it is the one stored and no call has just closed that, so at most one is open.
  lemma OneOpenChannel(config: Config, s: Sys, ch: nat)
    requires Reachable(config, s) && !s.c.crashed && ch < |s.c.closed|
    ensures IsOpen(s.c, ch) <==> s.c.stop == Some(ch) && Clearing(s) == 0
  {
    ReachableChannels(config, s);
  }

  // A result passes its test exactly when it comes from the owner of the stored channel and no call has just closed
  // that; otherwise it is dropped and nothing changes.
  lemma OnlyOwnerApplies(config: Config, s: Sys, m: nat)
    requires Reachable(config, s) && Enabled(config, s, Test(m))
    ensures var t := Next(config, s, Test(m));
      && t.c == s.c && t.history == s.history
      && (t.monitors[m].phase.Writing? <==> s.c.stop == Some(s.monitors[m].ch) && Clearing(s) == 0)
  {
    ReachableChannels(config, s);
    assert s.monitors[m].ch < |s.c.closed|;
    assert IsOpen(s.c, s.monitors[m].ch) <==> s.c.stop == Some(s.monitors[m].ch) && Clearing(s) == 0;
  }

  // No two monitors share a channel, and results of different monitors never interleave.
  lemma MonitorsInTurn(config: Config, s: Sys)
    requires Reachable(config, s)
    ensures forall m, n :: 0 <= m < n < |s.monitors| ==> s.monitors[m].ch != s.monitors[n].ch
    ensures forall i, j :: 0 <= i < j < |s.history| ==> s.history[i].monitor <= s.history[j].monitor
  {
    ReachableChannels(config, s);
  }

  // ---------------------------------------------------------------------------------------------
  // Operations that do not overlap

  // Runs in which there are never more than n operations on the stop channel at a time.
  ghost predicate LeadsWithin(config: Config, n: nat, s: Sys, steps: seq<Step>, t: Sys)
    decreases |steps|
  {
    && Busy(s) <= n
    && if steps == [] then s == t
       else Enabled(config, s, steps[0]) && LeadsWithin(config, n, Next(config, s, steps[0]), steps[1..], t)
  }

  ghost predicate ReachableWithin(config: Config, n: nat, s: Sys) {
    exists steps :: LeadsWithin(config, n, START, steps, s)
  }

  predicate AtClose(p: seq<Todo>) {
    p != [] && p[0] == CloseStored
  }

  // A call that is about to close still finds what it has found.
  ghost predicate ClosersOk(s: Sys) {
    && (AtClose(s.event) ==> s.c.stop.Some?)
    && (forall k :: 0 <= k < |s.stops| && AtClose(s.stops[k]) ==> s.c.stop.Some?)
  }

  // The only call under way.
  lemma Alone(s: Sys, k: nat)
    requires Busy(s) <= 1 && k < |s.stops| && s.stops[k] != []
    ensures s.event == [] && forall j :: 0 <= j < |s.stops| && j != k ==> s.stops[j] == []
  {
    CountSome(IsBusy, s.stops, k);
    forall j | 0 <= j < |s.stops| && j != k ensures s.stops[j] == [] {
      if IsBusy(s.stops[j]) {
        CountTwo(IsBusy, s.stops, if j < k then j else k, if j < k then k else j);
      }
    }
  }

  lemma EventAlone(s: Sys)
    requires Busy(s) <= 1 && s.event != []
    ensures forall j :: 0 <= j < |s.stops| ==> s.stops[j] == []
  {
    forall j | 0 <= j < |s.stops| ensures s.stops[j] == [] {
      if IsBusy(s.stops[j]) {
        CountSome(IsBusy, s.stops, j);
      }
    }
  }

  // What a call goes on with closes only what it has just found.
  lemma ClosesFound(config: Config, c: Container, p: seq<Todo>)
    requires p != [] && (StopOk(p) || EventOk(p)) && AtClose(After(config, c, p))
    ensures p[0] == TestClose && c.stop.Some? && DoTodo(c, p[0]) == c
  {
    var more := Then(config, c, p[0]);
    if more != [] {
      assert After(config, c, p)[0] == more[0];
    }
  }

  lemma ClosersStep(config: Config, s: Sys, step: Step)
    requires Busy(s) <= 1 && ChannelsOk(s) && ClosersOk(s) && Enabled(config, s, step)
    ensures ClosersOk(Next(config, s, step))
  {
    if step.Advance? {
      EventAlone(s);
      if AtClose(After(config, s.c, s.event)) {
        ClosesFound(config, s.c, s.event);
      }
    } else if step.AdvanceStop? {
      Alone(s, step.k);
      if AtClose(After(config, s.c, s.stops[step.k])) {
        ClosesFound(config, s.c, s.stops[step.k]);
      }
    }
  }

  lemma NoCrashStep(config: Config, s: Sys, step: Step)
    requires Busy(s) <= 1 && ChannelsOk(s) && ClosersOk(s) && Enabled(config, s, step)
    ensures !Next(config, s, step).c.crashed
  {
    if step.Advance? && AtClose(s.event) {
      EventAlone(s);
      NoneClears(s.stops);
    } else if step.AdvanceStop? && AtClose(s.stops[step.k]) {
      Alone(s, step.k);
      NoneClears(s.stops);
    }
  }

  lemma {:induction false} NoneClears(calls: seq<seq<Todo>>)
    requires forall k :: 0 <= k < |calls| ==> !Clears(calls[k])
    ensures Count(Clears, calls) == 0
  {
    if calls != [] {
      NoneClears(calls[..|calls| - 1]);
    }
  }

  lemma {:induction false} RunAlone(config: Config, s: Sys, steps: seq<Step>, t: Sys)
    requires ChannelsOk(s) && ClosersOk(s) && !s.c.crashed && LeadsWithin(config, 1, s, steps, t)
    ensures !t.c.crashed
    decreases |steps|
  {
    if steps != [] {
      NoCrashStep(config, s, steps[0]);
      ChannelsStep(config, s, steps[0]);
      ClosersStep(config, s, steps[0]);
      RunAlone(config, Next(config, s, steps[0]), steps[1..], t);
    }
  }

  lemma NeverCrashesAlone(config: Config, s: Sys)
    requires ReachableWithin(config, 1, s)
    ensures !s.c.crashed
  {
    var steps :| LeadsWithin(config, 1, START, steps, s);
    RunAlone(config, START, steps, s);
  }
}
