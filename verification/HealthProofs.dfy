// What holds of the health of a container in every run: the status is that of the results applied, and results of a
// closed monitor are not applied any more.

module HealthProofs {
  import opened Wrappers
  import opened Health

  // ---------------------------------------------------------------------------------------------
  // The status as a function of the results since the last initialisation

  predicate Failed(a: Applied) {
    a.result.exitCode != 0
  }

  ghost predicate Succeeded(h: seq<Applied>) {
    exists i :: 0 <= i < |h| && !Failed(h[i])
  }

  // The failures since the last success.
  function Trailing(h: seq<Applied>): nat {
    if h == [] || !Failed(h[|h| - 1]) then 0 else Trailing(h[..|h| - 1]) + 1
  }

  // The failures outside the start period.
  function Late(period: int, h: seq<Applied>): nat {
    if h == [] then 0
    else
      var a := h[|h| - 1];
      Late(period, h[..|h| - 1]) + if a.result.exitCode != 0 && a.result.start - a.startedAt >= period then 1 else 0
  }

  // The failures that count: those outside the start period, and all once there were `retries` of them.
  function Counted(period: int, retries: int, h: seq<Applied>): nat {
    if h == [] then 0
    else
      var a, p := h[|h| - 1], h[..|h| - 1];
      Counted(period, retries, p)
      + if a.result.start - a.startedAt >= period || Late(period, p) >= retries then 1 else 0
  }

  lemma {:induction false} TrailingMeans(h: seq<Applied>, n: nat)
    ensures n <= Trailing(h) <==> n <= |h| && forall i :: |h| - n <= i < |h| ==> Failed(h[i])
  {
    if n > 0 && h != [] {
      TrailingMeans(h[..|h| - 1], n - 1);
      assert Failed(h[|h| - 1]) ==> (n <= Trailing(h) <==> n - 1 <= Trailing(h[..|h| - 1]));
    }
  }

  lemma {:induction false} CountedMeans(period: int, retries: int, h: seq<Applied>)
    requires retries > 0 && !Succeeded(h)
    ensures if Late(period, h) < retries then Counted(period, retries, h) == Late(period, h)
            else Counted(period, retries, h) >= retries
  {
    if h != [] {
      var p := h[..|h| - 1];
      assert forall i :: 0 <= i < |p| ==> p[i] == h[i];
      CountedMeans(period, retries, p);
      assert Failed(h[|h| - 1]);
    }
  }

  // Late counts the failures of probes that began `period` or more after the start of the container.
  lemma {:induction false} LateMeans(period: int, h: seq<Applied>)
    ensures Late(period, h)
         == |set i | 0 <= i < |h| && h[i].result.exitCode != 0 && h[i].result.start - h[i].startedAt >= period|
  {
    var late := set i | 0 <= i < |h| && h[i].result.exitCode != 0 && h[i].result.start - h[i].startedAt >= period;
    if h == [] {
      assert late == {};
    } else {
      var last, p := |h| - 1, h[..|h| - 1];
      LateMeans(period, p);
      assert late - {last}
          == set i | 0 <= i < |p| && p[i].result.exitCode != 0 && p[i].result.start - p[i].startedAt >= period;
    }
  }

  ghost function StatusOf(period: int, retries: int, h: seq<Applied>): Status {
    if Succeeded(h) then (if Trailing(h) < retries then Healthy else Unhealthy)
    else if Late(period, h) < retries then Starting else Unhealthy
  }

  ghost function StreakOf(period: int, retries: int, h: seq<Applied>): int {
    if Succeeded(h) then Trailing(h) else Counted(period, retries, h)
  }

  ghost predicate Summarises(period: int, retries: int, health: Health, h: seq<Applied>) {
    health.status == StatusOf(period, retries, h) && health.streak == StreakOf(period, retries, h)
  }

  lemma HandleSummarises(config: Config, startedAt: int, health: Health, h: seq<Applied>, monitor: nat, result: Result)
    requires Summarises(config.startPeriod, Retries(config), health, h)
    ensures Summarises(config.startPeriod, Retries(config), Handle(config, startedAt, health, result),
              h + [Applied(monitor, result, startedAt)])
  {
    var a := Applied(monitor, result, startedAt);
    var h' := h + [a];
    assert h'[..|h|] == h;
    assert Succeeded(h') <==> Succeeded(h) || !Failed(a) by {
      assert h'[|h|] == a;
      if Succeeded(h) {
        var i :| 0 <= i < |h| && !Failed(h[i]);
        assert !Failed(h'[i]);
      }
    }
    if !Succeeded(h) {
      CountedMeans(config.startPeriod, Retries(config), h);
    }
  }

  function ResultsOf(history: seq<Applied>): seq<Result> {
    seq(|history|, i requires 0 <= i < |history| => history[i].result)
  }

  // The health is determined by what was applied; initialising does not empty the log.
  ghost predicate HealthOk(config: Config, s: Sys) {
    && s.since <= |s.history|
    && (s.c.health.None? ==> s.history == [])
    && (s.c.health.Some? ==>
          && Summarises(config.startPeriod, Retries(config), s.c.health.value, s.history[s.since..])
          && s.c.health.value.log == LastOf(MAX_LOG_ENTRIES, ResultsOf(s.history)))
  }

  lemma LastOfMore(n: nat, s: seq<Result>, r: Result)
    requires n > 0
    ensures LastOf(n, LastOf(n, s) + [r]) == LastOf(n, s + [r])
  {
  }

  lemma HealthStep(config: Config, s: Sys, step: Step)
    requires HealthOk(config, s) && Enabled(config, s, step)
    ensures HealthOk(config, Next(config, s, step))
  {
    match step
    case Write(m) => WrittenHealth(config, s, m, s.monitors[m].phase.result);
    case Advance => CarryHealth(config, s, s.event[0]);
    case AdvanceStop(k) => CarryHealth(config, s, s.stops[k][0]);
    case _ => OtherHealth(config, s, step);
  }

  lemma OtherHealth(config: Config, s: Sys, step: Step)
    requires HealthOk(config, s) && Enabled(config, s, step) && !step.Write? && !step.Advance? && !step.AdvanceStop?
    ensures HealthOk(config, Next(config, s, step))
  {
  }

  lemma CarryHealth(config: Config, s: Sys, todo: Todo)
    requires HealthOk(config, s)
    ensures HealthOk(config, Carry(s, todo))
  {
    if todo.Reset? {
      assert s.history[|s.history|..] == [];
      ResetSummarises(config.startPeriod, Retries(config), Restarted(s.c).health.value);
      NoResults(s.history);
    }
  }

  lemma ResetSummarises(period: int, retries: int, health: Health)
    requires retries > 0 && health.status == Starting && health.streak == 0
    ensures Summarises(period, retries, health, [])
  {
  }

  lemma NoResults(history: seq<Applied>)
    ensures history == [] ==> ResultsOf(history) == [] && LastOf(MAX_LOG_ENTRIES, ResultsOf(history)) == []
  {
  }

  lemma WrittenHealth(config: Config, s: Sys, m: nat, result: Result)
    requires HealthOk(config, s)
    ensures HealthOk(config, Written(config, s, m, result))
  {
    if s.c.health.Some? {
      var a := Applied(m, result, s.c.startedAt);
      HandleSummarises(config, s.c.startedAt, s.c.health.value, s.history[s.since..], m, result);
      assert (s.history + [a])[s.since..] == s.history[s.since..] + [a];
      assert ResultsOf(s.history + [a]) == ResultsOf(s.history) + [result];
      LastOfMore(MAX_LOG_ENTRIES, ResultsOf(s.history), result);
    }
  }

  // ---------------------------------------------------------------------------------------------
  // Runs

  lemma {:induction false} RunHealth(config: Config, s: Sys, steps: seq<Step>, t: Sys)
    requires HealthOk(config, s) && Leads(config, s, steps, t)
    ensures HealthOk(config, t)
    decreases |steps|
  {
    if steps != [] {
      HealthStep(config, s, steps[0]);
      RunHealth(config, Next(config, s, steps[0]), steps[1..], t);
    }
  }

  // In every reachable state the status and the streak are those of the results since the last
  // initialisation, and the log holds the last five results of all.
  lemma StatusExactly(config: Config, s: Sys)
    requires Reachable(config, s) && s.c.health.Some?
    ensures s.since <= |s.history|
    ensures var retries := if config.retries <= 0 then 3 else config.retries;
      var period, h, health := config.startPeriod, s.history[s.since..], s.c.health.value;
      && (health.status == Starting <==> !Succeeded(h) && Late(period, h) < retries)
      && (health.status == Healthy <==> Succeeded(h) && Trailing(h) < retries)
      && (health.status == Unhealthy <==> health.streak >= retries)
      && health.streak == (if Succeeded(h) then Trailing(h) else Counted(period, retries, h))
    ensures var n, log := |s.history|, s.c.health.value.log;
      && |log| == (if n < 5 then n else 5)
      && forall i :: 0 <= i < |log| ==> log[i] == s.history[n - |log| + i].result
  {
    var steps :| Leads(config, START, steps, s);
    RunHealth(config, START, steps, s);
    var h := s.history[s.since..];
    if !Succeeded(h) {
      CountedMeans(config.startPeriod, Retries(config), h);
    }
  }

  // What applying one result does. It enters the history with the start of the container at that moment. A failing
  // one leaves status and streak alone exactly when the container is starting and the probe began within the start
  // period; any other counts, and makes the container unhealthy if it is the last retry.
  lemma WriteExactly(config: Config, s: Sys, m: nat)
    requires Enabled(config, s, Write(m)) && s.c.health.Some?
    ensures var t, result, before := Next(config, s, Write(m)), s.monitors[m].phase.result, s.c.health.value;
      var retries := if config.retries <= 0 then 3 else config.retries;
      var spared := before.status == Starting && result.start - s.c.startedAt < config.startPeriod;
      && t.history == s.history + [Applied(m, result, s.c.startedAt)] && t.since == s.since
      && t.c.health.Some? && t.c.startedAt == s.c.startedAt && t.c.stop == s.c.stop && t.c.closed == s.c.closed
      && var after := t.c.health.value;
         && (result.exitCode == 0 ==> after.status == Healthy && after.streak == 0)
         && (result.exitCode != 0 ==>
               && (spared <==> after.status == before.status && after.streak == before.streak)
               && (!spared ==> after.streak == before.streak + 1)
               && (!spared ==>
                     after.status == if before.streak + 1 >= retries then Unhealthy else before.status))
  {
  }

  // Monitoring goes on after an update exactly if there is a health state, the container runs unpaused, and its
  // test is a command; otherwise the channel that was stored is closed.
  lemma UpdateExactly(config: Config, c: Container)
    requires !c.crashed && (c.stop.Some? ==> StoredIsOpen(c))
    ensures var c' := UpdateHealthMonitor(config, c);
      var runs := c.running && !c.paused && config.test != [] && config.test[0] in {"CMD", "CMD-SHELL"};
      if c.health.None? then c' == c
      else if runs then
        && c'.stop.Some? && (c.stop.Some? ==> c' == c)
        && (c.stop.None? ==> c'.stop.value == |c.closed| && c'.closed == c.closed + [false])
      else
        && c'.stop.None? && !c'.crashed
        && c'.closed == if c.stop.Some? then c.closed[c.stop.value := true] else c.closed
  {
  }

  // Initialising starts over, keeping the log, if the test is a command; it does nothing otherwise.
  lemma InitExactly(config: Config, c: Container)
    requires !c.crashed && (c.stop.Some? ==> StoredIsOpen(c) && c.health.Some?)
    ensures var c' := InitHealthMonitor(config, c);
      if config.test == [] || config.test[0] !in {"CMD", "CMD-SHELL"} then c' == c
      else
        && !c'.crashed && (c.stop.Some? ==> c'.closed[..|c.closed|] == c.closed[c.stop.value := true])
        && c'.health == Some(Health(Starting, 0, if c.health.Some? then c.health.value.log else []))
        && (c'.stop.Some? <==> c.running && !c.paused) && (c'.stop.Some? ==> c'.stop.value == |c.closed|)
  {
  }

  function AppliedBy(history: seq<Applied>, m: nat): nat {
    if history == [] then 0
    else AppliedBy(history[..|history| - 1], m) + if history[|history| - 1].monitor == m then 1 else 0
  }

  // The channel of monitor m is closed.
  ghost predicate Stopped(s: Sys, m: nat) {
    m < |s.monitors| && s.monitors[m].ch < |s.c.closed| && s.c.closed[s.monitors[m].ch]
  }

  // What monitor m has applied, and the result that is already past its test.
  function Committed(s: Sys, m: nat): nat {
    AppliedBy(s.history, m) + if m < |s.monitors| && s.monitors[m].phase.Writing? then 1 else 0
  }

  lemma AppliedMore(history: seq<Applied>, a: Applied, m: nat)
    ensures AppliedBy(history + [a], m) == AppliedBy(history, m) + if a.monitor == m then 1 else 0
  {
    assert (history + [a])[..|history|] == history;
  }

  lemma StoppedKept(config: Config, s: Sys, step: Step, m: nat)
    requires Enabled(config, s, step) && Stopped(s, m)
    ensures Stopped(Next(config, s, step), m)
    ensures Next(config, s, step).monitors[m].phase.Writing? ==> s.monitors[m].phase.Writing?
    ensures step == Write(m) ==> !Next(config, s, step).monitors[m].phase.Writing?
    ensures !step.Write? ==> Next(config, s, step).history == s.history
  {
    if step.Advance? {
      CarryKeeps(s, s.event[0], m);
    } else if step.AdvanceStop? {
      CarryKeeps(s, s.stops[step.k][0], m);
    }
  }

  lemma CarryKeeps(s: Sys, todo: Todo, m: nat)
    requires Stopped(s, m)
    ensures Stopped(Carry(s, todo), m) && Carry(s, todo).history == s.history
    ensures Carry(s, todo).monitors[m] == s.monitors[m]
  {
  }

  lemma StoppedStep(config: Config, s: Sys, step: Step, m: nat)
    requires Enabled(config, s, step) && Stopped(s, m)
    ensures Stopped(Next(config, s, step), m)
    ensures Committed(Next(config, s, step), m) <= Committed(s, m)
  {
    StoppedKept(config, s, step, m);
    if step.Write? && s.c.health.Some? {
      var result := s.monitors[step.m].phase.result;
      AppliedMore(s.history, Applied(step.m, result, s.c.startedAt), m);
    }
  }

  // Once its channel is closed a monitor applies nothing any more, in any continuation and however long its
  // goroutine lives on, but for one result that was past its test when the channel was closed.
  lemma {:induction false} ClosedForGood(config: Config, s: Sys, steps: seq<Step>, t: Sys, m: nat)
    requires Leads(config, s, steps, t) && Stopped(s, m)
    ensures Stopped(t, m) && Committed(t, m) <= Committed(s, m)
    decreases |steps|
  {
    if steps != [] {
      StoppedStep(config, s, steps[0], m);
      ClosedForGood(config, Next(config, s, steps[0]), steps[1..], t, m);
    }
  }
}
