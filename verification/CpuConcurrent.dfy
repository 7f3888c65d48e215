// Updates of one container that overlap: daemon.update copies the configuration, changes it under the container lock,
// tells the engine, and puts the copy back if something failed, with the lock held only for the change and for the
// putting back.

module CpuConcurrent {
  import opened Wrappers
  import opened Cpu
  import opened CpuProofs

  // Begun: the copy is made. Failed: the copy has still to be put back.
  datatype Stage = Begun | Changed | Failed | Done

  datatype Call = Call(request: Config, backup: Config, stage: Stage)

  datatype Sys = Sys(m: Machine, calls: seq<Call>)

  datatype Step =
    | Begin(request: Config)
    | Change(k: nat, saved: bool)
    | Tell(k: nat, applied: bool)
    | Restore(k: nat)
    | Life(e: Event)

  predicate AtStage(s: Sys, k: nat, stage: Stage) {
    k < |s.calls| && s.calls[k].stage == stage
  }

  predicate Enabled(s: Sys, step: Step, sys: SysInfo) {
    match step
    case Begin(request) => Verify(request.limits, sys).error.None?
    case Change(k, _) => AtStage(s, k, Begun)
    case Tell(k, _) => AtStage(s, k, Changed)
    case Restore(k) => AtStage(s, k, Failed)
    case Life(e) => !e.Requested?
  }

  function At(s: Sys, k: nat, stage: Stage): seq<Call>
    requires k < |s.calls|
  {
    s.calls[k := s.calls[k].(stage := stage)]
  }

  // The restart manager, then the engine.
  function Told(m: Machine, r: Config): Machine {
    var (period, quota) := ToContainerdCPU(r.limits);
    m.(manager := if r.restartPolicy.name != "" then Some(r.restartPolicy) else m.manager,
       period := if m.running then Cpu.Written(period, m.period) else m.period,
       quota := if m.running then Cpu.Written(quota, m.quota) else m.quota)
  }

  function Next(s: Sys, step: Step, sys: SysInfo): Sys
    requires Enabled(s, step, sys)
  {
    match step
    case Begin(request) =>
      s.(calls := s.calls + [Call(request.(limits := Verify(request.limits, sys).resources), s.m.config, Begun)])
    case Change(k, saved) =>
      var u := Update(s.m.config, s.calls[k].request, saved);
      Sys(s.m.(config := u.config), At(s, k, if u.error.Some? then Failed else Changed))
    case Tell(k, applied) =>
      var told := Told(s.m, s.calls[k].request);
      if s.m.running && !applied then Sys(s.m.(manager := told.manager), At(s, k, Failed))
      else Sys(told, At(s, k, Done))
    case Restore(k) => Sys(s.m.(config := s.calls[k].backup), At(s, k, Done))
    case Life(e) => s.(m := Act(s.m, e, sys))
  }

  ghost predicate Leads(s: Sys, steps: seq<Step>, t: Sys, sys: SysInfo)
    decreases |steps|
  {
    if steps == [] then s == t
    else Enabled(s, steps[0], sys) && Leads(Next(s, steps[0], sys), steps[1..], t, sys)
  }

  // ---------------------------------------------------------------------------------------------
  // One call alone is the update described before

  lemma AloneIsOutcome(m: Machine, request: Config, saved: bool, applied: bool, sys: SysInfo)
      returns (steps: seq<Step>, t: Sys)
    requires Verify(request.limits, sys).error.None?
    ensures Leads(Sys(m, []), steps, t, sys) && AtStage(t, 0, Done)
    ensures t.m == Act(m, Requested(request, false, saved, applied), sys)
  {
    var s0 := Sys(m, []);
    var s1 := Next(s0, Begin(request), sys);
    var s2 := Next(s1, Change(0, saved), sys);
    if AtStage(s2, 0, Failed) {
      t := Next(s2, Restore(0), sys);
      steps := [Begin(request)] + ([Change(0, saved)] + ([Restore(0)] + []));
      Before(s2, Restore(0), [], t, sys);
      Before(s1, Change(0, saved), [Restore(0)] + [], t, sys);
    } else {
      var rest;
      rest, t := TellAlone(s2, applied, sys);
      steps := [Begin(request)] + ([Change(0, saved)] + rest);
      Before(s1, Change(0, saved), rest, t, sys);
    }
    Before(s0, Begin(request), steps[1..], t, sys);
  }

  lemma TellAlone(s: Sys, applied: bool, sys: SysInfo) returns (steps: seq<Step>, t: Sys)
    requires AtStage(s, 0, Changed)
    ensures Leads(s, steps, t, sys) && AtStage(t, 0, Done)
    ensures t.m == if s.m.running && !applied
                   then s.m.(manager := Told(s.m, s.calls[0].request).manager, config := s.calls[0].backup)
                   else Told(s.m, s.calls[0].request)
  {
    t := Next(s, Tell(0, applied), sys);
    if AtStage(t, 0, Failed) {
      var told := t;
      t := Next(told, Restore(0), sys);
      Before(told, Restore(0), [], t, sys);
      Before(s, Tell(0, applied), [Restore(0)] + [], t, sys);
      steps := [Tell(0, applied)] + ([Restore(0)] + []);
    } else {
      Before(s, Tell(0, applied), [], t, sys);
      steps := [Tell(0, applied)] + [];
    }
  }

  lemma Before(s: Sys, step: Step, steps: seq<Step>, t: Sys, sys: SysInfo)
    requires Enabled(s, step, sys) && Leads(Next(s, step, sys), steps, t, sys)
    ensures Leads(s, [step] + steps, t, sys)
  {
    assert ([step] + steps)[1..] == steps;
  }

  // ---------------------------------------------------------------------------------------------
  // What survives overlapping

  ghost predicate AllOneWay(s: Sys, sys: SysInfo) {
    && OneWay(s.m.config.limits, sys)
    && forall k :: 0 <= k < |s.calls| ==>
         OneWay(s.calls[k].request.limits, sys) && OneWay(s.calls[k].backup.limits, sys)
  }

  lemma OneWayStep(s: Sys, step: Step, sys: SysInfo)
    requires AllOneWay(s, sys) && Enabled(s, step, sys)
    ensures AllOneWay(Next(s, step, sys), sys)
  {
    match step
    case Begin(request) => AcceptedOneWay(request.limits, sys);
    case Change(k, saved) => UpdateOneWay(s.m.config, s.calls[k].request, saved, sys);
    case Life(e) => ActOneWay(s.m, e, sys);
    case Tell(_, _) =>
    case Restore(_) =>
  }

  lemma {:induction false} RunAllOneWay(s: Sys, steps: seq<Step>, t: Sys, sys: SysInfo)
    requires AllOneWay(s, sys) && Leads(s, steps, t, sys)
    ensures AllOneWay(t, sys)
    decreases |steps|
  {
    if steps != [] {
      OneWayStep(s, steps[0], sys);
      RunAllOneWay(Next(s, steps[0], sys), steps[1..], t, sys);
    }
  }

  // However updates overlap, fail and are rolled back, NanoCPUs excludes a period and a quota, at every moment.
  lemma NeverBothOverlapping(m: Machine, steps: seq<Step>, t: Sys, sys: SysInfo)
    requires Fresh(m, sys) && Leads(Sys(m, []), steps, t, sys)
    ensures t.m.config.limits.nanoCPUs > 0 ==> t.m.config.limits.cpuPeriod == 0 && t.m.config.limits.cpuQuota <= 0
  {
    RunOneWay(m, [], sys);
    RunAllOneWay(Sys(m, []), steps, t, sys);
  }

  lemma {:induction false} BackupKept(s: Sys, steps: seq<Step>, t: Sys, k: nat, sys: SysInfo)
    requires Leads(s, steps, t, sys) && k < |s.calls|
    ensures k < |t.calls| && t.calls[k].backup == s.calls[k].backup
    decreases |steps|
  {
    if steps != [] {
      BackupKept(Next(s, steps[0], sys), steps[1..], t, k, sys);
    }
  }

  // When a failing update is rolled back, the configuration is the one that it began with, so that whatever other
  // updates have changed since is undone.
  lemma RestoreUndoes(s: Sys, request: Config, steps: seq<Step>, t: Sys, sys: SysInfo)
    requires Enabled(s, Begin(request), sys) && Leads(Next(s, Begin(request), sys), steps, t, sys)
    requires AtStage(t, |s.calls|, Failed)
    ensures Enabled(t, Restore(|s.calls|), sys) && Next(t, Restore(|s.calls|), sys).m.config == s.m.config
  {
    BackupKept(Next(s, Begin(request), sys), steps, t, |s.calls|, sys);
  }

  // An update of CPU shares succeeds and is undone by one of the memory limit that began before it and fails.
  lemma SuccessUndone() returns (m: Machine, steps: seq<Step>, t: Sys, sys: SysInfo)
    ensures Fresh(m, sys) && Leads(Sys(m, []), steps, t, sys) && |t.calls| == 2
    ensures t.calls[1].stage == Done && t.calls[1].request.limits.cpuShares == 2 && t.m.config.limits.cpuShares == 0
  {
    sys := SysInfo(1, true, true, true);
    var policy := Policy("", 0);
    m := Machine(Config(NONE.(memory := 8, memorySwap := 8), policy, false), None, false, 0, 0);
    var a, b := Config(NONE.(memory := 16), policy, false), Config(NONE.(cpuShares := 2), policy, false);
    assert Verify(m.config.limits, sys) == Verdict(m.config.limits, [], None);
    assert Verify(a.limits, sys) == Verdict(a.limits, [], None) && Verify(b.limits, sys) == Verdict(b.limits, [], None);
    var s2 := Sys(m, [Call(a, m.config, Begun), Call(b, m.config, Begun)]);
    var rest;
    rest, t := ThenUndone(s2, sys, m, a, b);
    var s1 := Next(Sys(m, []), Begin(a), sys);
    assert Next(s1, Begin(b), sys) == s2;
    Before(s1, Begin(b), rest, t, sys);
    Before(Sys(m, []), Begin(a), [Begin(b)] + rest, t, sys);
    steps := [Begin(a)] + ([Begin(b)] + rest);
  }

  lemma ThenUndone(s: Sys, sys: SysInfo, m: Machine, a: Config, b: Config) returns (steps: seq<Step>, t: Sys)
    requires !m.running && m.config.limits == NONE.(memory := 8, memorySwap := 8) && !m.config.autoRemove
    requires a == Config(NONE.(memory := 16), Policy("", 0), false)
    requires b == Config(NONE.(cpuShares := 2), Policy("", 0), false)
    requires s == Sys(m, [Call(a, m.config, Begun), Call(b, m.config, Begun)])
    ensures Leads(s, steps, t, sys) && |t.calls| == 2 && t.calls[1] == Call(b, m.config, Done) && t.m.config == m.config
  {
    var s1 := Next(s, Change(1, true), sys);
    assert AtStage(s1, 1, Changed);
    var s2 := Next(s1, Tell(1, true), sys);
    var s3 := Next(s2, Change(0, true), sys);
    assert AtStage(s3, 0, Failed);
    t := Next(s3, Restore(0), sys);
    Before(s3, Restore(0), [], t, sys);
    Before(s2, Change(0, true), [Restore(0)] + [], t, sys);
    var w := [Change(0, true)] + ([Restore(0)] + []);
    Before(s1, Tell(1, true), w, t, sys);
    Before(s, Change(1, true), [Tell(1, true)] + w, t, sys);
    steps := [Change(1, true)] + ([Tell(1, true)] + w);
  }
}
