// What holds of the CPU limits of a container over any run of updates, and when the runtime gets what was asked.

module CpuProofs {
  import opened Wrappers
  import opened Cpu

  const BILLION: int := 1_000_000_000

  // ---------------------------------------------------------------------------------------------
  // Verification

  predicate Acceptable(r: Resources, sys: SysInfo) {
    && !(r.nanoCPUs > 0 && (r.cpuPeriod > 0 || r.cpuQuota > 0))
    && (r.nanoCPUs > 0 ==> sys.cpuCfsPeriod && sys.cpuCfsQuota)
    && 0 <= r.nanoCPUs <= sys.numCPU * BILLION
    && (r.cpuPeriod == 0 || (r.cpuPeriod > 0 && !sys.cpuCfsPeriod) || 1000 <= r.cpuPeriod <= 1_000_000)
    && (r.cpuQuota <= 0 || !sys.cpuCfsQuota || r.cpuQuota >= 1000)
  }

  // Which requests are accepted, and what is left of an accepted one.
  lemma VerifyExactly(r: Resources, sys: SysInfo)
    ensures Verify(r, sys).error.None? <==> Acceptable(r, sys)
    ensures Verify(r, sys).error.None? ==>
      var s, w := Verify(r, sys).resources, Verify(r, sys).warnings;
      var shares, period := r.cpuShares > 0 && !sys.cpuShares, r.cpuPeriod > 0 && !sys.cpuCfsPeriod;
      var quota, percent := r.cpuQuota > 0 && !sys.cpuCfsQuota, r.cpuPercent > 0;
      && (SharesDiscarded in w <==> shares) && s.cpuShares == (if shares then 0 else r.cpuShares)
      && (PeriodDiscarded in w <==> period) && s.cpuPeriod == (if period then 0 else r.cpuPeriod)
      && (QuotaDiscarded in w <==> quota) && s.cpuQuota == (if quota then 0 else r.cpuQuota)
      && (PercentDiscarded in w <==> percent) && s.cpuPercent == (if percent then 0 else r.cpuPercent)
      && r == s.(cpuShares := r.cpuShares, cpuPeriod := r.cpuPeriod, cpuQuota := r.cpuQuota,
                 cpuPercent := r.cpuPercent)
      && (w == [] ==> s == r)
  {
  }

  // ---------------------------------------------------------------------------------------------
  // One update

  // Which updates succeed; of two conflicts the error names the first.
  lemma UpdateAnswers(c: Config, r: Config, saved: bool)
    ensures var error, a, b := Update(c, r, saved).error, c.limits, r.limits;
      && (error.None? <==>
            && saved
            && !(b.nanoCPUs > 0 && (a.cpuPeriod > 0 || a.cpuQuota > 0))
            && !(a.nanoCPUs > 0 && (b.cpuPeriod > 0 || b.cpuQuota > 0))
            && (b.memory == 0 || b.memorySwap != 0 || b.memory <= a.memorySwap)
            && (r.restartPolicy.name in {"", "no"} || !c.autoRemove))
      && (error == Some(NanoAfterPeriod) ==> b.nanoCPUs > 0 && a.cpuPeriod > 0)
      && (error == Some(NanoAfterQuota) ==> b.nanoCPUs > 0 && a.cpuQuota > 0)
      && (error == Some(PeriodAfterNano) ==> b.cpuPeriod > 0 && a.nanoCPUs > 0)
      && (error == Some(QuotaAfterNano) ==> b.cpuQuota > 0 && a.nanoCPUs > 0)
      && (error == Some(MemoryAboveSwap) ==> b.memory > a.memorySwap && b.memorySwap == 0)
      && (error == Some(PolicyWithAutoRemove) ==> r.restartPolicy.name !in {"", "no"} && c.autoRemove)
      && (error == Some(NotSaved) ==> !saved)
      && error in {None, Some(NanoAfterPeriod), Some(NanoAfterQuota), Some(PeriodAfterNano), Some(QuotaAfterNano),
                   Some(MemoryAboveSwap), Some(PolicyWithAutoRemove), Some(NotSaved)}
  {
  }

  // The whole call: it succeeds if the container is not being removed, the update succeeds, and the engine obeys when
  // the container runs; only then does the configuration change.
  lemma OutcomeAnswers(m: Machine, r: Config, dead: bool, saved: bool, applied: bool)
    ensures var result, updated := Outcome(m, r, dead, saved, applied), Update(m.config, r, saved);
      && (result.error.None? <==> !dead && updated.error.None? && (m.running ==> applied))
      && (result.error == Some(Removed) <==> dead)
      && result.machine.config == (if result.error.None? then updated.config else m.config)
      && result.machine.running == m.running
      && (result.error.Some? || !m.running ==>
            result.machine.period == m.period && result.machine.quota == m.quota)
  {
    UpdateAnswers(m.config, r, saved);
  }

  // A number after an update: the one asked for, unless that is zero; and a text likewise.
  predicate Taken(before: int, asked: int, after: int) {
    (asked != 0 ==> after == asked) && (asked == 0 ==> after == before)
  }

  predicate TakenText(before: string, asked: string, after: string) {
    (asked != "" ==> after == asked) && (asked == "" ==> after == before)
  }

  // A successful update takes over each limit that is asked for, and no other.
  lemma UpdateTakesOver(c: Config, r: Config, saved: bool)
    requires Update(c, r, saved).error.None?
    ensures var a, b, n := c.limits, r.limits, Update(c, r, saved).config.limits;
      && Taken(a.blkioWeight, b.blkioWeight, n.blkioWeight) && Taken(a.cpuShares, b.cpuShares, n.cpuShares)
      && Taken(a.nanoCPUs, b.nanoCPUs, n.nanoCPUs) && Taken(a.cpuPeriod, b.cpuPeriod, n.cpuPeriod)
      && Taken(a.cpuQuota, b.cpuQuota, n.cpuQuota) && TakenText(a.cpusetCpus, b.cpusetCpus, n.cpusetCpus)
      && TakenText(a.cpusetMems, b.cpusetMems, n.cpusetMems) && Taken(a.memory, b.memory, n.memory)
      && Taken(a.memorySwap, b.memorySwap, n.memorySwap)
      && Taken(a.memoryReservation, b.memoryReservation, n.memoryReservation)
      && Taken(a.kernelMemory, b.kernelMemory, n.kernelMemory)
      && n.cpuRealtimePeriod == a.cpuRealtimePeriod && n.cpuRealtimeRuntime == a.cpuRealtimeRuntime
      && n.cpuPercent == a.cpuPercent
    ensures var n := Update(c, r, saved).config;
      n.autoRemove == c.autoRemove
      && n.restartPolicy == if r.restartPolicy.name != "" then r.restartPolicy else c.restartPolicy
  {
  }

  // The signed number whose bits the runtime is given; zero stands for none.
  function Signed(x: Option<uint64>): int {
    if x.None? then 0 else if x.value < TWO64 / 2 then x.value else x.value - TWO64
  }

  function TextOf(x: Option<string>): string {
    if x.None? then "" else x.value
  }

  // The runtime's form of the CPU limits gives them back, negative ones included; a limit is absent from it
  // exactly if it is zero or empty. Period and quota are those of the container unless NanoCPUs stand in for them.
  lemma SpecReadBack(r: Resources)
    ensures var s := GetCPUResources(r);
      && Signed(s.shares) == r.cpuShares && (s.shares.None? <==> r.cpuShares == 0)
      && TextOf(s.cpus) == r.cpusetCpus && (s.cpus.None? <==> r.cpusetCpus == "")
      && TextOf(s.mems) == r.cpusetMems && (s.mems.None? <==> r.cpusetMems == "")
      && Signed(s.realtimePeriod) == r.cpuRealtimePeriod && (s.realtimePeriod.None? <==> r.cpuRealtimePeriod == 0)
      && Signed(s.realtimeRuntime) == r.cpuRealtimeRuntime && (s.realtimeRuntime.None? <==> r.cpuRealtimeRuntime == 0)
      && (r.cpuPeriod != 0 || r.nanoCPUs <= 0 ==>
            Signed(s.period) == r.cpuPeriod && (s.period.None? <==> r.cpuPeriod == 0))
      && (r.cpuQuota != 0 || r.nanoCPUs <= 0 ==>
            Signed(s.quota) == r.cpuQuota && (s.quota.None? <==> r.cpuQuota == 0))
      && (r.nanoCPUs > 0 && r.cpuPeriod == 0 ==> s.period == Some(100_000))
      && (r.nanoCPUs > 0 && r.cpuQuota == 0 ==> s.quota.Some?)
  {
  }

  // ---------------------------------------------------------------------------------------------
  // Runs

  // The CPU is limited in one way at most, and within range.
  predicate OneWay(r: Resources, sys: SysInfo) {
    && !(r.nanoCPUs > 0 && (r.cpuPeriod > 0 || r.cpuQuota > 0))
    && (r.nanoCPUs > 0 ==> sys.cpuCfsPeriod && sys.cpuCfsQuota)
    && 0 <= r.nanoCPUs <= sys.numCPU * BILLION
    && (r.cpuPeriod == 0 || (sys.cpuCfsPeriod && 1000 <= r.cpuPeriod <= 1_000_000))
    && (r.cpuQuota <= 0 || (sys.cpuCfsQuota && r.cpuQuota >= 1000))
    && (r.cpuShares <= 0 || sys.cpuShares)
    && r.cpuPercent <= 0
  }

  // What happens to a container: it is started (by hand or by its restart policy), it stops, it is asked to be
  // updated.
  datatype Event =
    | Started(byHand: bool)
    | Stopped
    | Requested(request: Config, dead: bool, saved: bool, applied: bool)

  // The request as verification leaves it.
  function Verified(e: Event, sys: SysInfo): Config
    requires e.Requested?
  {
    e.request.(limits := Verify(e.request.limits, sys).resources)
  }

  predicate Accepted(e: Event, sys: SysInfo) {
    e.Requested? && Verify(e.request.limits, sys).error.None?
  }

  // The limit in the configuration of a container that is started.
  function NextPeriod(r: Resources): uint64 {
    OrZero(GetCPUResources(r).period)
  }

  function NextQuota(r: Resources): uint64 {
    OrZero(GetCPUResources(r).quota)
  }

  // Zero stands for a limit that is not set.
  function OrZero(x: Option<uint64>): uint64 {
    if x.None? then 0 else x.value
  }

  function Launch(m: Machine): Machine {
    m.(running := true, period := NextPeriod(m.config.limits), quota := NextQuota(m.config.limits))
  }

  function Act(m: Machine, e: Event, sys: SysInfo): Machine {
    match e
    case Started(byHand) =>
      if m.running then m
      else if !byHand then Launch(m)
      else
        var verdict := Verify(m.config.limits, sys);
        var checked := m.(config := m.config.(limits := verdict.resources));
        if verdict.error.Some? then checked else Launch(checked.(manager := None))
    case Stopped => if m.running then m.(running := false, manager := Some(PolicyInForce(m))) else m
    case Requested(request, dead, saved, applied) =>
      if Accepted(e, sys) then Outcome(m, Verified(e, sys), dead, saved, applied).machine else m
  }

  // What the container holds when UpdateContainer returns, before a failure is rolled back.
  function Meanwhile(m: Machine, e: Event, sys: SysInfo): Config {
    if Accepted(e, sys) then Update(m.config, Verified(e, sys), e.saved).config else m.config
  }

  function Run(m: Machine, events: seq<Event>, sys: SysInfo): Machine {
    if events == [] then m else Act(Run(m, events[..|events| - 1], sys), events[|events| - 1], sys)
  }

  // A container is created from a request that was accepted.
  ghost predicate Created(c: Config, sys: SysInfo) {
    exists r: Resources :: Verify(r, sys).error.None? && c.limits == Verify(r, sys).resources
  }

  ghost predicate Fresh(m: Machine, sys: SysInfo) {
    Created(m.config, sys) && m.manager.None? && !m.running
  }

  lemma AcceptedOneWay(r: Resources, sys: SysInfo)
    requires Verify(r, sys).error.None?
    ensures OneWay(Verify(r, sys).resources, sys)
  {
    VerifyExactly(r, sys);
  }

  lemma AssignedOneWay(c: Resources, r: Resources, sys: SysInfo)
    requires OneWay(c, sys) && OneWay(r, sys) && Conflict(c, r).None?
    ensures OneWay(Assigned(c, r), sys) && OneWay(MemoryAssigned(Assigned(c, r), r), sys)
  {
  }

  lemma UpdateOneWay(c: Config, r: Config, saved: bool, sys: SysInfo)
    requires OneWay(c.limits, sys) && OneWay(r.limits, sys)
    ensures OneWay(Update(c, r, saved).config.limits, sys)
  {
    if Conflict(c.limits, r.limits).None? {
      AssignedOneWay(c.limits, r.limits, sys);
    }
  }

  lemma ActOneWay(m: Machine, e: Event, sys: SysInfo)
    requires OneWay(m.config.limits, sys)
    ensures OneWay(Act(m, e, sys).config.limits, sys) && OneWay(Meanwhile(m, e, sys).limits, sys)
    ensures Verify(m.config.limits, sys) == Verdict(m.config.limits, [], None)
  {
    if Accepted(e, sys) {
      AcceptedOneWay(e.request.limits, sys);
      UpdateOneWay(m.config, Verified(e, sys), e.saved, sys);
    }
  }

  lemma {:induction false} RunOneWay(m: Machine, events: seq<Event>, sys: SysInfo)
    requires Fresh(m, sys)
    ensures OneWay(Run(m, events, sys).config.limits, sys)
  {
    if events == [] {
      var r :| Verify(r, sys).error.None? && m.config.limits == Verify(r, sys).resources;
      AcceptedOneWay(r, sys);
    } else {
      RunOneWay(m, events[..|events| - 1], sys);
      ActOneWay(Run(m, events[..|events| - 1], sys), events[|events| - 1], sys);
    }
  }

  // In every run, and even while a failing update has not been rolled back, NanoCPUs excludes a period and a
  // quota.
  lemma {:induction false} NeverBoth(m: Machine, events: seq<Event>, e: Event, sys: SysInfo)
    requires Fresh(m, sys)
    ensures var after, during := Run(m, events, sys).config.limits, Meanwhile(Run(m, events, sys), e, sys).limits;
      && (after.nanoCPUs > 0 ==> after.cpuPeriod == 0 && after.cpuQuota <= 0)
      && (during.nanoCPUs > 0 ==> during.cpuPeriod == 0 && during.cpuQuota <= 0)
  {
    RunOneWay(m, events, sys);
    ActOneWay(Run(m, events, sys), e, sys);
  }

  // The container is verified again when it is started: no run of updates makes it fail or changes it.
  lemma {:induction false} StartAccepts(m: Machine, events: seq<Event>, sys: SysInfo)
    requires Fresh(m, sys)
    ensures var limits := Run(m, events, sys).config.limits;
      Verify(limits, sys) == Verdict(limits, [], None)
  {
    RunOneWay(m, events, sys);
    ActOneWay(Run(m, events, sys), Stopped, sys);
  }

  lemma PartlyAssigned() returns (c: Config, r: Config)
    ensures Update(c, r, true).error == Some(MemoryAboveSwap) && Update(c, r, true).config != c
  {
    var none := Resources(0, 0, 0, 0, 0, 0, 0, "", "", 0, 0, 0, 0, 0);
    c := Config(none.(memory := 8, memorySwap := 8), Policy("", 0), false);
    r := Config(none.(cpuShares := 2, memory := 16), Policy("", 0), false);
  }

  // ---------------------------------------------------------------------------------------------
  // Conversions

  // The uint64 product does not overflow for any permitted NanoCPUs exactly up to 184467 CPUs.
  lemma OverflowBound(numCPU: nat)
    ensures (forall nano: int :: 0 <= nano <= numCPU * BILLION ==> 0 <= Scaled(nano) < TWO64) <==> numCPU <= 184_467
  {
    if numCPU > 184_467 {
      assert Scaled(numCPU * BILLION) >= TWO64;
    }
  }

  function Scaled(nano: int): int {
    nano * 100_000
  }

  // The quota is the exact share of a period of 100 ms exactly when the product does not overflow.
  lemma QuotaExact(nano: int64)
    requires nano > 0
    ensures Mul64(ToUint64(nano), DEFAULT_PERIOD) / BILLION == nano / 10_000 <==> Scaled(nano) < TWO64
  {
    var product := nano * 100_000;
    assert product / BILLION == nano / 10_000;
    if product >= TWO64 {
      assert product % TWO64 <= product - TWO64;
      assert (product - TWO64) / BILLION < product / BILLION;
    } else {
      assert product % TWO64 == product;
    }
  }

  // The runtime is given the NanoCPUs of the container.
  predicate Honoured(r: Resources) {
    GetCPUResources(r).period == Some(DEFAULT_PERIOD) && GetCPUResources(r).quota == Some(r.nanoCPUs / 10_000)
  }

  // ---------------------------------------------------------------------------------------------
  // The next start

  lemma {:induction false} RunExact(m: Machine, events: seq<Event>, sys: SysInfo)
    requires Fresh(m, sys) && sys.numCPU <= 184_467
    ensures OneWay(Run(m, events, sys).config.limits, sys)
    ensures NanoExact(Run(m, events, sys).config.limits.nanoCPUs)
  {
    RunOneWay(m, events, sys);
    OneWayExact(Run(m, events, sys).config.limits, sys);
  }

  predicate NanoExact(nano: int64) {
    nano > 0 ==> Mul64(ToUint64(nano), DEFAULT_PERIOD) / BILLION == nano / 10_000
  }

  lemma OneWayExact(r: Resources, sys: SysInfo)
    requires OneWay(r, sys) && sys.numCPU <= 184_467
    ensures NanoExact(r.nanoCPUs)
  {
    if r.nanoCPUs > 0 {
      OverflowBound(sys.numCPU);
      assert Scaled(r.nanoCPUs) < TWO64;
      QuotaExact(r.nanoCPUs);
    }
  }

  // On a machine of at most 184467 CPUs the NanoCPUs of a container are honoured, and never more than the CPUs
  // there are, exactly when no (negative) quota was set beside them.
  lemma {:induction false} HonouredExactly(m: Machine, events: seq<Event>, sys: SysInfo)
    requires Fresh(m, sys) && sys.numCPU <= 184_467
    requires Run(m, events, sys).config.limits.nanoCPUs > 0
    ensures var r := Run(m, events, sys).config.limits;
      && (Honoured(r) <==> r.cpuQuota == 0)
      && (r.cpuQuota == 0 ==> GetCPUResources(r).quota.value <= sys.numCPU * DEFAULT_PERIOD)
      && (r.cpuQuota != 0 ==> GetCPUResources(r).quota.value >= TWO64 / 2)
  {
    RunExact(m, events, sys);
  }

  // ---------------------------------------------------------------------------------------------
  // The limit in force and the limit of the next start

  // A request that reached the kernel.
  predicate Applied(m: Machine, e: Event, sys: SysInfo) {
    && Accepted(e, sys) && m.running && e.applied && !e.dead
    && Update(m.config, Verified(e, sys), e.saved).error.None?
  }

  predicate AsksForQuota(r: Resources) {
    r.nanoCPUs != 0 || r.cpuQuota != 0
  }

  // Whether the quota in force will survive a restart, decided by the last start or request that concerned it.
  // A request for a quota settles it. A request for NanoCPUs is told to the kernel as it is, while a quota that
  // is set beside them, then or before, takes precedence at the next start; NanoCPUs below 10000 come to a
  // quota of zero, which the kernel is not told.
  predicate QuotaLasts(m: Machine, events: seq<Event>, sys: SysInfo) {
    if events == [] then true
    else
      var before, e := Run(m, events[..|events| - 1], sys), events[|events| - 1];
      if e.Started? && !before.running then true
      else if Applied(before, e, sys) && AsksForQuota(Verified(e, sys).limits) then
        var nano, quota := Verified(e, sys).limits.nanoCPUs, Act(before, e, sys).config.limits.cpuQuota;
        if nano == 0 then true
        else if quota == 0 then nano >= 10_000 || before.quota == 0
        else nano < 10_000 && before.quota == ToUint64(quota)
      else QuotaLasts(m, events[..|events| - 1], sys)
  }

  lemma AppliedLimits(m: Machine, e: Event, sys: SysInfo)
    requires OneWay(m.config.limits, sys) && Applied(m, e, sys) && sys.numCPU <= 184_467
    ensures OneWay(Verified(e, sys).limits, sys) && Conflict(m.config.limits, Verified(e, sys).limits).None?
    ensures var r, t := Verified(e, sys).limits, Act(m, e, sys);
      && NanoExact(r.nanoCPUs) && NanoExact(t.config.limits.nanoCPUs) && NanoExact(m.config.limits.nanoCPUs)
      && t.config.limits == MemoryAssigned(Assigned(m.config.limits, r), r)
      && t.running && t.period == Written(ToContainerdCPU(r).0, m.period)
      && t.quota == Written(ToContainerdCPU(r).1, m.quota)
  {
    AcceptedOneWay(e.request.limits, sys);
    OneWayExact(Verified(e, sys).limits, sys);
    ActOneWay(m, e, sys);
    OneWayExact(m.config.limits, sys);
    OneWayExact(Act(m, e, sys).config.limits, sys);
  }

  // The values that a request for NanoCPUs or a quota leaves.
  lemma AppliedPeriod(m: Machine, e: Event, sys: SysInfo)
    requires OneWay(m.config.limits, sys) && Applied(m, e, sys) && sys.numCPU <= 184_467
    requires m.period == NextPeriod(m.config.limits)
    ensures Act(m, e, sys).period == NextPeriod(Act(m, e, sys).config.limits)
  {
    AppliedLimits(m, e, sys);
  }

  lemma AppliedQuota(m: Machine, e: Event, sys: SysInfo)
    requires OneWay(m.config.limits, sys) && Applied(m, e, sys) && sys.numCPU <= 184_467
    ensures var nano, t := Verified(e, sys).limits.nanoCPUs, Act(m, e, sys);
      var quota := t.config.limits.cpuQuota;
      if !AsksForQuota(Verified(e, sys).limits) then
        t.quota == m.quota && NextQuota(t.config.limits) == NextQuota(m.config.limits)
      else t.quota == NextQuota(t.config.limits) <==>
        if nano == 0 then true
        else if quota == 0 then nano >= 10_000 || m.quota == 0
        else nano < 10_000 && m.quota == ToUint64(quota)
  {
    AppliedLimits(m, e, sys);
  }

  // Any other event leaves the limit in force and the configured one alone.
  lemma OtherwiseSame(m: Machine, e: Event, sys: SysInfo)
    requires OneWay(m.config.limits, sys) && m.running && !Applied(m, e, sys)
    ensures var t := Act(m, e, sys);
      t.period == m.period && t.quota == m.quota && t.config == m.config
  {
  }

  lemma StartedFresh(m: Machine, e: Event, sys: SysInfo)
    requires OneWay(m.config.limits, sys) && !m.running && Act(m, e, sys).running
    ensures var t := Act(m, e, sys);
      e.Started? && t.period == NextPeriod(t.config.limits) && t.quota == NextQuota(t.config.limits)
  {
    ActOneWay(m, e, sys);
  }

  // While a container runs, the period in force is the one of its next start, and the quota is exactly under
  // the condition above, which looks at no more than the last request that concerned it.
  lemma {:induction false} LimitLastsExactly(m: Machine, events: seq<Event>, sys: SysInfo)
    requires Fresh(m, sys) && sys.numCPU <= 184_467 && Run(m, events, sys).running
    ensures var t := Run(m, events, sys);
      && t.period == NextPeriod(t.config.limits)
      && (t.quota == NextQuota(t.config.limits) <==> QuotaLasts(m, events, sys))
  {
    var before, e := Run(m, events[..|events| - 1], sys), events[|events| - 1];
    RunOneWay(m, events[..|events| - 1], sys);
    if !before.running {
      StartedFresh(before, e, sys);
    } else {
      LimitLastsExactly(m, events[..|events| - 1], sys);
      if Applied(before, e, sys) {
        AppliedPeriod(before, e, sys);
        AppliedQuota(before, e, sys);
      } else {
        OtherwiseSame(before, e, sys);
      }
    }
  }

  // A quota of -1 is accepted beside NanoCPUs. It lifts the limit of the running container at once, and again at
  // its next start.
  lemma NegativeQuotaLifts(sys: SysInfo) returns (m: Machine, events: seq<Event>)
    requires sys.numCPU >= 1 && sys.cpuCfsPeriod && sys.cpuCfsQuota
    ensures Fresh(m, sys) && |events| == 2 && Run(m, events[..1], sys).quota == 50_000
    ensures var t := Run(m, events, sys);
      t.config.limits.nanoCPUs == 500_000_000 && t.quota == NextQuota(t.config.limits) == TWO64 - 1
  {
    m := HalfCPU(0);
    var e := Asks(NONE.(cpuQuota := -1));
    assert Verify(m.config.limits, sys) == Verdict(m.config.limits, [], None);
    assert Verify(NONE.(cpuQuota := -1), sys) == Verdict(NONE.(cpuQuota := -1), [], None);
    events := [Started(true), e];
    TwoEvents(m, Started(true), e, sys);
  }

  // The other way round the limit holds until the next start lifts it.
  lemma QuotaFirstLastsUntilRestart(sys: SysInfo) returns (m: Machine, events: seq<Event>)
    requires sys.numCPU >= 1 && sys.cpuCfsPeriod && sys.cpuCfsQuota
    ensures Fresh(m, sys) && |events| == 2
    ensures var t := Run(m, events, sys);
      t.running && t.quota == 50_000 && NextQuota(t.config.limits) == TWO64 - 1
  {
    var limits := NONE.(cpuQuota := -1);
    m := Machine(Config(limits, Policy("", 0), false), None, false, 0, 0);
    var e := Asks(NONE.(nanoCPUs := 500_000_000));
    assert Verify(limits, sys) == Verdict(limits, [], None);
    assert Verify(e.request.limits, sys) == Verdict(e.request.limits, [], None);
    events := [Started(true), e];
    TwoEvents(m, Started(true), e, sys);
  }

  const NONE := Resources(0, 0, 0, 0, 0, 0, 0, "", "", 0, 0, 0, 0, 0)

  function HalfCPU(quota: int64): Machine {
    Machine(Config(NONE.(nanoCPUs := 500_000_000, cpuQuota := quota), Policy("", 0), false), None, false, 0, 0)
  }

  function Asks(r: Resources): Event {
    Requested(Config(r, Policy("", 0), false), false, true, true)
  }

  lemma TwoEvents(m: Machine, e: Event, f: Event, sys: SysInfo)
    ensures Run(m, [e, f][..1], sys) == Act(m, e, sys)
    ensures Run(m, [e, f], sys) == Act(Act(m, e, sys), f, sys)
  {
    assert [e, f][..1] == [e];
    assert [e][..0] == [];
    assert Run(m, [e], sys) == Act(Run(m, [], sys), e, sys);
  }

  // ---------------------------------------------------------------------------------------------
  // The restart manager

  // A request that got as far as the restart manager.
  predicate TellsManager(m: Machine, e: Event, sys: SysInfo) {
    && Accepted(e, sys) && !e.dead && e.request.restartPolicy.name != ""
    && Update(m.config, Verified(e, sys), e.saved).error.None?
  }

  // The last request that told the manager a policy, since the container was last started by hand, was not
  // applied by the engine and asked for a policy other than the one that was put back.
  predicate ManagerAhead(m: Machine, events: seq<Event>, sys: SysInfo) {
    if events == [] then false
    else
      var before, e := Run(m, events[..|events| - 1], sys), events[|events| - 1];
      if e == Started(true) && !before.running then false
      else if TellsManager(before, e, sys) then
        before.running && !e.applied && e.request.restartPolicy != before.config.restartPolicy
      else ManagerAhead(m, events[..|events| - 1], sys)
  }

  lemma ActPolicy(m: Machine, e: Event, sys: SysInfo)
    requires OneWay(m.config.limits, sys)
    ensures var t := Act(m, e, sys);
      if e == Started(true) && !m.running then PolicyInForce(t) == t.config.restartPolicy
      else if TellsManager(m, e, sys) then
        && PolicyInForce(t) == e.request.restartPolicy
        && t.config.restartPolicy == (if m.running && !e.applied then m.config else e.request).restartPolicy
      else PolicyInForce(t) == PolicyInForce(m) && t.config.restartPolicy == m.config.restartPolicy
  {
    ActOneWay(m, e, sys);
  }

  // The policy that decides about a restart differs from the configured one exactly under that condition: an
  // update that fails in the engine restores the configuration, but not the manager.
  lemma {:induction false} ManagerExactly(m: Machine, events: seq<Event>, sys: SysInfo)
    requires Fresh(m, sys)
    ensures var t := Run(m, events, sys);
      PolicyInForce(t) != t.config.restartPolicy <==> ManagerAhead(m, events, sys)
  {
    if events != [] {
      var before, e := Run(m, events[..|events| - 1], sys), events[|events| - 1];
      RunOneWay(m, events[..|events| - 1], sys);
      ManagerExactly(m, events[..|events| - 1], sys);
      ActPolicy(before, e, sys);
    }
  }
}
