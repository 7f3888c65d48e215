// The limits of a container: verifyContainerResources (its CPU part), UpdateContainer with the rollback of its
// caller, and the two conversions of a CPU limit for the runtime.

module Cpu {
  import opened Wrappers

  const TWO64: int := 0x1_0000_0000_0000_0000

  type int64 = x: int | -0x8000_0000_0000_0000 <= x < 0x8000_0000_0000_0000
  type uint64 = x: int | 0 <= x < 0x1_0000_0000_0000_0000

  datatype Resources = Resources(
    cpuShares: int64,
    nanoCPUs: int64,
    cpuPeriod: int64,
    cpuQuota: int64,
    cpuRealtimePeriod: int64,
    cpuRealtimeRuntime: int64,
    cpuPercent: int64,
    cpusetCpus: string,
    cpusetMems: string,
    blkioWeight: int,
    memory: int64,
    memorySwap: int64,
    memoryReservation: int64,
    kernelMemory: int64)

  datatype SysInfo = SysInfo(numCPU: nat, cpuShares: bool, cpuCfsPeriod: bool, cpuCfsQuota: bool)

  datatype Warning = SharesDiscarded | PeriodDiscarded | QuotaDiscarded | PercentDiscarded

  datatype Error =
    | NanoWithPeriod
    | NanoWithQuota
    | NoCfs
    | RangeOfCPUs
    | RangeOfPeriod
    | QuotaTooSmall
    | NanoAfterPeriod
    | NanoAfterQuota
    | PeriodAfterNano
    | QuotaAfterNano
    | MemoryAboveSwap
    | PolicyWithAutoRemove
    | Removed
    | NotSaved
    | NotApplied

  // ---------------------------------------------------------------------------------------------
  // Verification

  datatype Verdict = Verdict(resources: Resources, warnings: seq<Warning>, error: Option<Error>)

  // What the kernel does not support is discarded.
  function Supported(r: Resources, sys: SysInfo): Resources {
    r.(cpuShares := if r.cpuShares > 0 && !sys.cpuShares then 0 else r.cpuShares,
       cpuPeriod := if r.cpuPeriod > 0 && !sys.cpuCfsPeriod then 0 else r.cpuPeriod,
       cpuQuota := if r.cpuQuota > 0 && !sys.cpuCfsQuota then 0 else r.cpuQuota,
       cpuPercent := if r.cpuPercent > 0 then 0 else r.cpuPercent)
  }

  // The limits of a container or of a request, a struct whose fields are assigned one by one.
  class HostConfig {
    var resources: Resources
    var restartPolicy: Policy
    var autoRemove: bool

    ghost function Value(): Config
      reads this
    {
      Config(resources, restartPolicy, autoRemove)
    }

    constructor (resources: Resources, restartPolicy: Policy, autoRemove: bool)
      ensures Value() == Config(resources, restartPolicy, autoRemove)
    {
      this.resources, this.restartPolicy, this.autoRemove := resources, restartPolicy, autoRemove;
    }

    method AssignCPU(r: Resources)
      modifies this`resources
      ensures resources == Assigned(old(resources), r)
    {
      if r.blkioWeight != 0 {
        resources := resources.(blkioWeight := r.blkioWeight);
      }
      if r.cpuShares != 0 {
        resources := resources.(cpuShares := r.cpuShares);
      }
      if r.nanoCPUs != 0 {
        resources := resources.(nanoCPUs := r.nanoCPUs);
      }
      if r.cpuPeriod != 0 {
        resources := resources.(cpuPeriod := r.cpuPeriod);
      }
      if r.cpuQuota != 0 {
        resources := resources.(cpuQuota := r.cpuQuota);
      }
      if r.cpusetCpus != "" {
        resources := resources.(cpusetCpus := r.cpusetCpus);
      }
      if r.cpusetMems != "" {
        resources := resources.(cpusetMems := r.cpusetMems);
      }
    }

    // Stops when the new memory limit is above the limit of memory and swap and that is not updated with it.
    method AssignMemory(r: Resources) returns (fits: bool)
      modifies this`resources
      ensures fits <==> r.memory == 0 || r.memorySwap != 0 || r.memory <= old(resources).memorySwap
      ensures resources == if fits then MemoryAssigned(old(resources), r) else old(resources)
    {
      if r.memory != 0 {
        if r.memory > resources.memorySwap && r.memorySwap == 0 {
          return false;
        }
        resources := resources.(memory := r.memory);
      }
      if r.memorySwap != 0 {
        resources := resources.(memorySwap := r.memorySwap);
      }
      if r.memoryReservation != 0 {
        resources := resources.(memoryReservation := r.memoryReservation);
      }
      if r.kernelMemory != 0 {
        resources := resources.(kernelMemory := r.kernelMemory);
      }
      return true;
    }
  }

  method VerifyNanoCPUs(config: HostConfig, sysInfo: SysInfo) returns (error: Option<Error>)
    ensures error == NanoError(config.resources, sysInfo)
  {
    if config.resources.nanoCPUs > 0 && config.resources.cpuPeriod > 0 {
      return Some(NanoWithPeriod);
    }
    if config.resources.nanoCPUs > 0 && config.resources.cpuQuota > 0 {
      return Some(NanoWithQuota);
    }
    if config.resources.nanoCPUs > 0 && (!sysInfo.cpuCfsPeriod || !sysInfo.cpuCfsQuota) {
      return Some(NoCfs);
    }
    if config.resources.nanoCPUs < 0 || config.resources.nanoCPUs > sysInfo.numCPU * 1_000_000_000 {
      return Some(RangeOfCPUs);
    }
    return None;
  }

  method VerifyPeriod(config: HostConfig, sysInfo: SysInfo) returns (warnings: seq<Warning>, error: Option<Error>)
    modifies config`resources
    ensures var r, s := old(config.resources), Supported(old(config.resources), sysInfo);
      && config.resources == r.(cpuShares := s.cpuShares, cpuPeriod := s.cpuPeriod)
      && warnings == (if s.cpuShares != r.cpuShares then [SharesDiscarded] else [])
                     + (if s.cpuPeriod != r.cpuPeriod then [PeriodDiscarded] else [])
      && error == if s.cpuPeriod != 0 && !(1000 <= s.cpuPeriod <= 1_000_000) then Some(RangeOfPeriod) else None
  {
    warnings := [];
    if config.resources.cpuShares > 0 && !sysInfo.cpuShares {
      warnings := warnings + [SharesDiscarded];
      config.resources := config.resources.(cpuShares := 0);
    }
    if config.resources.cpuPeriod > 0 && !sysInfo.cpuCfsPeriod {
      warnings := warnings + [PeriodDiscarded];
      config.resources := config.resources.(cpuPeriod := 0);
    }
    var period := config.resources.cpuPeriod;
    if period != 0 && (period < 1000 || period > 1_000_000) {
      return warnings, Some(RangeOfPeriod);
    }
    return warnings, None;
  }

  // The CPU part of verifyContainerResources.
  method VerifyContainerResources(config: HostConfig, sysInfo: SysInfo)
      returns (warnings: seq<Warning>, error: Option<Error>)
    modifies config`resources
    ensures Verdict(config.resources, warnings, error) == Verify(old(config.resources), sysInfo)
  {
    warnings := [];
    error := VerifyNanoCPUs(config, sysInfo);
    if error.Some? {
      return;
    }
    warnings, error := VerifyPeriod(config, sysInfo);
    if error.Some? {
      return;
    }
    if config.resources.cpuQuota > 0 && !sysInfo.cpuCfsQuota {
      warnings := warnings + [QuotaDiscarded];
      config.resources := config.resources.(cpuQuota := 0);
    }
    if config.resources.cpuQuota > 0 && config.resources.cpuQuota < 1000 {
      return warnings, Some(QuotaTooSmall);
    }
    if config.resources.cpuPercent > 0 {
      warnings := warnings + [PercentDiscarded];
      config.resources := config.resources.(cpuPercent := 0);
    }
    return warnings, None;
  }

  function NanoError(r: Resources, sys: SysInfo): Option<Error> {
    if r.nanoCPUs > 0 && r.cpuPeriod > 0 then Some(NanoWithPeriod)
    else if r.nanoCPUs > 0 && r.cpuQuota > 0 then Some(NanoWithQuota)
    else if r.nanoCPUs > 0 && !(sys.cpuCfsPeriod && sys.cpuCfsQuota) then Some(NoCfs)
    else if !(0 <= r.nanoCPUs <= sys.numCPU * 1_000_000_000) then Some(RangeOfCPUs)
    else None
  }

  // The warnings and the resources that an outcome leaves: what comes before the first error was applied.
  function Verify(r: Resources, sys: SysInfo): Verdict {
    var s := Supported(r, sys);
    var shares := if s.cpuShares != r.cpuShares then [SharesDiscarded] else [];
    var period := if s.cpuPeriod != r.cpuPeriod then [PeriodDiscarded] else [];
    var quota := if s.cpuQuota != r.cpuQuota then [QuotaDiscarded] else [];
    var percent := if s.cpuPercent != r.cpuPercent then [PercentDiscarded] else [];
    if NanoError(r, sys).Some? then Verdict(r, [], NanoError(r, sys))
    else if s.cpuPeriod != 0 && !(1000 <= s.cpuPeriod <= 1_000_000) then
      Verdict(r.(cpuShares := s.cpuShares), shares, Some(RangeOfPeriod))
    else if 0 < s.cpuQuota < 1000 then
      Verdict(s.(cpuPercent := r.cpuPercent), shares + period + quota, Some(QuotaTooSmall))
    else Verdict(s, shares + period + quota + percent, None)
  }

  // ---------------------------------------------------------------------------------------------
  // Updates

  datatype Policy = Policy(name: string, maximumRetryCount: int)

  datatype Config = Config(limits: Resources, restartPolicy: Policy, autoRemove: bool)

  function Or(requested: int64, current: int64): int64 {
    if requested != 0 then requested else current
  }

  function OrText(requested: string, current: string): string {
    if requested != "" then requested else current
  }

  // The fields that are assigned before the memory limit is checked.
  function Assigned(c: Resources, r: Resources): Resources {
    c.(blkioWeight := if r.blkioWeight != 0 then r.blkioWeight else c.blkioWeight,
       cpuShares := Or(r.cpuShares, c.cpuShares),
       nanoCPUs := Or(r.nanoCPUs, c.nanoCPUs),
       cpuPeriod := Or(r.cpuPeriod, c.cpuPeriod),
       cpuQuota := Or(r.cpuQuota, c.cpuQuota),
       cpusetCpus := OrText(r.cpusetCpus, c.cpusetCpus),
       cpusetMems := OrText(r.cpusetMems, c.cpusetMems))
  }

  function MemoryAssigned(c: Resources, r: Resources): Resources {
    c.(memory := Or(r.memory, c.memory),
       memorySwap := Or(r.memorySwap, c.memorySwap),
       memoryReservation := Or(r.memoryReservation, c.memoryReservation),
       kernelMemory := Or(r.kernelMemory, c.kernelMemory))
  }

  // The request and the container together would limit the CPU in two ways.
  function Conflict(c: Resources, r: Resources): Option<Error> {
    if r.nanoCPUs > 0 && c.cpuPeriod > 0 then Some(NanoAfterPeriod)
    else if r.nanoCPUs > 0 && c.cpuQuota > 0 then Some(NanoAfterQuota)
    else if r.cpuPeriod > 0 && c.nanoCPUs > 0 then Some(PeriodAfterNano)
    else if r.cpuQuota > 0 && c.nanoCPUs > 0 then Some(QuotaAfterNano)
    else None
  }

  predicate IsNone(policy: Policy) {
    policy.name == "no" || policy.name == ""
  }

  datatype Updated = Updated(config: Config, error: Option<Error>)

  // `saved` says whether writing the container to disk succeeds.
  function Update(c: Config, r: Config, saved: bool): Updated {
    var conflict := Conflict(c.limits, r.limits);
    var all := c.(limits := MemoryAssigned(Assigned(c.limits, r.limits), r.limits));
    if conflict.Some? then Updated(c, conflict)
    else if r.limits.memory != 0 && r.limits.memorySwap == 0 && r.limits.memory > c.limits.memorySwap then
      Updated(c.(limits := Assigned(c.limits, r.limits)), Some(MemoryAboveSwap))
    else if r.restartPolicy.name != "" && c.autoRemove && !IsNone(r.restartPolicy) then
      Updated(all, Some(PolicyWithAutoRemove))
    else
      Updated(all.(restartPolicy := if r.restartPolicy.name != "" then r.restartPolicy else c.restartPolicy),
        if saved then None else Some(NotSaved))
  }

  // A container with its restart manager, which is made from the configuration when it is first asked for, and
  // with the CPU period and quota that the kernel enforces while it runs; zero is a value that was never set.
  datatype Machine = Machine(
    config: Config,
    manager: Option<Policy>,
    running: bool,
    period: uint64,
    quota: uint64)

  // The policy that decides about a restart.
  function PolicyInForce(m: Machine): Policy {
    if m.manager.None? then m.config.restartPolicy else m.manager.value
  }

  // The engine writes no zero into the control group.
  function Written(requested: uint64, current: uint64): uint64 {
    if requested != 0 then requested else current
  }

  datatype Result = Result(machine: Machine, error: Option<Error>)

  // daemon.update. `dead` is whether the container is being removed, `applied` whether the engine obeys when it
  // has to be told, which it is only for a running container.
  function Outcome(m: Machine, r: Config, dead: bool, saved: bool, applied: bool): Result {
    var u := Update(m.config, r, saved);
    if dead then Result(m, Some(Removed))
    else if u.error.Some? then Result(m, u.error)
    else
      var m1 := m.(manager := if r.restartPolicy.name != "" then Some(r.restartPolicy) else m.manager);
      var (period, quota) := ToContainerdCPU(r.limits);
      if !m.running then Result(m1.(config := u.config), None)
      else if !applied then Result(m1, Some(NotApplied))
      else
        Result(m1.(config := u.config, period := Written(period, m.period), quota := Written(quota, m.quota)), None)
  }

  class UpdatedContainer {
    var hostConfig: HostConfig
    var manager: Option<Policy>
    const running: bool
    // The kernel's side.
    var period: uint64
    var quota: uint64

    ghost function State(): Machine
      reads this, hostConfig
    {
      Machine(hostConfig.Value(), manager, running, period, quota)
    }

    constructor (hostConfig: HostConfig, running: bool, period: uint64, quota: uint64)
      ensures this.hostConfig == hostConfig && State() == Machine(hostConfig.Value(), None, running, period, quota)
    {
      this.hostConfig, this.running, this.period, this.quota := hostConfig, running, period, quota;
      manager := None;
    }

    method UpdateContainer(request: HostConfig, saved: bool) returns (error: Option<Error>)
      requires request != hostConfig
      modifies hostConfig
      ensures Updated(hostConfig.Value(), error) == Update(old(hostConfig.Value()), request.Value(), saved)
    {
      var resources := request.resources;
      if resources.nanoCPUs > 0 && hostConfig.resources.cpuPeriod > 0 {
        return Some(NanoAfterPeriod);
      }
      if resources.nanoCPUs > 0 && hostConfig.resources.cpuQuota > 0 {
        return Some(NanoAfterQuota);
      }
      if resources.cpuPeriod > 0 && hostConfig.resources.nanoCPUs > 0 {
        return Some(PeriodAfterNano);
      }
      if resources.cpuQuota > 0 && hostConfig.resources.nanoCPUs > 0 {
        return Some(QuotaAfterNano);
      }
      hostConfig.AssignCPU(resources);
      var fits := hostConfig.AssignMemory(resources);
      if !fits {
        return Some(MemoryAboveSwap);
      }
      if request.restartPolicy.name != "" {
        if hostConfig.autoRemove && !IsNone(request.restartPolicy) {
          return Some(PolicyWithAutoRemove);
        }
        hostConfig.restartPolicy := request.restartPolicy;
      }
      if !saved {
        return Some(NotSaved);
      }
      return None;
    }

    // A restart manager that does not exist yet is made before its policy is set.
    method UpdateMonitor(policy: Policy)
      modifies this`manager
      ensures manager == Some(policy)
    {
      if manager.None? {
        manager := Some(hostConfig.restartPolicy);
      }
      manager := Some(policy);
    }

    // The engine's update of a running container.
    method UpdateResources(resources: Resources)
      modifies this`period, this`quota
      ensures period == Written(ToContainerdCPU(resources).0, old(period))
      ensures quota == Written(ToContainerdCPU(resources).1, old(quota))
    {
      var (p, q) := ToContainerdCPU(resources);
      if p != 0 {
        period := p;
      }
      if q != 0 {
        quota := q;
      }
    }

    // daemon.update: a copy of the configuration is put back when something fails.
    method UpdateOrRestore(request: HostConfig, dead: bool, saved: bool, applied: bool) returns (error: Option<Error>)
      requires request != hostConfig
      modifies this, hostConfig
      ensures Result(State(), error) == Outcome(old(State()), request.Value(), dead, saved, applied)
    {
      if dead {
        return Some(Removed);
      }
      var backup := new HostConfig(hostConfig.resources, hostConfig.restartPolicy, hostConfig.autoRemove);
      error := UpdateContainer(request, saved);
      if error.Some? {
        hostConfig := backup;
        return;
      }
      if request.restartPolicy.name != "" {
        UpdateMonitor(request.restartPolicy);
      }
      if running {
        if !applied {
          hostConfig := backup;
          return Some(NotApplied);
        }
        UpdateResources(request.resources);
      }
    }
  }

  // ---------------------------------------------------------------------------------------------
  // Conversions for the runtime

  datatype Spec = Spec(
    shares: Option<uint64>,
    cpus: Option<string>,
    mems: Option<string>,
    period: Option<uint64>,
    quota: Option<uint64>,
    realtimePeriod: Option<uint64>,
    realtimeRuntime: Option<uint64>)

  // Go's conversion of an int64, which keeps the bits.
  function ToUint64(x: int64): uint64 {
    if x < 0 then x + TWO64 else x
  }

  function Mul64(x: uint64, y: uint64): uint64 {
    (x * y) % TWO64
  }

  const DEFAULT_PERIOD: uint64 := 100_000

  // The configuration of a container that is started.
  function GetCPUResources(r: Resources): Spec {
    Spec(
      if r.cpuShares != 0 then Some(ToUint64(r.cpuShares)) else None,
      if r.cpusetCpus != "" then Some(r.cpusetCpus) else None,
      if r.cpusetMems != "" then Some(r.cpusetMems) else None,
      if r.cpuPeriod != 0 then Some(ToUint64(r.cpuPeriod)) else if r.nanoCPUs > 0 then Some(DEFAULT_PERIOD) else None,
      if r.cpuQuota != 0 then Some(ToUint64(r.cpuQuota))
      else if r.nanoCPUs > 0 then Some(Mul64(ToUint64(r.nanoCPUs), DEFAULT_PERIOD) / 1_000_000_000)
      else None,
      if r.cpuRealtimePeriod != 0 then Some(ToUint64(r.cpuRealtimePeriod)) else None,
      if r.cpuRealtimeRuntime != 0 then Some(ToUint64(r.cpuRealtimeRuntime)) else None)
  }

  // The period and the quota of a running container that is updated; zero leaves them alone.
  function ToContainerdCPU(r: Resources): (uint64, uint64) {
    if r.nanoCPUs != 0 then (DEFAULT_PERIOD, Mul64(ToUint64(r.nanoCPUs), DEFAULT_PERIOD) / 1_000_000_000)
    else (ToUint64(r.cpuPeriod), ToUint64(r.cpuQuota))
  }
}
