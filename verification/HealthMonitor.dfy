// The daemon's health operations on a container in their own form, each proved to have the effect of the whole
// operation in module Health that it stands for, and the buffer for the output of a probe.

module HealthMonitor {
  import opened Wrappers
  import opened Health
  import Spec = Health

  // A channel that is never sent to, only closed.
  class StopChannel {
    var closed: bool

    constructor ()
      ensures !closed
    {
      closed := false;
    }

    // Closing a closed channel panics.
    method Close()
      requires !closed
      modifies this
      ensures closed
    {
      closed := true;
    }
  }

  class HealthState {
    var status: Status
    var failingStreak: int
    var log: seq<Result>
    var stop: StopChannel?

    constructor ()
      ensures status == Starting && failingStreak == 0 && log == [] && stop == null
    {
      status, failingStreak, log, stop := Starting, 0, [], null;
    }

    ghost function Value(): Health
      reads this
    {
      Health(status, failingStreak, log)
    }

    method OpenMonitorChannel() returns (created: StopChannel?)
      modifies this`stop
      ensures if old(stop) == null then created != null && fresh(created) && stop == created && !created.closed
              else created == null && stop == old(stop)
    {
      if stop == null {
        stop := new StopChannel();
        return stop;
      }
      return null;
    }

    // A panic leaves the channel stored.
    method CloseMonitorChannel() returns (panics: bool)
      modifies this`stop, stop
      ensures panics <==> old(stop) != null && old(stop.closed)
      ensures stop == if panics then old(stop) else null
      ensures old(stop) != null ==> old(stop).closed
    {
      if stop != null {
        if stop.closed {
          return true;
        }
        stop.Close();
        stop := null;
      }
      return false;
    }

    // The part of handleProbeResult that counts a result.
    method Record(config: Config, startedAt: int, result: Result)
      modifies this`status, this`failingStreak, this`log
      ensures Value() == Handle(config, startedAt, old(Value()), result)
      ensures result.exitCode == 0 ==> status == Healthy && failingStreak == 0
      ensures result.exitCode != 0 ==>
                (status == old(status) && failingStreak == old(failingStreak)
                 <==> old(status) == Starting && result.start - startedAt < config.startPeriod)
      ensures failingStreak in {0, old(failingStreak), old(failingStreak) + 1}
    {
      var retries := config.retries;
      if retries <= 0 {
        retries := DEFAULT_RETRIES;
      }
      LogAppended(log, result);
      if |log| >= MAX_LOG_ENTRIES {
        log := log[|log| + 1 - MAX_LOG_ENTRIES..] + [result];
      } else {
        log := log + [result];
      }
      if result.exitCode == 0 {
        failingStreak := 0;
        status := Healthy;
      } else {
        var shouldIncrementStreak := true;
        if status == Starting {
          if result.start - startedAt < config.startPeriod {
            shouldIncrementStreak := false;
          }
        }
        if shouldIncrementStreak {
          failingStreak := failingStreak + 1;
          if failingStreak >= retries {
            status := Unhealthy;
          }
        }
      }
    }
  }

  ghost function IndexOf(channels: seq<StopChannel>, ch: StopChannel): (i: nat)
    requires ch in channels
    ensures i < |channels| && channels[i] == ch
  {
    if channels[0] == ch then 0 else IndexOf(channels[1..], ch) + 1
  }

  class MonitoredContainer {
    const config: Config
    var running: bool
    var paused: bool
    var startedAt: int
    var health: HealthState?
    // The health events that were logged.
    var events: seq<Status>
    // Whether the daemon has panicked.
    var crashed: bool
    // All stop channels made so far.
    ghost var channels: seq<StopChannel>

    ghost predicate Valid()
      reads this, health, channels
    {
      && (forall i, j :: 0 <= i < j < |channels| ==> channels[i] != channels[j])
      && (health != null && health.stop != null ==> health.stop in channels)
    }

    ghost function Stored(): Option<nat>
      reads this, health
    {
      if health == null || health.stop == null || health.stop !in channels then None
      else Some(IndexOf(channels, health.stop))
    }

    ghost function Closed(): (closed: seq<bool>)
      reads this, channels
      ensures |closed| == |channels| && forall i :: 0 <= i < |closed| ==> closed[i] == channels[i].closed
    {
      seq(|channels|, i requires 0 <= i < |channels| reads this, channels => channels[i].closed)
    }

    ghost function State(): Container
      reads this, health, channels
    {
      var value := if health == null then None else Some(health.Value());
      Container(running, paused, startedAt, value, Stored(), Closed(), crashed)
    }

    constructor (config: Config)
      ensures Valid() && State() == START.c && this.config == config && fresh(channels) && events == []
    {
      this.config := config;
      running, paused, startedAt, health, events, channels, crashed := false, false, 0, null, [], [], false;
    }

    method OpenChannel(h: HealthState) returns (monitor: StopChannel?)
      requires Valid() && h == health
      modifies this`channels, h`stop
      ensures Valid() && State() == Spec.OpenMonitorChannel(old(State()))
      ensures channels == if monitor == null then old(channels) else old(channels) + [monitor]
      ensures monitor != null ==> fresh(monitor)
    {
      monitor := h.OpenMonitorChannel();
      if monitor != null {
        channels := channels + [monitor];
        assert Closed() == old(Closed()) + [false];
      }
    }

    method CloseChannel(h: HealthState)
      requires Valid() && h == health && !crashed
      modifies this`crashed, h`stop, h.stop
      ensures Valid() && State() == Spec.CloseMonitorChannel(old(State()))
    {
      ghost var i := Stored();
      crashed := h.CloseMonitorChannel();
      if i.Some? && !crashed {
        assert Closed() == old(Closed())[i.value := true];
      } else {
        assert Closed() == old(Closed());
      }
    }

    // Returns the channel of the monitor that was started, if one was.
    method UpdateHealthMonitor() returns (monitor: StopChannel?)
      requires Valid() && !crashed
      modifies this`channels, this`crashed, health, if health == null then null else health.stop
      ensures Valid() && State() == Spec.UpdateHealthMonitor(config, old(State()))
      ensures health != null && !crashed ==>
                (health.stop != null <==>
                  running && !paused && config.test != [] && config.test[0] in {"CMD", "CMD-SHELL"})
      ensures channels == if monitor == null then old(channels) else old(channels) + [monitor]
      ensures monitor != null ==> fresh(monitor)
    {
      monitor := null;
      var h := health;
      if h == null {
        return;
      }
      var probe := GetProbe(config);
      var wantRunning := running && !paused && probe.Some?;
      if wantRunning {
        monitor := OpenChannel(h);
      } else {
        CloseChannel(h);
      }
    }

    method StopHealthchecks()
      requires Valid() && !crashed
      modifies this`crashed, health, if health == null then null else health.stop
      ensures Valid() && State() == Spec.StopHealthchecks(old(State()))
    {
      var h := health;
      if h != null {
        CloseChannel(h);
      }
    }

    method InitHealthMonitor() returns (monitor: StopChannel?)
      requires Valid() && !crashed
      modifies this`health, this`channels, this`crashed, health, if health == null then null else health.stop
      ensures Valid() && State() == Spec.InitHealthMonitor(config, old(State()))
      ensures channels == if monitor == null then old(channels) else old(channels) + [monitor]
    {
      if GetProbe(config) == None {
        return null;
      }
      StopHealthchecks();
      if crashed {
        return null;
      }
      ResetHealth();
      monitor := UpdateHealthMonitor();
    }

    // A health state that exists keeps its log.
    method ResetHealth()
      requires Valid()
      modifies this`health, health
      ensures Valid() && State() == Spec.Restarted(old(State()))
      ensures health == old(health) || fresh(health)
      ensures health != null && health.stop == (if old(health) == null then null else old(health.stop))
    {
      var h := health;
      if h != null {
        h.status := Starting;
        h.failingStreak := 0;
      } else {
        h := new HealthState();
        h.status := Starting;
        health := h;
      }
    }

    method HandleProbeResult(result: Result, done: StopChannel, ghost m: nat)
      requires Valid() && health != null && m < |channels| && channels[m] == done
      modifies this`events, health
      ensures Valid() && State() == Spec.HandleProbeResult(config, old(State()), result, m)
      ensures events == if health.status == old(health.status) then old(events) else old(events) + [health.status]
      ensures !done.closed && result.exitCode == 0 ==> health.status == Healthy && health.failingStreak == 0
      ensures !done.closed && result.exitCode != 0 ==>
                (health.status == old(health.status) && health.failingStreak == old(health.failingStreak)
                 <==> old(health.status) == Starting && result.start - startedAt < config.startPeriod)
    {
      if done.closed {
        return;
      }
      var h := health;
      var oldStatus := h.status;
      h.Record(config, startedAt, result);
      if oldStatus != h.status {
        events := events + [h.status];
      }
    }
  }

  lemma LogAppended(log: seq<Result>, result: Result)
    ensures LastOf(MAX_LOG_ENTRIES, log + [result])
         == if |log| >= MAX_LOG_ENTRIES then log[|log| + 1 - MAX_LOG_ENTRIES..] + [result] else log + [result]
  {
  }

  // ---------------------------------------------------------------------------------------------
  // The output of a probe

  const MAX_OUTPUT_LEN := 4096

  class LimitedBuffer {
    var buf: seq<bv8>
    var truncated: bool
    // Everything written so far.
    ghost var written: seq<bv8>

    ghost predicate Valid()
      reads this
    {
      && buf == (if |written| <= 4096 then written else written[..4096])
      && (truncated <==> |written| > 4096)
    }

    constructor ()
      ensures Valid() && written == []
    {
      buf, truncated, written := [], false, [];
    }

    method Write(data: seq<bv8>) returns (n: nat)
      requires Valid()
      modifies this
      ensures Valid() && written == old(written) + data && n == |data|
    {
      var bufLen, dataLen := |buf|, |data|;
      var keep := if MAX_OUTPUT_LEN - bufLen < dataLen then MAX_OUTPUT_LEN - bufLen else dataLen;
      if keep > 0 {
        buf := buf + data[..keep];
      }
      if keep < dataLen {
        truncated := true;
      }
      written := written + data;
      return dataLen;
    }

    // Nothing is appended to output that fits.
    method Output() returns (out: seq<bv8>)
      requires Valid()
      ensures out == if |written| <= 4096 then written else written[..4096] + [46, 46, 46]
    {
      out := buf;
      if truncated {
        out := out + [46, 46, 46];
      }
    }
  }
}
