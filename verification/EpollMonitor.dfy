// monitor_linux.go in its own form: the Monitor object whose map, counter and channels are changed under a
// mutex. Each method is proved to make the corresponding steps of the transition system in Monitor.

module EpollMonitor {
  import opened Wrappers
  import opened Monitor

  // One event handled up to the unlock, without interference.
  function Handled(m: State, fd: int, event: EpollEvent): State {
    var m' := ProcessBody(m, fd, event);
    m'.(loop := Sending(m'.loop.deferred))
  }

  // Handling an event is a run of the monitor up to its deferred send.
  lemma HandledReach(m: State, fd: int, event: EpollEvent)
    requires Reachable(m) && Enabled(m, Enter(fd, event))
    ensures Reachable(Handled(m, fd, event)) && Handled(m, fd, event).loop.Sending?
  {
    var entered := Next(m, Enter(fd, event));
    Extend(m, Enter(fd, event));
    Extend(entered, Body);
    BodyLeaves(m, fd, event);
    Extend(Next(entered, Body), Leave);
  }

  lemma BodyLeaves(m: State, fd: int, event: EpollEvent)
    requires Enabled(m, Enter(fd, event))
    ensures var entered := Next(m, Enter(fd, event));
      Enabled(entered, Body) && Enabled(Next(entered, Body), Leave)
      && Next(Next(entered, Body), Leave) == Handled(m, fd, event)
  {
    BodyHolds(m, fd, event, Entered(fd, event));
  }

  // What handling an event leaves, and what it defers.
  lemma HandledExactly(m: State, fd: int, event: EpollEvent)
    ensures var m' := Handled(m, fd, event);
      if fd !in m.receivers then m' == m.(loop := Sending(Nothing))
      else
        match m.receivers[fd]
        case Process(p) =>
          if event != Hup then m' == m.(loop := Sending(Nothing))
          else
            && m'.loop == Sending(SendExit(p))
            && m'.receivers == m.receivers - {fd} && m'.files == m.files - {Process(p)} && fd !in m'.epoll
        case OomEvent(o) =>
          if o !in m.removed then
            m' == m.(loop := m'.loop) && (o in m.containerOf ==> m'.loop == Sending(SendOom(m.containerOf[o])))
          else
            && m'.loop == Sending(Nothing)
            && m'.receivers == m.receivers - {fd} && m'.files == m.files - {OomEvent(o)}
  {
  }

  // The body does not look at the mutex or at the goroutine.
  lemma BodyHolds(m: State, fd: int, event: EpollEvent, loop: Loop)
    ensures ProcessBody(m, fd, event).loop.Leaving? && ProcessBody(m, fd, event).loopHolds == m.loopHolds
    ensures ProcessBody(m.(loopHolds := true, loop := loop), fd, event) == ProcessBody(m, fd, event).(loopHolds := true)
  {
    var entered := m.(loopHolds := true, loop := loop);
    if fd in m.receivers {
      var r := m.receivers[fd];
      assert entered.receivers == m.receivers;
      if r.Process? {
        CloseHolds(m.(receivers := m.receivers - {fd}, epoll := m.epoll - {fd}), true, entered.loop, r);
      } else {
        CloseHolds(m.(receivers := m.receivers - {fd}), true, entered.loop, r);
      }
    }
  }

  lemma CloseHolds(m: State, holds: bool, loop: Loop, r: Receiver)
    ensures Close(m.(loopHolds := holds, loop := loop), r) == Close(m, r).(loopHolds := holds, loop := loop)
  {
  }

  lemma {:induction false} LeadsMore(m: State, steps: seq<Step>, m': State, s: Step)
    requires Leads(m, steps, m') && Enabled(m', s)
    ensures Leads(m, steps + [s], Next(m', s))
    decreases |steps|
  {
    if steps == [] {
      assert (steps + [s])[1..] == [];
      assert Leads(Next(m, s), [], Next(m, s));
    } else {
      assert (steps + [s])[1..] == steps[1..] + [s];
      LeadsMore(Next(m, steps[0]), steps[1..], m', s);
    }
  }

  lemma Extend(m: State, s: Step)
    requires Reachable(m) && Enabled(m, s)
    ensures Reachable(Next(m, s))
  {
    var steps :| Leads(INIT, steps, m);
    LeadsMore(INIT, steps, m, s);
  }

  class EpollMonitor {
    var receivers: map<int, Receiver>
    var epollSet: set<int>
    var fdCounter: int
    var locked: bool
    var exits: seq<nat>
    var ooms: seq<string>
    // The kernel's side: open files, and what became of OOM listeners.
    var files: map<Receiver, int>
    var containerOf: map<nat, string>
    var removed: set<nat>
    ghost var made: set<Receiver>
    ghost var loop: Loop
    ghost var reported: seq<nat>
    ghost var oomed: seq<string>

    ghost function Abstract(): State
      reads this
    {
      State(receivers, epollSet, fdCounter, files, made, containerOf, removed, locked, loop, exits, ooms, reported,
            oomed)
    }

    constructor ()
      ensures Abstract() == INIT
    {
      receivers, epollSet, fdCounter, locked, exits, ooms := map[], {}, 0, false, [], [];
      files, containerOf, removed, made, loop, reported, oomed := map[], map[], {}, {}, Between, [], [];
    }

    method EpollAdd(fd: int) returns (ok: bool)
      modifies this`epollSet
      ensures ok == EpollAdds(old(Abstract()), fd)
      ensures epollSet == if ok then old(epollSet) + {fd} else old(epollSet)
    {
      ok := fd in files.Values && fd !in epollSet;
      if ok {
        epollSet := epollSet + {fd};
      }
    }

    method CloseFile(r: Receiver)
      modifies this`files, this`epollSet
      ensures Abstract() == Close(old(Abstract()), r)
    {
      var fd := if r in files then files[r] else -1;
      files := files - {r};
      epollSet := epollSet - {fd};
    }

    // Monitor and MonitorOOM: put the file into the epoll set and remember its receiver.
    method Watch(r: Receiver) returns (ok: bool)
      requires Enabled(Abstract(), Step.Watch(r))
      modifies this`receivers, this`epollSet, this`fdCounter, this`locked
      ensures Abstract() == Next(old(Abstract()), Step.Watch(r))
      ensures ok == EpollAdds(old(Abstract()), ExitFD(old(Abstract()), r))
    {
      locked := true;
      var fd := if r in files then files[r] else -1;
      ok := EpollAdd(fd);
      if ok {
        fdCounter := fdCounter + 1;
        receivers := receivers[fd := r];
      }
      locked := false;
    }

    // The locked part of processEvent; what it returns is sent after the unlock.
    method ProcessEvent(fd: int, event: EpollEvent) returns (deferred: Deferred)
      requires Enabled(Abstract(), Enter(fd, event))
      modifies this`receivers, this`epollSet, this`fdCounter, this`locked, this`files, this`loop
      ensures Abstract() == Handled(old(Abstract()), fd, event)
      ensures !locked && loop == Sending(deferred)
      ensures fd !in old(receivers) ==> deferred == Nothing
      ensures fd in old(receivers) && old(receivers)[fd].Process? && event == Hup ==>
                deferred == SendExit(old(receivers)[fd].p) && fd !in receivers && old(receivers)[fd] !in files
      ensures fd in old(receivers) && old(receivers)[fd].OomEvent? && old(receivers)[fd].o in containerOf ==>
                deferred == if old(receivers)[fd].o in removed then Nothing
                            else SendOom(containerOf[old(receivers)[fd].o])
    {
      ghost var m := Abstract();
      BodyHolds(m, fd, event, loop);
      HandledExactly(m, fd, event);
      locked := true;
      ghost var entered := Abstract();
      assert entered == m.(loopHolds := true, loop := m.loop);
      deferred := Nothing;
      if fd in receivers {
        match receivers[fd] {
          case Process(p) => deferred := ProcessExited(fd, p, event);
          case OomEvent(o) => deferred := OutOfMemory(fd, o);
        }
      }
      assert Abstract().(loop := Leaving(deferred)) == ProcessBody(entered, fd, event);
      locked := false;
      loop := Sending(deferred);
    }

    method ProcessExited(fd: int, p: nat, event: EpollEvent) returns (deferred: Deferred)
      requires fd in receivers && receivers[fd] == Process(p)
      modifies this`receivers, this`epollSet, this`fdCounter, this`files
      ensures Abstract().(loop := Leaving(deferred)) == ProcessBody(old(Abstract()), fd, event)
    {
      deferred := Nothing;
      if event == Hup {
        receivers := receivers - {fd};
        epollSet := epollSet - {fd};
        CloseFile(Process(p));
        fdCounter := fdCounter - 1;
        deferred := SendExit(p);
      }
    }

    method OutOfMemory(fd: int, o: nat) returns (deferred: Deferred)
      requires fd in receivers && receivers[fd] == OomEvent(o)
      modifies this`receivers, this`epollSet, this`fdCounter, this`files
      ensures forall event :: Abstract().(loop := Leaving(deferred)) == ProcessBody(old(Abstract()), fd, event)
    {
      deferred := Nothing;
      if o in removed {
        receivers := receivers - {fd};
        CloseFile(OomEvent(o));
        fdCounter := fdCounter - 1;
      } else if o in containerOf {
        deferred := SendOom(containerOf[o]);
      }
    }

    // The deferred send, made only without the mutex; it waits while the channel is full.
    method SendDeferred(deferred: Deferred)
      requires loop == Sending(deferred) && Enabled(Abstract(), Send) && !locked
      modifies this`exits, this`ooms, this`loop, this`reported, this`oomed
      ensures Abstract() == Next(old(Abstract()), Send)
      ensures exits == old(exits) + (if deferred.SendExit? then [deferred.p] else [])
      ensures ooms == old(ooms) + (if deferred.SendOom? then [deferred.cid] else [])
    {
      match deferred {
        case Nothing =>
        case SendExit(p) =>
          exits := exits + [p];
          reported := reported + [p];
        case SendOom(cid) =>
          ooms := ooms + [cid];
          oomed := oomed + [cid];
      }
      loop := Between;
    }
  }
}
