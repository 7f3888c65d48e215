// containerd/supervisor/monitor_linux.go: the epoll monitor as a transition system. The kernel's epoll set is
// a set of descriptors: it refuses one that is present or not open, and drops one that is closed.

module Monitor {
  import opened Wrappers

  // The capacity of the exits and ooms channels.
  const CHANNEL_SIZE: nat := 1024

  datatype Receiver = Process(p: nat) | OomEvent(o: nat)

  datatype EpollEvent = Hup | OtherEvent

  // What processEvent defers until the mutex is released.
  datatype Deferred = Nothing | SendExit(p: nat) | SendOom(cid: string)

  // The monitor goroutine: between events, inside processEvent holding the mutex (before and after its body),
  // or past the unlock with a send to do.
  datatype Loop =
    | Between
    | Entered(fd: int, event: EpollEvent)
    | Leaving(deferred: Deferred)
    | Sending(deferred: Deferred)

  // files holds the descriptor of every process and OOM listener whose file is open.
  datatype State = State(
    receivers: map<int, Receiver>,
    epoll: set<int>,
    counter: int,                       // EpollFdCounter
    files: map<Receiver, int>,
    made: set<Receiver>,                // all processes and listeners so far
    containerOf: map<nat, string>,      // the container of an OOM listener
    removed: set<nat>,                  // listeners whose cgroup is gone
    loopHolds: bool,                    // the goroutine holds the mutex
    loop: Loop,
    exits: seq<nat>, ooms: seq<string>, // channel contents
    reported: seq<nat>,                 // everything ever sent on exits
    oomed: seq<string>)                 // everything ever sent on ooms

  const INIT := State(map[], {}, 0, map[], {}, map[], {}, false, Between, [], [], [], [])

  datatype Step =
    | Open(r: Receiver, fd: int, cid: string)       // a process or listener comes into being
    | CgroupGone(o: nat)
    | Watch(r: Receiver)                            // Monitor and MonitorOOM, one locked region
    | Enter(fd: int, event: EpollEvent)
    | Body
    | Leave
    | Send
    | TakeExit
    | TakeOom

  function ExitFD(m: State, r: Receiver): int {
    if r in m.files then m.files[r] else -1
  }

  predicate EpollAdds(m: State, fd: int) {
    fd in m.files.Values && fd !in m.epoll
  }

  predicate Enabled(m: State, s: Step) {
    match s
    case Open(r, fd, _) => r !in m.made && fd >= 0 && fd !in m.files.Values
    case CgroupGone(o) => OomEvent(o) in m.made
    case Watch(r) => !m.loopHolds && r in m.made
    case Enter(_, _) => !m.loopHolds && m.loop == Between
    case Body => m.loop.Entered?
    case Leave => m.loop.Leaving?
    case Send =>
      && m.loop.Sending?
      && (m.loop.deferred.SendExit? ==> |m.exits| < CHANNEL_SIZE)
      && (m.loop.deferred.SendOom? ==> |m.ooms| < CHANNEL_SIZE)
    case TakeExit => m.exits != []
    case TakeOom => m.ooms != []
  }

  // Closing a file frees its descriptor and takes it out of the epoll set.
  function Close(m: State, r: Receiver): State {
    m.(files := m.files - {r}, epoll := m.epoll - {ExitFD(m, r)})
  }

  function ProcessBody(m: State, fd: int, event: EpollEvent): State {
    if fd !in m.receivers then m.(loop := Leaving(Nothing))
    else
      match m.receivers[fd]
      case Process(p) =>
        if event != Hup then m.(loop := Leaving(Nothing))
        else Close(m.(receivers := m.receivers - {fd}, epoll := m.epoll - {fd}), Process(p))
             .(counter := m.counter - 1, loop := Leaving(SendExit(p)))
      case OomEvent(o) =>
        if o in m.removed then
          Close(m.(receivers := m.receivers - {fd}), OomEvent(o)).(counter := m.counter - 1, loop := Leaving(Nothing))
        else m.(loop := Leaving(if o in m.containerOf then SendOom(m.containerOf[o]) else Nothing))
  }

  function Next(m: State, s: Step): State
    requires Enabled(m, s)
  {
    match s
    case Open(r, fd, cid) =>
      m.(made := m.made + {r}, files := m.files[r := fd],
         containerOf := if r.OomEvent? then m.containerOf[r.o := cid] else m.containerOf)
    case CgroupGone(o) => m.(removed := m.removed + {o})
    case Watch(r) =>
      var fd := ExitFD(m, r);
      if EpollAdds(m, fd) then
        m.(epoll := m.epoll + {fd}, counter := m.counter + 1, receivers := m.receivers[fd := r])
      else m
    case Enter(fd, event) => m.(loopHolds := true, loop := Entered(fd, event))
    case Body => ProcessBody(m, m.loop.fd, m.loop.event)
    case Leave => m.(loopHolds := false, loop := Sending(m.loop.deferred))
    case Send =>
      (match m.loop.deferred
       case Nothing => m.(loop := Between)
       case SendExit(p) => m.(loop := Between, exits := m.exits + [p], reported := m.reported + [p])
       case SendOom(cid) => m.(loop := Between, ooms := m.ooms + [cid], oomed := m.oomed + [cid]))
    case TakeExit => m.(exits := m.exits[1..])
    case TakeOom => m.(ooms := m.ooms[1..])
  }

  ghost predicate Leads(m: State, steps: seq<Step>, m': State)
    decreases |steps|
  {
    if steps == [] then m == m'
    else Enabled(m, steps[0]) && Leads(Next(m, steps[0]), steps[1..], m')
  }

  ghost predicate Reachable(m: State) {
    exists steps :: Leads(INIT, steps, m)
  }

  // ---------------------------------------------------------------------------------------------
  // Invariant

  ghost predicate Files(m: State) {
    && m.files.Keys <= m.made
    && (forall r, q :: r in m.files && q in m.files && r != q ==> m.files[r] != m.files[q])
    && (forall r :: r in m.files ==> m.files[r] >= 0)
  }

  // The receivers map mirrors the epoll set, and each receiver is open on its own descriptor.
  ghost predicate Watching(m: State) {
    && m.receivers.Keys == m.epoll
    && m.counter == |m.receivers|
    && (forall fd :: fd in m.receivers ==> m.receivers[fd] in m.files && m.files[m.receivers[fd]] == fd)
  }

  ghost function InFlight(m: State): seq<nat> {
    if m.loop.Leaving? && m.loop.deferred.SendExit? then [m.loop.deferred.p]
    else if m.loop.Sending? && m.loop.deferred.SendExit? then [m.loop.deferred.p]
    else []
  }

  // A process is reported once, after it was closed.
  ghost predicate Reporting(m: State) {
    AllClosed(m.reported + InFlight(m), m.made, m.files) && IsEnd(m.exits, m.reported)
  }

  // Different processes, made and closed.
  ghost predicate AllClosed(all: seq<nat>, made: set<Receiver>, files: map<Receiver, int>) {
    && (forall i :: 0 <= i < |all| ==> Process(all[i]) in made && Process(all[i]) !in files)
    && (forall i, j :: 0 <= i < j < |all| ==> all[i] != all[j])
  }

  predicate IsEnd(a: seq<nat>, b: seq<nat>) {
    |a| <= |b| && a == b[|b| - |a|..]
  }

  ghost predicate Mutex(m: State) {
    m.loopHolds <==> m.loop.Entered? || m.loop.Leaving?
  }

  // Every listener belongs to a container.
  ghost predicate Contained(m: State) {
    forall o: nat :: OomEvent(o) in m.made ==> o in m.containerOf
  }

  ghost predicate Inv(m: State) {
    Files(m) && Watching(m) && Reporting(m) && Mutex(m) && Contained(m)
  }

  lemma FilesStep(m: State, s: Step)
    requires Files(m) && Enabled(m, s)
    ensures Files(Next(m, s))
  {
    match s
    case Open(r, fd, cid) => FilesOpen(m, r, fd, cid);
    case Body => FilesBody(m);
    case _ =>
  }

  lemma FilesOpen(m: State, r: Receiver, fd: int, cid: string)
    requires Files(m) && Enabled(m, Open(r, fd, cid))
    ensures Files(Next(m, Open(r, fd, cid)))
  {
    forall q | q in m.files ensures m.files[q] != fd {
      assert m.files[q] in m.files.Values;
    }
  }

  lemma FilesBody(m: State)
    requires Files(m) && Enabled(m, Body)
    ensures Files(Next(m, Body))
  {
    BodyFiles(m);
  }

  lemma BodyFiles(m: State)
    requires m.loop.Entered?
    ensures var m' := Next(m, Body);
      m'.made == m.made
      && (m'.files == m.files || (m.loop.fd in m.receivers && m'.files == m.files - {m.receivers[m.loop.fd]}))
  {
  }

  // The body either leaves files, receivers and the epoll set alone or drops one receiver from all three.
  lemma BodyDrops(m: State)
    requires Files(m) && Watching(m) && m.loop.Entered?
    ensures var m', fd := Next(m, Body), m.loop.fd;
            || m' == m.(loop := m'.loop)
            || (fd in m.receivers && m' == m.(receivers := m.receivers - {fd}, epoll := m.epoll - {fd},
                                              files := m.files - {m.receivers[fd]}, counter := m.counter - 1,
                                              loop := m'.loop))
  {
    var fd := m.loop.fd;
    if fd in m.receivers {
      assert ExitFD(m, m.receivers[fd]) == fd;
      assert m.epoll - {fd} - {fd} == m.epoll - {fd};
    }
  }

  lemma DropReceiver(receivers: map<int, Receiver>, fd: int)
    requires fd in receivers
    ensures (receivers - {fd}).Keys == receivers.Keys - {fd} && |receivers - {fd}| == |receivers| - 1
  {
    assert (receivers - {fd}).Keys == receivers.Keys - {fd};
    assert |(receivers - {fd}).Keys| == |receivers - {fd}| && |receivers.Keys| == |receivers|;
  }

  lemma WatchingBody(m: State)
    requires Files(m) && Watching(m) && m.loop.Entered?
    ensures Watching(Next(m, Body))
  {
    BodyDrops(m);
    if m.loop.fd in m.receivers {
      DropReceiver(m.receivers, m.loop.fd);
    }
  }

  lemma WatchingStep(m: State, s: Step)
    requires Files(m) && Watching(m) && Enabled(m, s)
    ensures Watching(Next(m, s))
  {
    if s.Body? {
      WatchingBody(m);
    } else if s.Watch? {
      var fd := ExitFD(m, s.r);
      if EpollAdds(m, fd) {
        assert fd !in m.receivers && s.r in m.files;
        assert |m.receivers[fd := s.r]| == |m.receivers| + 1;
      }
    }
  }

  lemma ReportedDiffers(m: State, p: nat)
    requires Reporting(m) && m.loop.Entered? && Process(p) in m.files && Files(m)
    ensures forall i :: 0 <= i < |m.reported| ==> m.reported[i] != p
  {
    assert m.reported + InFlight(m) == m.reported;
  }

  // What the body does to files, channels and what is in flight.
  lemma BodyOf(m: State)
    requires m.loop.Entered?
    ensures var m' := Next(m, Body);
            && m'.made == m.made && m'.reported == m.reported && m'.exits == m.exits && m'.files.Keys <= m.files.Keys
            && InFlight(m) == []
            && (InFlight(m') == [] || (m.loop.fd in m.receivers && m.receivers[m.loop.fd].Process?
                                       && InFlight(m') == [m.receivers[m.loop.fd].p]
                                       && m.receivers[m.loop.fd] !in m'.files))
  {
  }

  lemma ReportingBody(m: State)
    requires Files(m) && Watching(m) && Reporting(m) && m.loop.Entered?
    ensures Reporting(Next(m, Body))
  {
    var m' := Next(m, Body);
    BodyOf(m);
    assert m.reported + InFlight(m) == m.reported;
    if InFlight(m') == [] {
      assert m'.reported + InFlight(m') == m.reported;
    } else {
      ReportedDiffers(m, m.receivers[m.loop.fd].p);
    }
  }

  lemma ReportingStep(m: State, s: Step)
    requires Inv(m) && Enabled(m, s)
    ensures Reporting(Next(m, s))
  {
    match s
    case Body => ReportingBody(m);
    case Send => ReportingSend(m);
    case Open(_, _, _) => ReportingOther(m, s);
    case _ => ReportingOther(m, s);
  }

  lemma ReportingSend(m: State)
    requires Reporting(m) && Enabled(m, Send)
    ensures Reporting(Next(m, Send))
  {
    var m' := Next(m, Send);
    assert m'.reported + InFlight(m') == m.reported + InFlight(m);
    if m.loop.deferred.SendExit? {
      EndsMore(m.exits, m.reported, m.loop.deferred.p);
    }
  }

  lemma EndsMore(a: seq<nat>, b: seq<nat>, p: nat)
    requires IsEnd(a, b)
    ensures IsEnd(a + [p], b + [p])
  {
  }

  lemma ReportingOther(m: State, s: Step)
    requires Files(m) && Reporting(m) && Enabled(m, s) && !s.Body? && !s.Send?
    ensures Reporting(Next(m, s))
  {
    var m' := Next(m, s);
    assert m'.reported == m.reported && InFlight(m') == InFlight(m);
    assert m.made <= m'.made && forall r :: r in m'.files ==> r in m.files || (s.Open? && r == s.r);
  }

  lemma InvStep(m: State, s: Step)
    requires Inv(m) && Enabled(m, s)
    ensures Inv(Next(m, s))
  {
    FilesStep(m, s);
    WatchingStep(m, s);
    ReportingStep(m, s);
  }

  lemma {:induction false} LeadsInv(m: State, steps: seq<Step>, m': State)
    requires Inv(m) && Leads(m, steps, m')
    ensures Inv(m')
    decreases |steps|
  {
    if steps != [] {
      InvStep(m, steps[0]);
      LeadsInv(Next(m, steps[0]), steps[1..], m');
    }
  }

  lemma ReachableInv(m: State)
    requires Reachable(m)
    ensures Inv(m)
  {
    var steps :| Leads(INIT, steps, m);
    LeadsInv(INIT, steps, m);
  }

  // ---------------------------------------------------------------------------------------------
  // Main results

  // The receivers map agrees with the epoll set and with the counter, in every reachable state.
  lemma ReceiversMirrorEpoll(m: State)
    requires Reachable(m)
    ensures m.receivers.Keys == m.epoll && m.counter == |m.receivers|
    ensures forall fd, gd :: fd in m.receivers && gd in m.receivers && fd != gd ==> m.receivers[fd] != m.receivers[gd]
  {
    ReachableInv(m);
  }

  // Every process is sent on exits at most once, and only once it is closed and no longer a receiver.
  lemma ReportedOnce(m: State, i: nat)
    requires Reachable(m) && i < |m.reported|
    ensures forall j :: 0 <= j < |m.reported| && j != i ==> m.reported[j] != m.reported[i]
    ensures Process(m.reported[i]) !in m.files
    ensures forall fd :: fd in m.receivers ==> m.receivers[fd] != Process(m.reported[i])
  {
    ReachableInv(m);
    var all := m.reported + InFlight(m);
    assert forall j :: 0 <= j < |m.reported| ==> all[j] == m.reported[j];
  }

  // A process that was closed never opens again, so it is closed at most once and cannot be watched again.
  lemma ClosedForGood(m: State, s: Step, p: nat)
    requires Reachable(m) && Enabled(m, s) && Process(p) in m.made && Process(p) !in m.files
    ensures Process(p) !in Next(m, s).files && Process(p) in Next(m, s).made
    ensures Enabled(m, Watch(Process(p))) ==> Next(m, Watch(Process(p))) == m
  {
    ReachableInv(m);
  }

  // Closing happens only to an open process, on the hangup of its own descriptor.
  lemma ClosedOnlyOnHup(m: State, s: Step, p: nat)
    requires Reachable(m) && Enabled(m, s) && Process(p) in m.files && Process(p) !in Next(m, s).files
    ensures s == Body && m.loop == Entered(m.files[Process(p)], Hup)
    ensures Next(m, s).loop == Leaving(SendExit(p))
  {
    ReachableInv(m);
  }

  // The goroutine never holds the mutex at a send, so registering goes through even while a send is blocked
  // on a full channel.
  lemma NeverSendsLocked(m: State, r: Receiver)
    requires Reachable(m) && m.loop.Sending?
    ensures !m.loopHolds
    ensures r in m.made ==> Enabled(m, Watch(r))
  {
    ReachableInv(m);
  }

  ghost predicate Watched(m: State, r: Receiver) {
    exists fd :: fd in m.receivers && m.receivers[fd] == r
  }

  // Registering makes an open file watched; for a closed one, or one already watched, it fails and changes
  // nothing.
  lemma WatchSucceeds(m: State, r: Receiver)
    requires Reachable(m) && Enabled(m, Watch(r))
    ensures Watched(Next(m, Watch(r)), r) <==> r in m.files
    ensures Next(m, Watch(r)) == m <==> r !in m.files || Watched(m, r)
  {
    ReachableInv(m);
    var m' := Next(m, Watch(r));
    if r in m.files {
      var fd := m.files[r];
      assert fd in m.files.Values;
      if fd in m.epoll {
        assert m.receivers[fd] == r;
      } else {
        assert m'.receivers[fd] == r;
      }
    }
  }

  // ---------------------------------------------------------------------------------------------
  // What becomes of an event

  // The container ids that the goroutine is about to send.
  ghost function InFlightOoms(m: State): seq<string> {
    if m.loop.Leaving? && m.loop.deferred.SendOom? then [m.loop.deferred.cid]
    else if m.loop.Sending? && m.loop.deferred.SendOom? then [m.loop.deferred.cid]
    else []
  }

  // What other steps than handling an event do to receivers, files and listeners.
  ghost predicate Grown(m: State, m': State) {
    && m.made <= m'.made && m.removed <= m'.removed
    && (forall fd :: fd in m.receivers ==> fd in m'.receivers && m'.receivers[fd] == m.receivers[fd])
    && (forall r :: r in m.made ==> (r in m.files <==> r in m'.files))
    && (forall o :: o in m.containerOf && OomEvent(o) in m.made ==>
          o in m'.containerOf && m'.containerOf[o] == m.containerOf[o])
  }

  // The same sends, made or still to be made.
  ghost predicate SameReports(m: State, m': State) {
    && m'.reported + InFlight(m') == m.reported + InFlight(m)
    && m'.oomed + InFlightOoms(m') == m.oomed + InFlightOoms(m)
  }

  lemma OtherStep(m: State, s: Step)
    requires Inv(m) && Enabled(m, s) && !s.Body? && !s.Enter?
    ensures Grown(m, Next(m, s)) && SameReports(m, Next(m, s))
    ensures m.loopHolds && !s.Leave? ==> Next(m, s).receivers == m.receivers && Next(m, s).loop == m.loop
  {
    var m' := Next(m, s);
    assert Grown(m, m');
    if s.Send? {
      SendReports(m);
    }
  }

  lemma SendReports(m: State)
    requires Enabled(m, Send)
    ensures SameReports(m, Next(m, Send))
  {
    var m' := Next(m, Send);
    assert m'.reported + InFlight(m') == m.reported + InFlight(m);
    assert m'.oomed + InFlightOoms(m') == m.oomed + InFlightOoms(m);
  }

  lemma {:induction false} OtherSteps(m: State, steps: seq<Step>, m': State)
    requires Inv(m) && Leads(m, steps, m') && !m.loop.Entered? && forall s :: s in steps ==> !s.Enter?
    ensures Grown(m, m') && SameReports(m, m') && Inv(m')
    decreases |steps|
  {
    if steps != [] {
      assert steps[0] in steps;
      OtherStep(m, steps[0]);
      InvStep(m, steps[0]);
      OtherSteps(Next(m, steps[0]), steps[1..], m');
    }
  }

  // What an event on fd comes to: a hangup of a watched process has the process closed, no longer watched, and
  // sent as the one exit; an event of a watched listener whose cgroup exists throughout has the id of its
  // container sent, as the one id, and the listener stays watched; a listener whose cgroup was gone is closed and
  // no longer watched; any other event sends nothing and leaves its receiver watched.
  ghost predicate Ended(m: State, fd: int, event: EpollEvent, m': State) {
    if fd !in m.receivers then m'.reported == m.reported && m'.oomed == m.oomed
    else
      match m.receivers[fd]
      case Process(p) =>
        && m'.oomed == m.oomed
        && (if event == Hup then
              m'.reported == m.reported + [p] && Process(p) !in m'.files && !Watched(m', Process(p))
            else m'.reported == m.reported && Watched(m', Process(p)))
      case OomEvent(o) =>
        && m'.reported == m.reported && o in m.containerOf
        && (o !in m'.removed ==> m'.oomed == m.oomed + [m.containerOf[o]] && Watched(m', OomEvent(o)))
        && (o in m.removed ==> m'.oomed == m.oomed && OomEvent(o) !in m'.files && !Watched(m', OomEvent(o)))
        && (m'.oomed == m.oomed || m'.oomed == m.oomed + [m.containerOf[o]])
  }

  // The event whose handling has begun, whatever else happens until the goroutine is done with it.
  lemma EventReported(m: State, steps: seq<Step>, m': State)
    requires Reachable(m) && m.loop.Entered? && Leads(m, steps, m') && m'.loop == Between
    requires forall s :: s in steps ==> !s.Enter?
    ensures Ended(m, m.loop.fd, m.loop.event, m')
  {
    ReachableInv(m);
    EndsSo(m, steps, m');
  }

  lemma {:induction false} EndsSo(m: State, steps: seq<Step>, m': State)
    requires Inv(m) && m.loop.Entered? && Leads(m, steps, m') && m'.loop == Between
    requires forall s :: s in steps ==> !s.Enter?
    ensures Ended(m, m.loop.fd, m.loop.event, m') && Inv(m')
    decreases |steps|
  {
    if steps != [] {
      assert steps[0] in steps;
      var m1 := Next(m, steps[0]);
      InvStep(m, steps[0]);
      if steps[0].Body? {
        BodyHandles(m);
        OtherSteps(m1, steps[1..], m');
        BodyEnds(m, m');
      } else {
        OtherStep(m, steps[0]);
        EndsSo(m1, steps[1..], m');
        EndedBefore(m, m1, m.loop.fd, m.loop.event, m');
      }
    }
  }

  // What the body itself does.
  ghost predicate Handles(m: State, fd: int, event: EpollEvent, m': State) {
    if fd !in m.receivers then m'.loop == Leaving(Nothing)
    else if m.receivers[fd] in m'.files then
      && fd in m'.receivers && m'.receivers[fd] == m.receivers[fd]
      && m'.loop.Leaving?
      && match m.receivers[fd]
         case Process(_) => event != Hup && m'.loop == Leaving(Nothing)
         case OomEvent(o) => o !in m.removed && o in m.containerOf && m'.loop == Leaving(SendOom(m.containerOf[o]))
    else
      match m.receivers[fd]
      case Process(p) => event == Hup && m'.loop == Leaving(SendExit(p))
      case OomEvent(o) => o in m.removed && m'.loop == Leaving(Nothing)
  }

  lemma BodyHandles(m: State)
    requires Inv(m) && m.loop.Entered?
    ensures var m' := Next(m, Body);
      && Handles(m, m.loop.fd, m.loop.event, m')
      && m'.made == m.made && m'.removed == m.removed && m'.containerOf == m.containerOf
      && m'.reported == m.reported && m'.oomed == m.oomed
  {
  }

  lemma BodyEnds(m: State, m': State)
    requires Inv(m) && m.loop.Entered? && Inv(m') && m'.loop == Between
    requires Handles(m, m.loop.fd, m.loop.event, Next(m, Body))
    requires var m1 := Next(m, Body);
      && m1.made == m.made && m1.removed == m.removed && m1.containerOf == m.containerOf
      && m1.reported == m.reported && m1.oomed == m.oomed && Grown(m1, m') && SameReports(m1, m')
    ensures Ended(m, m.loop.fd, m.loop.event, m')
  {
    var fd := m.loop.fd;
    assert m'.reported + InFlight(m') == m'.reported && m'.oomed + InFlightOoms(m') == m'.oomed;
    if fd in m.receivers && m.receivers[fd] in Next(m, Body).files {
      assert m'.receivers[fd] == m.receivers[fd];
    }
  }

  lemma EndedBefore(m: State, m1: State, fd: int, event: EpollEvent, m': State)
    requires Inv(m) && m1.receivers == m.receivers && m1.reported == m.reported && m1.oomed == m.oomed
    requires Grown(m, m1) && Ended(m1, fd, event, m') && Inv(m')
    ensures Ended(m, fd, event, m')
  {
  }
}
