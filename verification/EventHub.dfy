// The subscriber and event log code of containerd/supervisor/supervisor.go in its own form: fields changed
// step by step. A method is one pass through its locked regions; what it does is shown to be steps of the
// event bus.

module EventHub {
  import opened Wrappers
  import opened EventBus
  import opened EventBusProofs

  // ---------------------------------------------------------------------------------------------
  // Whole operations as steps of the event bus

  // One notification without interference: every subscriber has been offered the event.
  function NotifyAll(b: Bus, e: Event): Bus {
    OfferedAll(b, e, b.subscribed).(ended := b.ended[|b.emitted| := |b.emitted| + 1])
  }

  // A notification under way, with the subscribers in `offered` done.
  function OfferedAll(b: Bus, e: Event, offered: set<nat>): Bus {
    b.(emitted := b.emitted + [e],
       channels := seq(|b.channels|, c requires 0 <= c < |b.channels| =>
                     if c in offered then Offer(b.channels[c], |b.emitted|) else b.channels[c]))
  }

  function Undelivered(b: Bus, e: Event, todo: set<nat>): Bus {
    OfferedAll(b, e, b.subscribed - todo).(pending := map[|b.emitted| := todo])
  }

  lemma SendOne(b: Bus, e: Event, todo: set<nat>, sub: nat)
    requires Locked(b) && sub in todo && todo <= b.subscribed
    ensures Enabled(Undelivered(b, e, todo), Send(|b.emitted|, sub))
    ensures Next(Undelivered(b, e, todo), Send(|b.emitted|, sub)) == Undelivered(b, e, todo - {sub})
  {
    assert Next(Undelivered(b, e, todo), Send(|b.emitted|, sub)).channels == Undelivered(b, e, todo - {sub}).channels;
    assert map[|b.emitted| := todo][|b.emitted| := todo - {sub}] == map[|b.emitted| := todo - {sub}];
  }

  lemma {:induction false} SendsReach(b: Bus, e: Event, todo: set<nat>)
    requires Locked(b) && todo <= b.subscribed && Reachable(Undelivered(b, e, todo))
    ensures Reachable(Undelivered(b, e, {}))
    decreases |todo|
  {
    if todo != {} {
      var sub :| sub in todo;
      SendOne(b, e, todo, sub);
      Extend(Undelivered(b, e, todo), Send(|b.emitted|, sub));
      SendsReach(b, e, todo - {sub});
    }
  }

  lemma BeginAll(b: Bus, e: Event)
    requires Enabled(b, Begin(e)) && b.pending == map[]
    ensures Next(b, Begin(e)) == Undelivered(b, e, b.subscribed)
  {
    assert OfferedAll(b, e, b.subscribed - b.subscribed).channels == b.channels;
  }

  lemma EndAll(b: Bus, e: Event)
    requires b.pending == map[]
    ensures Enabled(Undelivered(b, e, {}), End(|b.emitted|))
    ensures Next(Undelivered(b, e, {}), End(|b.emitted|)) == NotifyAll(b, e)
  {
    assert b.subscribed - {} == b.subscribed;
    assert Undelivered(b, e, {}).pending - {|b.emitted|} == map[];
  }

  // A whole notification is a run of the event bus.
  lemma NotifyAllReach(b: Bus, e: Event)
    requires Reachable(b) && Enabled(b, Begin(e)) && b.pending == map[]
    ensures Reachable(NotifyAll(b, e))
  {
    ReachableInv(b);
    Extend(b, Begin(e));
    BeginAll(b, e);
    SendsReach(b, e, b.subscribed);
    EndAll(b, e);
    Extend(Undelivered(b, e, {}), End(|b.emitted|));
  }

  // What a notification without interference comes to: each subscriber with fewer than 2048 events waiting has the
  // event as its newest, each other one has missed it, and nobody else is affected.
  lemma NotifiedExactly(b: Bus, e: Event, c: nat)
    requires c < |b.channels|
    ensures var b', n := NotifyAll(b, e), |b.emitted|;
      var ch, ch' := b.channels[c], b'.channels[c];
      && b'.emitted == b.emitted + [e] && n in b'.ended && b'.pending == b.pending && |b'.channels| == |b.channels|
      && ch'.received == ch.received && ch'.closed == ch.closed
      && (c in b.subscribed && |Queue(ch)| < 2048 ==>
            ch'.stream == ch.stream + [Emitted(n)] && ch'.dropped == ch.dropped)
      && (c in b.subscribed && |Queue(ch)| >= 2048 ==> ch'.stream == ch.stream && ch'.dropped == ch.dropped + {n})
      && (c !in b.subscribed ==> ch' == ch)
  {
  }

  // One round of the event logger.
  function LogRound(b: Bus): Bus
    requires Enabled(b, LogReceive)
  {
    var b1 := Next(b, LogReceive);
    Next(if Truncates(b) then Next(b1, LogTruncate) else b1, LogAppend)
  }

  // A round takes the oldest event that waits and appends it to log and journal. If the log counts more than
  // the retain count, only its newest events, one less than that count, are kept before, and counting starts over.
  lemma LogRoundExactly(b: Bus)
    requires Reachable(b) && Enabled(b, LogReceive)
    ensures var b', e, r := LogRound(b), Queue(b.channels[0])[0], b.retain;
      && b'.logger == Idle && b'.channels[0].received == b.channels[0].received + 1
      && if r > 0 && b.count > r then
           && r - 1 <= |b.eventLog| && b'.eventLog == b.eventLog[|b.eventLog| - (r - 1)..] + [e]
           && b'.journal == b'.eventLog && b'.count == 1
         else
           b'.eventLog == b.eventLog + [e] && b'.journal == b.journal + [e] && b'.count == b.count + 1
  {
    ReachableInv(b);
    assert LogState(b);
  }

  lemma LogRoundReach(b: Bus)
    requires Reachable(b) && Enabled(b, LogReceive)
    ensures Reachable(LogRound(b))
  {
    Extend(b, LogReceive);
    var b1 := Next(b, LogReceive);
    if Truncates(b) {
      Extend(b1, LogTruncate);
      Extend(Next(b1, LogTruncate), LogAppend);
    } else {
      Extend(b1, LogAppend);
    }
  }

  function Backlog(b: Bus): nat {
    if b.channels == [] then 0 else |Queue(b.channels[LOGGER])|
  }

  // The event logger's rounds until its channel is empty.
  function LogAll(b: Bus): Bus
    decreases Backlog(b)
  {
    if Enabled(b, LogReceive) then LogAll(LogRound(b)) else b
  }

  lemma RoundShrinks(b: Bus)
    requires Enabled(b, LogReceive)
    ensures LogRound(b).logger == Idle && LogRound(b).channels != [] && Backlog(LogRound(b)) < Backlog(b)
    ensures LogRound(b).stored == b.stored && LogRound(b).channels[LOGGER].stream == b.channels[LOGGER].stream
  {
  }

  lemma AllLogged(b: Bus)
    requires LogSource(b) && b.logger == Idle && !Enabled(b, LogReceive)
    ensures Backlog(b) == 0 && Logged(b) == StoredEntries(|b.stored|) + b.channels[LOGGER].stream
  {
    var ch := b.channels[LOGGER];
    assert ch.stream[..ch.received] == ch.stream;
  }

  lemma {:induction false} LogAllReach(b: Bus)
    requires Reachable(b) && b.logger == Idle && b.channels != []
    ensures Reachable(LogAll(b)) && LogAll(b).logger == Idle && Backlog(LogAll(b)) == 0
    ensures Logged(LogAll(b)) == StoredEntries(|b.stored|) + b.channels[LOGGER].stream
    decreases Backlog(b)
  {
    ReachableInv(b);
    if Enabled(b, LogReceive) {
      LogRoundReach(b);
      RoundShrinks(b);
      LogAllReach(LogRound(b));
    } else {
      AllLogged(b);
    }
  }

  // ---------------------------------------------------------------------------------------------
  // Replay, entry by entry

  lemma {:induction false} ReplaySnoc(b: Bus, log: seq<Entry>, e: Entry, from: Option<int>, id: string)
    ensures Replay(b, log + [e], from, id)
         == Replay(b, log, from, id) + (if Replays(b, e, from, id) then [e] else [])
  {
    if log == [] {
      assert log + [e] == [e];
    } else {
      assert (log + [e])[1..] == log[1..] + [e];
      ReplaySnoc(b, log[1..], e, from, id);
    }
  }

  lemma {:induction false} ReplayPrefix(b: Bus, log: seq<Entry>, k: nat, from: Option<int>, id: string)
    requires k <= |log|
    ensures |Replay(b, log[..k], from, id)| <= |Replay(b, log, from, id)|
    decreases |log| - k
  {
    if k < |log| {
      assert log[..k + 1] == log[..k] + [log[k]];
      ReplaySnoc(b, log[..k], log[k], from, id);
      ReplayPrefix(b, log, k + 1, from, id);
    } else {
      assert log[..k] == log;
    }
  }

  // ---------------------------------------------------------------------------------------------
  // The supervisor's fields

  class Hub {
    const retainCount: nat
    const stored: seq<Event>
    var emitted: seq<Event>
    var channels: seq<Subscriber>
    var subscribers: set<nat>
    var counter: int
    var eventLog: seq<Entry>
    var journal: seq<Entry>
    var count: nat
    ghost var ended: map<nat, nat>
    ghost var pending: map<nat, set<nat>>
    ghost var wedged: bool
    ghost var logger: Logger
    ghost var truncatedOnce: bool

    ghost function State(): Bus
      reads this
    {
      Bus(retainCount, stored, emitted, ended, pending, channels, subscribers, counter, wedged, eventLog, journal,
          count, logger, truncatedOnce)
    }

    constructor (retainCount: nat, stored: seq<Event>)
      ensures State() == Init(retainCount, stored)
    {
      this.retainCount, this.stored := retainCount, stored;
      emitted, channels, subscribers, counter := [], [Subscriber([], 0, 0, 0, 0, false, {})], {LOGGER}, 1;
      eventLog, journal, count := StoredEntries(|stored|), [], |stored|;
      ended, pending, wedged, logger, truncatedOnce := map[], map[], false, Idle, false;
    }

    // The matching entries of the log, sent to a fresh queue; `full` when one does not fit.
    method SendPast(from: int, id: string) returns (queue: seq<Entry>, full: bool)
      requires forall e :: e in eventLog ==> Known(State(), e)
      ensures full <==> |Replay(State(), eventLog, Some(from), id)| > BUFFER_SIZE
      ensures !full ==> queue == Replay(State(), eventLog, Some(from), id)
    {
      queue, full := [], false;
      for i := 0 to |eventLog|
        invariant queue == Replay(State(), eventLog[..i], Some(from), id) && |queue| <= BUFFER_SIZE
      {
        assert eventLog[..i + 1] == eventLog[..i] + [eventLog[i]];
        ReplaySnoc(State(), eventLog[..i], eventLog[i], Some(from), id);
        ReplayPrefix(State(), eventLog, i + 1, Some(from), id);
        assert eventLog[i] in eventLog;
        var e := if eventLog[i].Stored? then stored[eventLog[i].k] else emitted[eventLog[i].n];
        if e.time > from {
          if id == "" || e.id == id {
            if |queue| == BUFFER_SIZE {
              return [], true;
            }
            queue := queue + [eventLog[i]];
          }
        }
      }
      assert eventLog[..|eventLog|] == eventLog;
    }

    // Makes a channel, replays into it while holding the lock, and registers or closes it. A replay that
    // does not fit the queue never returns; `blocked` stands for that.
    method Events(from: Option<int>, storedOnly: bool, id: string) returns (c: nat, blocked: bool)
      requires Inv(State()) && Enabled(State(), Subscribe(from, storedOnly, id))
      modifies this`wedged, this`channels, this`counter, this`subscribers
      ensures State() == Next(old(State()), Subscribe(from, storedOnly, id))
      ensures blocked == wedged && (!blocked ==> c == |old(channels)|)
    {
      c, blocked := |channels|, false;
      var queue;
      queue, blocked := SendLog(from, id);
      if blocked {
        wedged := true;
        return;
      }
      AddChannel(queue, storedOnly);
    }

    // Nothing is replayed without a start time.
    method SendLog(from: Option<int>, id: string) returns (queue: seq<Entry>, full: bool)
      requires Inv(State())
      ensures full <==> |Replay(State(), eventLog, from, id)| > BUFFER_SIZE
      ensures !full ==> queue == Replay(State(), eventLog, from, id)
    {
      queue, full := [], false;
      if from.Some? {
        LogDistinct(State());
        queue, full := SendPast(from.value, id);
      } else {
        ReplayNothing(State(), eventLog, id);
      }
    }

    // A storedOnly channel is closed at once.
    method AddChannel(queue: seq<Entry>, storedOnly: bool)
      modifies this`channels, this`counter, this`subscribers
      ensures channels == old(channels) + [Subscriber(queue, |queue|, 0, |emitted|, |emitted|, storedOnly, {})]
      ensures subscribers == if storedOnly then old(subscribers) else old(subscribers) + {|old(channels)|}
      ensures counter == if storedOnly then old(counter) else old(counter) + 1
    {
      var c := |channels|;
      channels := channels + [Subscriber(queue, |queue|, 0, |emitted|, |emitted|, storedOnly, {})];
      if !storedOnly {
        counter := counter + 1;
        subscribers := subscribers + {c};
      }
    }

    method Unsubscribe(c: nat)
      requires Enabled(State(), Step.Unsubscribe(c))
      modifies this`channels, this`counter, this`subscribers
      ensures State() == Next(old(State()), Step.Unsubscribe(c))
    {
      if c in subscribers {
        subscribers := subscribers - {c};
        channels := channels[c := channels[c].(closed := true, until := |emitted|)];
        counter := counter - 1;
      }
    }

    // Offers the event to every subscriber without blocking, in any order.
    method NotifySubscribers(e: Event)
      requires forall c :: c in subscribers ==> c < |channels|
      modifies this`emitted, this`channels, this`ended
      ensures State() == NotifyAll(old(State()), e)
    {
      ghost var b := State();
      var n := |emitted|;
      emitted := emitted + [e];
      OfferAll(n);
      ended := ended[n := |emitted|];
      ghost var b' := NotifyAll(b, e);
      assert channels == b'.channels;
      assert ended == b'.ended && emitted == b'.emitted;
    }

    // The non-blocking sends of one notification.
    method OfferAll(n: nat)
      requires forall c :: c in subscribers ==> c < |channels|
      modifies this`channels
      ensures |channels| == |old(channels)|
      ensures forall c :: 0 <= c < |channels| ==>
                channels[c] == if c in subscribers then Offer(old(channels[c]), n) else old(channels[c])
    {
      var todo := subscribers;
      while todo != {}
        invariant todo <= subscribers
        invariant |channels| == |old(channels)|
        invariant forall c :: 0 <= c < |channels| ==>
          channels[c] == if c in subscribers && c !in todo then Offer(old(channels[c]), n) else old(channels[c])
        decreases todo
      {
        var sub :| sub in todo;
        if |Queue(channels[sub])| < BUFFER_SIZE {
          channels := channels[sub := channels[sub].(stream := channels[sub].stream + [Emitted(n)])];
        } else {
          channels := channels[sub := channels[sub].(dropped := channels[sub].dropped + {n})];
        }
        todo := todo - {sub};
      }
    }

    // Keeps the newest retainCount - 1 events and writes the journal file anew.
    method TruncateLog()
      requires Enabled(State(), LogTruncate)
      modifies this`eventLog, this`journal, this`count, this`logger, this`truncatedOnce
      ensures State() == Next(old(State()), LogTruncate)
    {
      var slice := retainCount - 1;
      var l := |eventLog|;
      if slice >= l {
        slice := l;
      }
      eventLog := eventLog[|eventLog| - slice..];
      count := 0;
      var lines: seq<Entry> := [];
      for i := 0 to |eventLog|
        invariant lines == eventLog[..i]
      {
        lines := lines + [eventLog[i]];
      }
      journal := lines;
      logger := Truncated(logger.entry);
      truncatedOnce := true;
    }

    // One round of the event logger: take an event, truncate the log if the counter says so, append.
    method LogEvent()
      requires Enabled(State(), LogReceive)
      modifies this`channels, this`eventLog, this`journal, this`count, this`logger, this`truncatedOnce
      ensures State() == LogRound(old(State()))
    {
      var e := TakeEvent();
      if retainCount > 0 {
        if count > retainCount {
          TruncateLog();
        }
      }
      AppendEvent(e);
    }

    method TakeEvent() returns (e: Entry)
      requires Enabled(State(), LogReceive)
      modifies this`channels, this`logger
      ensures State() == Next(old(State()), LogReceive) && logger == Holding(e)
    {
      e := Queue(channels[LOGGER])[0];
      channels := channels[LOGGER := channels[LOGGER].(received := channels[LOGGER].received + 1)];
      logger := Holding(e);
    }

    method AppendEvent(e: Entry)
      requires Enabled(State(), LogAppend) && logger.entry == e
      modifies this`eventLog, this`journal, this`count, this`logger
      ensures State() == Next(old(State()), LogAppend)
    {
      eventLog := eventLog + [e];
      count := count + 1;
      journal := journal + [e];
      logger := Idle;
    }

    // The event logger's loop, until its channel is empty.
    method EventLogger()
      requires logger == Idle && channels != []
      modifies this`channels, this`eventLog, this`journal, this`count, this`logger, this`truncatedOnce
      ensures State() == LogAll(old(State()))
    {
      while Queue(channels[LOGGER]) != []
        invariant logger == Idle && channels != [] && LogAll(State()) == LogAll(old(State()))
        decreases Backlog(State())
      {
        RoundShrinks(State());
        LogEvent();
      }
    }
  }
}
