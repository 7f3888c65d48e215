// What the event bus promises over whole runs: channel safety, what each subscriber receives and in which
// order, and the bounds of the retained log.

module EventBusProofs {
  import opened Wrappers
  import opened EventBus

  // ---------------------------------------------------------------------------------------------
  // Replay

  ghost predicate Distinct(s: seq<Entry>) {
    forall i, j :: 0 <= i < j < |s| ==> s[i] != s[j]
  }

  // Where the entries of the replay come from: increasing positions of the log.
  ghost predicate Picks(s: seq<Entry>, at: seq<nat>, log: seq<Entry>) {
    && |at| == |s|
    && (forall i :: 0 <= i < |s| ==> at[i] < |log| && s[i] == log[at[i]])
    && (forall i, j :: 0 <= i < j < |at| ==> at[i] < at[j])
  }

  ghost predicate IsSubsequence(s: seq<Entry>, log: seq<Entry>) {
    exists at :: Picks(s, at, log)
  }

  lemma PicksFromTail(x: Entry, s: seq<Entry>, log: seq<Entry>, keep: bool)
    requires IsSubsequence(s, log)
    ensures IsSubsequence((if keep then [x] else []) + s, [x] + log)
  {
    var at :| Picks(s, at, log);
    var shifted := seq(|at|, i requires 0 <= i < |at| => at[i] + 1);
    var kept := (if keep then [x] else []) + s;
    var positions := (if keep then [0] else []) + shifted;
    var d := if keep then 1 else 0;
    forall i | 0 <= i < |kept| ensures positions[i] < |log| + 1 && kept[i] == ([x] + log)[positions[i]] {
      if i >= d {
        assert kept[i] == s[i - d] && positions[i] == at[i - d] + 1;
      }
    }
    forall i, j | 0 <= i < j < |positions| ensures positions[i] < positions[j] {
      assert positions[j] == at[j - d] + 1;
    }
    assert Picks(kept, positions, [x] + log);
  }

  // A replay is a subsequence of the log that leaves out exactly the entries the request filters out.
  lemma {:induction false} ReplayPicks(b: Bus, log: seq<Entry>, from: Option<int>, id: string)
    ensures IsSubsequence(Replay(b, log, from, id), log)
    ensures forall e :: e in Replay(b, log, from, id) <==> e in log && Replays(b, e, from, id)
  {
    if log == [] {
      assert Picks([], [], log);
    } else {
      assert log == [log[0]] + log[1..];
      ReplayPicks(b, log[1..], from, id);
      PicksFromTail(log[0], Replay(b, log[1..], from, id), log[1..], Replays(b, log[0], from, id));
    }
  }

  lemma ReplayOfDistinct(b: Bus, log: seq<Entry>, from: Option<int>, id: string)
    requires Distinct(log)
    ensures Distinct(Replay(b, log, from, id)) && |Replay(b, log, from, id)| <= |log|
    ensures forall i :: 0 <= i < |Replay(b, log, from, id)| ==> Replay(b, log, from, id)[i] in log
  {
    ReplayPicks(b, log, from, id);
    var s := Replay(b, log, from, id);
    var at :| Picks(s, at, log);
    PicksBound(s, at, log, |s|);
  }

  lemma {:induction false} PicksBound(s: seq<Entry>, at: seq<nat>, log: seq<Entry>, n: nat)
    requires Picks(s, at, log) && n <= |s|
    ensures n > 0 ==> n <= at[n - 1] + 1
    ensures n <= |log|
  {
    if n > 1 {
      PicksBound(s, at, log, n - 1);
    }
  }

  lemma LoggedDistinct(b: Bus)
    requires ChannelZeroOk(b) && LogState(b)
    ensures Distinct(Logged(b)) && forall i :: 0 <= i < |Logged(b)| ==> Known(b, Logged(b)[i])
  {
    var ch := b.channels[LOGGER];
    var n := |b.stored|;
    var done := if b.logger == Idle then ch.received else ch.received - 1;
    StreamKnown(ch, EndOf(b, LOGGER), done, n);
    assert Logged(b) == StoredEntries(n) + ch.stream[..done];
  }

  lemma StreamKnown(ch: Subscriber, end: nat, done: nat, n: nat)
    requires Shape(ch, end) && ch.replayed == 0 && done <= |ch.stream|
    ensures var log := StoredEntries(n) + ch.stream[..done];
            && Distinct(log)
            && (forall i :: 0 <= i < |log| ==> if i < n then log[i] == Stored(i) else log[i].Emitted? && log[i].n < end)
  {
    var log := StoredEntries(n) + ch.stream[..done];
    forall i | 0 <= i < |log| ensures if i < n then log[i] == Stored(i) else log[i] == ch.stream[i - n] {
    }
  }

  ghost predicate ChannelZeroOk(b: Bus) {
    0 < |b.channels| && ChannelOk(b, LOGGER)
  }

  lemma LogDistinct(b: Bus)
    requires ChannelZeroOk(b) && LogState(b)
    ensures Distinct(b.eventLog) && forall e :: e in b.eventLog ==> Known(b, e)
  {
    LoggedDistinct(b);
    assert forall i :: 0 <= i < |b.eventLog| ==> b.eventLog[i] == Logged(b)[|Logged(b)| - |b.eventLog| + i];
  }

  // ---------------------------------------------------------------------------------------------
  // Every step keeps the invariant

  lemma InitInv(retain: nat, stored: seq<Event>)
    ensures Inv(Init(retain, stored))
  {
    var b := Init(retain, stored);
    assert Logged(b) == StoredEntries(|stored|) + [];
  }

  lemma LockedPending(b: Bus, s: Step)
    requires Locked(b) && Enabled(b, s)
    ensures forall n :: n in Next(b, s).pending ==> Next(b, s).pending[n] <= Next(b, s).subscribed
  {
    if s.Send? {
      assert forall m :: m in Next(b, s).pending ==> m in b.pending && Next(b, s).pending[m] <= b.pending[m];
    }
  }

  lemma LockedUnsubscribe(b: Bus, c: nat)
    requires Locked(b) && Enabled(b, Unsubscribe(c))
    ensures Locked(Next(b, Unsubscribe(c)))
  {
  }

  lemma LockedSubscribe(b: Bus, s: Step)
    requires Locked(b) && s.Subscribe? && Enabled(b, s)
    ensures Locked(Next(b, s))
  {
    assert |b.channels| !in b.subscribed;
    var b' := Next(b, s);
    if b'.subscribed != b.subscribed {
      assert b'.subscribed - {|b.channels|} == b.subscribed;
    }
    forall c | 0 <= c < |b'.channels| ensures b'.channels[c].closed <==> c !in b'.subscribed {
      if c < |b.channels| {
        assert b'.channels[c] == b.channels[c];
      }
    }
  }

  lemma LockedStep(b: Bus, s: Step)
    requires Locked(b) && Enabled(b, s)
    ensures Locked(Next(b, s))
  {
    if s.Subscribe? {
      LockedSubscribe(b, s);
    } else if s.Unsubscribe? {
      LockedUnsubscribe(b, s.c);
    } else {
      LockedPending(b, s);
    }
  }

  lemma TimedStep(b: Bus, s: Step)
    requires Timed(b) && Enabled(b, s)
    ensures Timed(Next(b, s))
  {
  }

  lemma AwaitingStep(b: Bus, s: Step, c: nat)
    requires Enabled(b, s)
    ensures Awaiting(Next(b, s), c) == match s
              case Begin(_) =>
                if c in b.subscribed then Awaiting(b, c) + {|b.emitted|} else Awaiting(b, c) - {|b.emitted|}
              case Send(n, d) => if c == d then Awaiting(b, c) - {n} else Awaiting(b, c)
              case _ => Awaiting(b, c)
  {
  }

  lemma OfferOk(ch: Subscriber, end: nat, awaiting: set<nat>, ended: map<nat, nat>, n: nat)
    requires Shape(ch, end) && Complete(ch, end, awaiting) && Ordered(ch, ended)
    requires n in awaiting && n !in ended
    ensures Shape(Offer(ch, n), end) && Complete(Offer(ch, n), end, awaiting - {n}) && Ordered(Offer(ch, n), ended)
  {
    assert ch.from <= n < end && Emitted(n) !in ch.stream && n !in ch.dropped;
    if |Queue(ch)| < BUFFER_SIZE {
      OfferComplete(ch, end, awaiting, n);
      OfferOrdered(ch, ended, n);
    }
  }

  lemma OfferComplete(ch: Subscriber, end: nat, awaiting: set<nat>, n: nat)
    requires Complete(ch, end, awaiting) && n in awaiting && |Queue(ch)| < BUFFER_SIZE
    ensures Complete(Offer(ch, n), end, awaiting - {n})
  {
    assert forall m :: Emitted(m) in Offer(ch, n).stream <==> Emitted(m) in ch.stream || m == n;
  }

  lemma OfferOrdered(ch: Subscriber, ended: map<nat, nat>, n: nat)
    requires Ordered(ch, ended) && n !in ended && |Queue(ch)| < BUFFER_SIZE
    ensures Ordered(Offer(ch, n), ended)
  {
  }

  lemma TakenOk(ch: Subscriber, end: nat, awaiting: set<nat>, ended: map<nat, nat>)
    requires Shape(ch, end) && Complete(ch, end, awaiting) && Ordered(ch, ended) && Queue(ch) != []
    ensures Shape(Taken(ch), end) && Complete(Taken(ch), end, awaiting) && Ordered(Taken(ch), ended)
  {
  }

  lemma LaterOk(ch: Subscriber, end: nat, awaiting: set<nat>)
    requires Shape(ch, end) && Complete(ch, end, awaiting)
    ensures Shape(ch, end + 1) && Complete(ch, end + 1, awaiting + {end})
  {
    assert Emitted(end) !in ch.stream;
  }

  lemma EndedOk(ch: Subscriber, end: nat, ended: map<nat, nat>, n: nat, now: nat)
    requires Shape(ch, end) && Ordered(ch, ended) && end <= now
    ensures Ordered(ch, ended[n := now])
  {
  }

  // A step that touches neither the channel nor what it awaits.
  lemma ChannelSame(b: Bus, b': Bus, c: nat)
    requires c < |b.channels| && c < |b'.channels| && ChannelOk(b, c)
    requires || b'.channels[c] == b.channels[c]
             || (!b.channels[c].closed && b'.channels[c] == b.channels[c].(closed := true, until := |b.emitted|))
    requires |b'.emitted| == |b.emitted| && b'.ended == b.ended && Awaiting(b', c) == Awaiting(b, c)
    ensures ChannelOk(b', c)
  {
  }

  lemma ChannelBegin(b: Bus, e: Event, c: nat)
    requires Locked(b) && Timed(b) && !b.wedged && c < |b.channels| && ChannelOk(b, c)
    ensures ChannelOk(Next(b, Begin(e)), c)
  {
    AwaitingStep(b, Begin(e), c);
    if c in b.subscribed {
      LaterOk(b.channels[c], EndOf(b, c), Awaiting(b, c));
    } else {
      assert |b.emitted| !in Awaiting(b, c);
      assert Awaiting(b, c) - {|b.emitted|} == Awaiting(b, c);
    }
  }

  lemma ChannelSend(b: Bus, n: nat, c: nat)
    requires Timed(b) && Enabled(b, Send(n, c)) && ChannelOk(b, c)
    ensures ChannelOk(Next(b, Send(n, c)), c)
  {
    AwaitingStep(b, Send(n, c), c);
    OfferOk(b.channels[c], EndOf(b, c), Awaiting(b, c), b.ended, n);
  }

  lemma ChannelTaken(b: Bus, s: Step, c: nat)
    requires Enabled(b, s) && c < |b.channels| && ChannelOk(b, c)
    requires s == Receive(c) || (s == LogReceive && c == LOGGER)
    ensures ChannelOk(Next(b, s), c)
  {
    AwaitingStep(b, s, c);
    TakenOk(b.channels[c], EndOf(b, c), Awaiting(b, c), b.ended);
  }

  lemma ChannelEnd(b: Bus, n: nat, c: nat)
    requires Enabled(b, End(n)) && c < |b.channels| && ChannelOk(b, c)
    ensures ChannelOk(Next(b, End(n)), c)
  {
    AwaitingStep(b, End(n), c);
    EndedOk(b.channels[c], EndOf(b, c), b.ended, n, |b.emitted|);
  }

  lemma ChannelStep(b: Bus, s: Step, c: nat)
    requires Locked(b) && Timed(b) && Enabled(b, s) && c < |b.channels| && ChannelOk(b, c)
    ensures ChannelOk(Next(b, s), c)
  {
    if s.Begin? {
      ChannelBegin(b, s.e, c);
    } else if s.Send? && s.c == c {
      ChannelSend(b, s.n, c);
    } else if s.End? {
      ChannelEnd(b, s.n, c);
    } else if s == Receive(c) || (s == LogReceive && c == LOGGER) {
      ChannelTaken(b, s, c);
    } else {
      AwaitingStep(b, s, c);
      ChannelSame(b, Next(b, s), c);
    }
  }

  // A fresh channel: the replay, then nothing.
  lemma NewChannelOk(b: Bus, s: Step)
    requires Locked(b) && ChannelZeroOk(b) && LogState(b) && Enabled(b, s) && s.Subscribe? && !Next(b, s).wedged
    ensures ChannelOk(Next(b, s), |b.channels|)
  {
    LogDistinct(b);
    ReplayOfDistinct(b, b.eventLog, s.from, s.id);
    assert Awaiting(Next(b, s), |b.channels|) == {};
    NewShape(b, Replay(b, b.eventLog, s.from, s.id), s.storedOnly);
  }

  lemma NewShape(b: Bus, past: seq<Entry>, closed: bool)
    requires Distinct(past) && forall i :: 0 <= i < |past| ==> Known(b, past[i])
    ensures Shape(Subscriber(past, |past|, 0, |b.emitted|, |b.emitted|, closed, {}), |b.emitted|)
  {
  }

  lemma StreamsStep(b: Bus, s: Step)
    requires Inv(b) && Enabled(b, s)
    ensures Streams(Next(b, s))
  {
    forall c | 0 <= c < |Next(b, s).channels| ensures ChannelOk(Next(b, s), c) {
      if c < |b.channels| {
        ChannelStep(b, s, c);
      } else {
        NewChannelOk(b, s);
      }
    }
  }

  // ---------------------------------------------------------------------------------------------
  // The log

  // The logger's own channel may get more entries; what was logged stays.
  lemma SourceUntouched(b: Bus, s: Step)
    requires LogSource(b) && Enabled(b, s) && !s.LogReceive? && !s.LogAppend?
    ensures LogSource(Next(b, s)) && Logged(Next(b, s)) == Logged(b)
  {
    SourceKept(b, s);
    var ch, ch' := b.channels[LOGGER], Next(b, s).channels[LOGGER];
    var done := if b.logger == Idle then ch.received else ch.received - 1;
    assert ch'.stream[..done] == ch.stream[..done];
  }

  lemma SourceKept(b: Bus, s: Step)
    requires LogSource(b) && Enabled(b, s) && !s.LogReceive? && !s.LogAppend?
    ensures var b' := Next(b, s);
      && 0 < |b'.channels| && b'.stored == b.stored && (b'.logger == Idle <==> b.logger == Idle)
      && (b.logger != Idle ==> b'.logger.entry == b.logger.entry)
      && b'.channels[LOGGER].received == b.channels[LOGGER].received
      && b'.channels[LOGGER].replayed == b.channels[LOGGER].replayed
      && b.channels[LOGGER].stream <= b'.channels[LOGGER].stream
  {
  }

  lemma LogReceived(b: Bus)
    requires LogState(b) && Enabled(b, LogReceive)
    ensures LogState(Next(b, LogReceive))
  {
    assert Logged(Next(b, LogReceive)) == Logged(b);
  }

  lemma LogTruncated(b: Bus)
    requires LogState(b) && Enabled(b, LogTruncate)
    ensures LogState(Next(b, LogTruncate))
  {
    SourceUntouched(b, LogTruncate);
    assert b.retain - 1 < |b.eventLog|;
  }

  lemma LoggedMore(b: Bus)
    requires LogSource(b) && Enabled(b, LogAppend)
    ensures LogSource(Next(b, LogAppend)) && Logged(Next(b, LogAppend)) == Logged(b) + [b.logger.entry]
  {
    var ch := b.channels[LOGGER];
    assert ch.stream[..ch.received] == ch.stream[..ch.received - 1] + [b.logger.entry];
  }

  lemma LogAppended(b: Bus)
    requires LogState(b) && Enabled(b, LogAppend)
    ensures LogState(Next(b, LogAppend))
  {
    LoggedMore(b);
    ShapeAppended(b, Logged(b));
  }

  lemma ShapeAppended(b: Bus, logged: seq<Entry>)
    requires Enabled(b, LogAppend) && LogShape(b, logged)
    ensures LogShape(Next(b, LogAppend), logged + [b.logger.entry])
  {
  }

  lemma LogStep(b: Bus, s: Step)
    requires LogState(b) && Enabled(b, s)
    ensures LogState(Next(b, s))
  {
    match s
    case LogReceive => LogReceived(b);
    case LogTruncate => LogTruncated(b);
    case LogAppend => LogAppended(b);
    case _ => LogUntouched(b, s);
  }

  // The steps that do not concern the log.
  lemma LogUntouched(b: Bus, s: Step)
    requires LogState(b) && Enabled(b, s) && !s.LogReceive? && !s.LogTruncate? && !s.LogAppend?
    ensures LogState(Next(b, s))
  {
    SourceUntouched(b, s);
    SameLog(b, s);
    ShapeSame(b, Next(b, s), Logged(b));
  }

  lemma SameLog(b: Bus, s: Step)
    requires Enabled(b, s) && !s.LogReceive? && !s.LogTruncate? && !s.LogAppend?
    ensures var b' := Next(b, s);
      && b'.stored == b.stored && b'.retain == b.retain && b'.eventLog == b.eventLog && b'.journal == b.journal
      && b'.count == b.count && b'.logger == b.logger && b'.truncatedOnce == b.truncatedOnce
  {
  }

  lemma ShapeSame(b: Bus, b': Bus, logged: seq<Entry>)
    requires LogShape(b, logged)
    requires b'.stored == b.stored && b'.retain == b.retain && b'.eventLog == b.eventLog && b'.journal == b.journal
    requires b'.count == b.count && b'.logger == b.logger && b'.truncatedOnce == b.truncatedOnce
    ensures LogShape(b', logged)
  {
  }

  lemma InvStep(b: Bus, s: Step)
    requires Inv(b) && Enabled(b, s)
    ensures Inv(Next(b, s))
  {
    LockedStep(b, s);
    TimedStep(b, s);
    StreamsStep(b, s);
    LogStep(b, s);
  }

  lemma {:induction false} LeadsInv(b: Bus, steps: seq<Step>, b': Bus)
    requires Inv(b) && Leads(b, steps, b')
    ensures Inv(b')
    decreases |steps|
  {
    if steps != [] {
      InvStep(b, steps[0]);
      LeadsInv(Next(b, steps[0]), steps[1..], b');
    }
  }

  // Every interleaving of the steps keeps the invariant.
  lemma ReachableInv(b: Bus)
    requires Reachable(b)
    ensures Inv(b)
  {
    var steps :| Leads(Init(b.retain, b.stored), steps, b);
    InitInv(b.retain, b.stored);
    LeadsInv(Init(b.retain, b.stored), steps, b);
  }

  // ---------------------------------------------------------------------------------------------
  // Main results: channels

  // No event is ever sent on a closed channel, a channel is closed only while open, and the counter is the
  // number of subscribers. A storedOnly channel is closed by Events, so its deferred Unsubscribe does nothing.
  lemma ChannelSafety(b: Bus, s: Step)
    requires Reachable(b) && Enabled(b, s)
    ensures b.counter == |b.subscribed|
    ensures s.Send? ==> !b.channels[s.c].closed
    ensures s.Unsubscribe? ==> (if b.channels[s.c].closed then Next(b, s) == b
                                else Next(b, s).channels[s.c].closed && s.c !in Next(b, s).subscribed)
    ensures forall c :: 0 <= c < |b.channels| && b.channels[c].closed ==>
              Next(b, s).channels[c].closed && Next(b, s).channels[c].stream == b.channels[c].stream
  {
    ReachableInv(b);
  }

  // A subscriber misses an event only when its queue is full at the moment of the send.
  lemma MissedOnlyWhenFull(b: Bus, s: Step, c: nat, n: nat)
    requires Reachable(b) && Enabled(b, s) && c < |b.channels|
    requires n in Next(b, s).channels[c].dropped && n !in b.channels[c].dropped
    ensures s == Send(n, c) && |Queue(b.channels[c])| >= 2048
  {
  }

  // What a subscriber gets: a replay of old events, then events notified while it was subscribed; nothing
  // twice; and of the latter it lacks only those dropped and those whose notification is still under way.
  lemma StreamContents(b: Bus, c: nat)
    requires Reachable(b) && c < |b.channels|
    ensures var ch := b.channels[c];
            && Distinct(ch.stream) && ch.replayed <= |ch.stream|
            && (forall i :: 0 <= i < ch.replayed ==> ch.stream[i].Stored? || ch.stream[i].n < ch.from)
            && (forall n: nat :: Emitted(n) in ch.stream[ch.replayed..] <==>
                  ch.from <= n < EndOf(b, c) && n !in ch.dropped && n !in Awaiting(b, c))
  {
    ReachableInv(b);
    var ch := b.channels[c];
    assert ChannelOk(b, c);
    forall n: nat ensures Emitted(n) in ch.stream[ch.replayed..] <==>
                            ch.from <= n < EndOf(b, c) && n !in ch.dropped && n !in Awaiting(b, c)
    {
      LivePart(ch, EndOf(b, c), n);
    }
  }

  lemma LivePart(ch: Subscriber, end: nat, n: nat)
    requires Shape(ch, end)
    ensures Emitted(n) in ch.stream[ch.replayed..] <==> Emitted(n) in ch.stream && ch.from <= n < end
  {
    if Emitted(n) in ch.stream && ch.from <= n < end {
      var i :| 0 <= i < |ch.stream| && ch.stream[i] == Emitted(n);
      assert ch.stream[ch.replayed..][i - ch.replayed] == Emitted(n);
    }
  }

  // A new subscriber's replay: of the entries in the log, all those with an event of the container asked for
  // that is newer than the time asked for, in log order; without a time, none. It waits in the queue, and the
  // channel is subscribed unless only stored events were asked for, in which case it is closed.
  lemma ReplayContents(b: Bus, s: Step)
    requires Reachable(b) && Enabled(b, s) && s.Subscribe? && !Next(b, s).wedged
    ensures |Next(b, s).channels| == |b.channels| + 1 && Next(b, s).channels[..|b.channels|] == b.channels
    ensures var ch := Next(b, s).channels[|b.channels|];
            && ch.replayed == |ch.stream| <= 2048 && Queue(ch) == ch.stream && IsSubsequence(ch.stream, b.eventLog)
            && (forall k: nat :: Stored(k) in ch.stream <==>
                  && Stored(k) in b.eventLog && k < |b.stored| && s.from.Some? && b.stored[k].time > s.from.value
                  && (s.id == "" || b.stored[k].id == s.id))
            && (forall n: nat :: Emitted(n) in ch.stream <==>
                  && Emitted(n) in b.eventLog && n < |b.emitted| && s.from.Some? && b.emitted[n].time > s.from.value
                  && (s.id == "" || b.emitted[n].id == s.id))
            && (ch.closed <==> s.storedOnly) && (|b.channels| in Next(b, s).subscribed <==> !s.storedOnly)
  {
    NewChannel(b, s);
    ReplayOfStored(b, b.eventLog, s.from, s.id);
    ReplayOfEmitted(b, b.eventLog, s.from, s.id);
    ReplayPicks(b, b.eventLog, s.from, s.id);
  }

  lemma NewChannel(b: Bus, s: Step)
    requires Reachable(b) && Enabled(b, s) && s.Subscribe? && !Next(b, s).wedged
    ensures |Next(b, s).channels| == |b.channels| + 1 && Next(b, s).channels[..|b.channels|] == b.channels
    ensures var ch := Next(b, s).channels[|b.channels|];
            && ch.stream == Replay(b, b.eventLog, s.from, s.id) && ch.replayed == |ch.stream| <= 2048
            && Queue(ch) == ch.stream
            && (ch.closed <==> s.storedOnly) && (|b.channels| in Next(b, s).subscribed <==> !s.storedOnly)
  {
    ReachableInv(b);
    assert Locked(b);
  }

  lemma ReplayOfStored(b: Bus, log: seq<Entry>, from: Option<int>, id: string)
    ensures forall k: nat :: Stored(k) in Replay(b, log, from, id) <==>
              && Stored(k) in log && k < |b.stored| && from.Some? && b.stored[k].time > from.value
              && (id == "" || b.stored[k].id == id)
  {
    ReplayPicks(b, log, from, id);
    forall k: nat ensures Stored(k) in Replay(b, log, from, id) <==>
              && Stored(k) in log && k < |b.stored| && from.Some? && b.stored[k].time > from.value
              && (id == "" || b.stored[k].id == id)
    {
      assert Stored(k) in Replay(b, log, from, id) <==> Stored(k) in log && Replays(b, Stored(k), from, id);
    }
  }

  lemma ReplayOfEmitted(b: Bus, log: seq<Entry>, from: Option<int>, id: string)
    ensures forall n: nat :: Emitted(n) in Replay(b, log, from, id) <==>
              && Emitted(n) in log && n < |b.emitted| && from.Some? && b.emitted[n].time > from.value
              && (id == "" || b.emitted[n].id == id)
  {
    ReplayPicks(b, log, from, id);
    forall n: nat ensures Emitted(n) in Replay(b, log, from, id) <==>
              && Emitted(n) in log && n < |b.emitted| && from.Some? && b.emitted[n].time > from.value
              && (id == "" || b.emitted[n].id == id)
    {
      assert Emitted(n) in Replay(b, log, from, id) <==> Emitted(n) in log && Replays(b, Emitted(n), from, id);
    }
  }

  ghost function Elements(s: seq<Entry>): set<Entry> {
    set e | e in s
  }

  lemma {:induction false} DistinctSize(s: seq<Entry>)
    requires Distinct(s)
    ensures |Elements(s)| == |s|
  {
    if s == [] {
      assert Elements(s) == {};
    } else {
      var last := |s| - 1;
      assert s == s[..last] + [s[last]];
      assert Elements(s) == Elements(s[..last]) + {s[last]};
      DistinctSize(s[..last]);
    }
  }

  // The entries to be replayed to a caller that asks for the events of a container since some time.
  ghost function Wanted(b: Bus, since: int, id: string): set<Entry> {
    set e | e in b.eventLog && Known(b, e) && EventOf(b, e).time > since && (id == "" || EventOf(b, e).id == id)
  }

  lemma ReplaySize(b: Bus, since: int, id: string)
    requires Distinct(b.eventLog)
    ensures |Replay(b, b.eventLog, Some(since), id)| == |Wanted(b, since, id)|
  {
    var past := Replay(b, b.eventLog, Some(since), id);
    ReplayOfDistinct(b, b.eventLog, Some(since), id);
    ReplayPicks(b, b.eventLog, Some(since), id);
    DistinctSize(past);
    assert Elements(past) == Wanted(b, since, id);
  }

  lemma {:induction false} ReplayNothing(b: Bus, log: seq<Entry>, id: string)
    ensures Replay(b, log, None, id) == []
  {
    if log != [] {
      ReplayNothing(b, log[1..], id);
    }
  }

  // Subscribing blocks, for good and under the lock, exactly when more than 2048 logged events are to be
  // replayed.
  lemma SubscribeBlocksExactly(b: Bus, s: Step)
    requires Reachable(b) && Enabled(b, s) && s.Subscribe?
    ensures Next(b, s).wedged <==> s.from.Some? && |Wanted(b, s.from.value, s.id)| > 2048
  {
    if s.from.Some? {
      ReachableInv(b);
      LogDistinct(b);
      ReplaySize(b, s.from.value, s.id);
    } else {
      ReplayNothing(b, b.eventLog, s.id);
    }
  }

  // Two events that both reach a subscriber live come in the order of their notifications, provided the
  // first notification was over before the second began.
  lemma OrderOfEvents(b: Bus, c: nat, m: nat, n: nat)
    requires Reachable(b) && c < |b.channels| && Before(b.ended, m, n)
    ensures var ch := b.channels[c];
            forall i, j :: (ch.replayed <= i < |ch.stream| && ch.replayed <= j < |ch.stream|
                            && ch.stream[i] == Emitted(m) && ch.stream[j] == Emitted(n)) ==> i < j
  {
    ReachableInv(b);
    assert ChannelOk(b, c);
  }

  lemma {:induction false} LeadsMore(b: Bus, steps: seq<Step>, b': Bus, more: seq<Step>, b'': Bus)
    requires Leads(b, steps, b') && Leads(b', more, b'')
    ensures Leads(b, steps + more, b'')
    decreases |steps|
  {
    if steps == [] {
      assert steps + more == more;
    } else {
      LeadsMore(Next(b, steps[0]), steps[1..], b', more, b'');
      assert (steps + more)[1..] == steps[1..] + more;
    }
  }

  lemma Extend(b: Bus, s: Step)
    requires Reachable(b) && Enabled(b, s)
    ensures Reachable(Next(b, s))
  {
    var steps :| Leads(Init(b.retain, b.stored), steps, b);
    assert Leads(b, [s], Next(b, s));
    LeadsMore(Init(b.retain, b.stored), steps, b, [s], Next(b, s));
  }

  // Overlapping notifications have no common order: two subscribers can see the same two events in
  // opposite orders.
  lemma SubscribersDisagree(e0: Event, e1: Event)
    ensures exists b :: Reachable(b) && |b.channels| == 3
                     && b.channels[1].stream == [Emitted(0), Emitted(1)]
                     && b.channels[2].stream == [Emitted(1), Emitted(0)]
  {
    var b := BothBegun(e0, e1);
    b := SendTwo(b, 1, 0, 1);
    b := SendTwo(b, 2, 1, 0);
  }

  // A subscriber with nothing in its channel is sent two events.
  lemma SendTwo(b: Bus, c: nat, m: nat, n: nat) returns (b': Bus)
    requires Reachable(b) && c < |b.channels| && m != n && m in b.pending && n in b.pending
    requires c in b.pending[m] && c in b.pending[n] && b.channels[c].stream == [] && b.channels[c].received == 0
    ensures Reachable(b') && |b'.channels| == |b.channels| && b'.channels[c].stream == [Emitted(m), Emitted(n)]
    ensures b'.pending == b.pending[m := b.pending[m] - {c}][n := b.pending[n] - {c}]
    ensures forall d :: 0 <= d < |b.channels| && d != c ==> b'.channels[d] == b.channels[d]
  {
    Extend(b, Send(m, c));
    b' := Next(b, Send(m, c));
    assert b'.channels[c].stream == [Emitted(m)];
    Extend(b', Send(n, c));
    b' := Next(b', Send(n, c));
  }

  lemma BothBegun(e0: Event, e1: Event) returns (b: Bus)
    ensures Reachable(b) && |b.channels| == 3 && b.pending == map[0 := {0, 1, 2}, 1 := {0, 1, 2}]
    ensures b.channels[1].stream == b.channels[2].stream == [] && b.channels[1].received == b.channels[2].received == 0
  {
    b := TwoSubscribers();
    Extend(b, Begin(e0));
    b := Next(b, Begin(e0));
    Extend(b, Begin(e1));
    b := Next(b, Begin(e1));
  }

  lemma TwoSubscribers() returns (b: Bus)
    ensures Reachable(b) && b.subscribed == {0, 1, 2} && |b.channels| == 3
    ensures b.pending == map[] && !b.wedged && b.emitted == []
    ensures b.channels[1].stream == b.channels[2].stream == [] && b.channels[1].received == b.channels[2].received == 0
  {
    var b0 := Init(0, []);
    assert Leads(b0, [], b0);
    var subscribe := Subscribe(None, false, "");
    Extend(b0, subscribe);
    var b1 := Next(b0, subscribe);
    Extend(b1, subscribe);
    b := Next(b1, subscribe);
  }

  // ---------------------------------------------------------------------------------------------
  // Main results: the retained log

  // With a retain count R the log is a contiguous suffix of all that was logged. Between two events it holds
  // at least the last R (or all) of it, between a truncation and the append that follows one less, and never
  // more than twice R unless more was read at startup. The journal is a suffix of the log.
  lemma LogBounds(b: Bus)
    requires Reachable(b) && b.retain > 0
    ensures IsSuffix(b.eventLog, Logged(b))
    ensures !b.logger.Truncated? ==> |b.eventLog| >= b.retain || b.eventLog == Logged(b)
    ensures b.logger.Truncated? ==> |b.eventLog| == b.retain - 1
    ensures |b.eventLog| <= |b.stored| || |b.eventLog| <= 2 * b.retain
    ensures IsSuffix(b.journal, b.eventLog)
    ensures b.truncatedOnce ==> b.journal == b.eventLog
    ensures Distinct(b.eventLog)
  {
    ReachableInv(b);
    LogDistinct(b);
  }

  // Without a retain count nothing is ever dropped from the log.
  lemma UnboundedLog(b: Bus)
    requires Reachable(b) && b.retain == 0
    ensures b.eventLog == Logged(b)
  {
    ReachableInv(b);
  }

  // ---------------------------------------------------------------------------------------------
  // Main results: replay under the lock

  // A blocked replay holds the lock alone.
  lemma {:induction false} WedgedAlone(b: Bus, steps: seq<Step>, b': Bus)
    requires Leads(b, steps, b') && (b.wedged ==> b.pending == map[])
    ensures b'.wedged ==> b'.pending == map[]
    decreases |steps|
  {
    if steps != [] {
      WedgedAlone(Next(b, steps[0]), steps[1..], b');
    }
  }

  // The subscriptions, the history and everything ever sent to anyone.
  ghost predicate SameTraffic(b: Bus, b': Bus) {
    && b'.emitted == b.emitted && b'.subscribed == b.subscribed && |b'.channels| == |b.channels|
    && forall c :: 0 <= c < |b.channels| ==> b'.channels[c].stream == b.channels[c].stream
  }

  lemma {:induction false} WedgedSilent(b: Bus, steps: seq<Step>, b': Bus)
    requires b.wedged && b.pending == map[] && Leads(b, steps, b')
    ensures b'.wedged && SameTraffic(b, b')
    decreases |steps|
  {
    if steps != [] {
      WedgedSilent(Next(b, steps[0]), steps[1..], b');
    }
  }

  // Once a replay has filled its queue, no subscription changes and no subscriber is sent anything any more,
  // in any continuation.
  lemma WedgedForever(b: Bus, steps: seq<Step>, b': Bus)
    requires Reachable(b) && b.wedged && Leads(b, steps, b')
    ensures b'.wedged && SameTraffic(b, b')
  {
    var before :| Leads(Init(b.retain, b.stored), before, b);
    WedgedAlone(Init(b.retain, b.stored), before, b);
    WedgedSilent(b, steps, b');
  }

  lemma SmallLogNeverWedges(b: Bus, s: Step)
    requires Inv(b) && Enabled(b, s) && !b.wedged && 0 < b.retain <= BUFFER_SIZE / 2 && |b.stored| <= BUFFER_SIZE
    ensures !Next(b, s).wedged && Next(b, s).retain == b.retain && Next(b, s).stored == b.stored
  {
    if s.Subscribe? {
      LogDistinct(b);
      ReplayOfDistinct(b, b.eventLog, s.from, s.id);
    }
  }

  lemma {:induction false} LeadsNeverWedges(b: Bus, steps: seq<Step>, b': Bus)
    requires Inv(b) && !b.wedged && 0 < b.retain <= BUFFER_SIZE / 2 && |b.stored| <= BUFFER_SIZE
    requires Leads(b, steps, b')
    ensures !b'.wedged
    decreases |steps|
  {
    if steps != [] {
      InvStep(b, steps[0]);
      SmallLogNeverWedges(b, steps[0]);
      LeadsNeverWedges(Next(b, steps[0]), steps[1..], b');
    }
  }
}
