// Exactly which retain counts let a replay block the supervisor: Events sends the replay into a queue of
// 2048 while it holds the subscriber lock, and nobody can drain that queue before Events returns.

module EventBusBlocking {
  import opened Wrappers
  import opened EventBus
  import opened EventBusProofs

  const TICK := Event("", OOM, "", 1)

  // Only eventLogger is subscribed and it has caught up; every logged event carries the time 1.
  ghost predicate CaughtUp(b: Bus) {
    && Reachable(b) && !b.wedged && b.stored == []
    && |b.channels| == 1 && b.subscribed == {LOGGER} && b.pending == map[]
    && b.logger == Idle && Queue(b.channels[LOGGER]) == [] && b.channels[LOGGER].received <= |b.channels[LOGGER].stream|
    && (forall e :: e in b.eventLog ==> e.Emitted? && e.n < |b.emitted|)
    && (forall i :: 0 <= i < |b.emitted| ==> b.emitted[i] == TICK)
  }

  lemma Notified(b: Bus) returns (b': Bus)
    requires CaughtUp(b)
    ensures Reachable(b') && !b'.wedged && b'.logger == Idle
    ensures b' == b.(emitted := b.emitted + [TICK], ended := b'.ended, channels := b'.channels)
    ensures |b'.channels| == 1 && Queue(b'.channels[LOGGER]) == [Emitted(|b.emitted|)]
    ensures b'.channels[LOGGER].received <= |b'.channels[LOGGER].stream|
  {
    var n := |b.emitted|;
    Extend(b, Begin(TICK));
    var b1 := Next(b, Begin(TICK));
    assert b1.pending[n] == {LOGGER};
    Extend(b1, Send(n, LOGGER));
    var b2 := Next(b1, Send(n, LOGGER));
    assert b2.pending[n] == {};
    Extend(b2, End(n));
    b' := Next(b2, End(n));
    assert b'.pending == map[];
  }

  // One event travels from its notification into the log.
  lemma LogOne(b: Bus) returns (b': Bus)
    requires CaughtUp(b)
    ensures CaughtUp(b') && b'.retain == b.retain
    ensures if Truncates(b) then b'.count == 1 && |b'.eventLog| == |Last(b.eventLog, b.retain - 1)| + 1
            else b'.count == b.count + 1 && |b'.eventLog| == |b.eventLog| + 1
  {
    var n := |b.emitted|;
    var b1 := Notified(b);
    Extend(b1, LogReceive);
    var b2 := Next(b1, LogReceive);
    assert b2.logger == Holding(Emitted(n)) && Queue(b2.channels[LOGGER]) == [];
    if Truncates(b) {
      Extend(b2, LogTruncate);
      b2 := Next(b2, LogTruncate);
    }
    Extend(b2, LogAppend);
    b' := Next(b2, LogAppend);
    forall e | e in b'.eventLog ensures e.Emitted? && e.n < |b'.emitted| {
      if e != Emitted(n) {
        assert e in b2.eventLog;
        assert e in b.eventLog;
      }
    }
  }

  lemma LogMany(b: Bus, k: nat) returns (b': Bus)
    requires CaughtUp(b) && (b.retain == 0 || b.count + k <= b.retain + 1)
    ensures CaughtUp(b') && b'.retain == b.retain
    ensures b'.count == b.count + k && |b'.eventLog| == |b.eventLog| + k
  {
    b' := b;
    for i := 0 to k
      invariant CaughtUp(b') && b'.retain == b.retain
      invariant b'.count == b.count + i && |b'.eventLog| == |b.eventLog| + i
    {
      b' := LogOne(b');
    }
  }

  // With no retain count, or one above 1024, the log of a fresh daemon can outgrow the queue.
  lemma LongLog(retain: nat) returns (b: Bus)
    requires retain == 0 || retain > BUFFER_SIZE / 2
    ensures CaughtUp(b) && b.retain == retain && |b.eventLog| > BUFFER_SIZE
  {
    b := Init(retain, []);
    assert Leads(b, [], b);
    if retain == 0 {
      b := LogMany(b, BUFFER_SIZE + 1);
    } else {
      b := LogMany(b, retain + 1);
      b := LogOne(b);
      b := LogMany(b, retain);
    }
  }

  lemma {:induction false} ReplayEverything(b: Bus, log: seq<Entry>)
    requires forall e :: e in log ==> e.Emitted? && e.n < |b.emitted|
    requires forall i :: 0 <= i < |b.emitted| ==> b.emitted[i] == TICK
    ensures Replay(b, log, Some(0), "") == log
  {
    if log != [] {
      assert log[0] in log;
      ReplayEverything(b, log[1..]);
      assert log == [log[0]] + log[1..];
    }
  }

  lemma CanWedge(retain: nat)
    requires retain == 0 || retain > BUFFER_SIZE / 2
    ensures exists b :: Reachable(b) && b.retain == retain && b.stored == [] && b.wedged
  {
    var b := LongLog(retain);
    var s := Subscribe(Some(0), false, "");
    ReplayEverything(b, b.eventLog);
    Extend(b, s);
    assert Next(b, s).wedged;
  }

  // Main result: when the journal read at startup fits the queue, replay can never block exactly when the
  // retain count is between 1 and 1024.
  lemma NeverWedgesExactly(retain: nat)
    ensures (forall b :: Reachable(b) && b.retain == retain && |b.stored| <= 2048 ==> !b.wedged)
       <==> 0 < retain <= 1024
  {
    if 0 < retain <= BUFFER_SIZE / 2 {
      forall b | Reachable(b) && b.retain == retain && |b.stored| <= BUFFER_SIZE ensures !b.wedged {
        var steps :| Leads(Init(b.retain, b.stored), steps, b);
        InitInv(b.retain, b.stored);
        LeadsNeverWedges(Init(b.retain, b.stored), steps, b);
      }
    } else {
      CanWedge(retain);
    }
  }
}
