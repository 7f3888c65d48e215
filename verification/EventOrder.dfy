// Exactly when a subscriber is bound to see two events in the order of their notifications.

module EventOrder {
  import opened Wrappers
  import opened EventBus
  import opened EventBusProofs

  ghost predicate LiveAt(ch: Subscriber, i: int, n: nat) {
    ch.replayed <= i < |ch.stream| && ch.stream[i] == Emitted(n)
  }

  ghost predicate Live(ch: Subscriber, n: nat) {
    exists i :: LiveAt(ch, i, n)
  }

  // If the channel has both live, m comes first.
  ghost predicate InOrder(ch: Subscriber, m: nat, n: nat) {
    forall i, j :: LiveAt(ch, i, m) && LiveAt(ch, j, n) ==> i < j
  }

  // The channel can still be sent m after n.
  ghost predicate CanOvertake(b: Bus, c: nat, m: nat, n: nat)
    requires c < |b.channels|
  {
    m in Awaiting(b, c) && (n in Awaiting(b, c) || Live(b.channels[c], n))
  }

  ghost predicate Bound(b: Bus, c: nat, m: nat, n: nat)
    requires c < |b.channels|
  {
    InOrder(b.channels[c], m, n) && !CanOvertake(b, c, m, n)
  }

  // In every continuation the channel has m before n.
  ghost predicate AlwaysInOrder(b: Bus, c: nat, m: nat, n: nat) {
    forall steps, b' :: Leads(b, steps, b') && c < |b'.channels| ==> InOrder(b'.channels[c], m, n)
  }

  // ---------------------------------------------------------------------------------------------
  // Bound channels keep the order

  // Only a send touches what was put into a channel.
  lemma StreamStep(b: Bus, s: Step, c: nat)
    requires Enabled(b, s) && c < |b.channels|
    ensures c < |Next(b, s).channels|
    ensures var ch, ch' := b.channels[c], Next(b, s).channels[c];
      ch'.replayed == ch.replayed
      && ch'.stream == if s.Send? && s.c == c then Offer(ch, s.n).stream else ch.stream
  {
  }

  lemma OfferLive(ch: Subscriber, k: nat, n: nat)
    requires ch.replayed <= |ch.stream|
    ensures forall i :: LiveAt(ch, i, n) ==> LiveAt(Offer(ch, k), i, n)
    ensures forall i :: LiveAt(Offer(ch, k), i, n) ==> LiveAt(ch, i, n) || (i == |ch.stream| && n == k)
  {
  }

  lemma NotLive(ch: Subscriber, n: nat)
    requires !Live(ch, n)
    ensures forall j :: !LiveAt(ch, j, n)
  {
  }

  lemma BoundSend(b: Bus, k: nat, c: nat, m: nat, n: nat)
    requires Inv(b) && c < |b.channels| && m != n && Bound(b, c, m, n) && Enabled(b, Send(k, c))
    ensures Bound(Next(b, Send(k, c)), c, m, n)
  {
    assert ChannelOk(b, c);
    AwaitingStep(b, Send(k, c), c);
    assert k in Awaiting(b, c);
    OfferLive(b.channels[c], k, m);
    OfferLive(b.channels[c], k, n);
    if k == m {
      NotLive(b.channels[c], n);
    }
  }

  lemma BoundStep(b: Bus, s: Step, c: nat, m: nat, n: nat)
    requires Inv(b) && c < |b.channels| && m < |b.emitted| && n < |b.emitted| && m != n
    requires Bound(b, c, m, n) && Enabled(b, s)
    ensures c < |Next(b, s).channels| && |b.emitted| <= |Next(b, s).emitted| && Bound(Next(b, s), c, m, n)
  {
    StreamStep(b, s, c);
    AwaitingStep(b, s, c);
    if s.Send? && s.c == c {
      BoundSend(b, s.n, c, m, n);
    } else {
      SameLive(b.channels[c], Next(b, s).channels[c], m, n);
    }
  }

  lemma SameLive(ch: Subscriber, ch': Subscriber, m: nat, n: nat)
    requires ch'.stream == ch.stream && ch'.replayed == ch.replayed
    ensures Live(ch', n) == Live(ch, n) && InOrder(ch', m, n) == InOrder(ch, m, n)
  {
    assert forall i, k: nat :: LiveAt(ch', i, k) == LiveAt(ch, i, k);
  }

  lemma {:induction false} BoundStays(b: Bus, steps: seq<Step>, b': Bus, c: nat, m: nat, n: nat)
    requires Inv(b) && Leads(b, steps, b') && c < |b.channels| && m < |b.emitted| && n < |b.emitted| && m != n
    requires Bound(b, c, m, n)
    ensures c < |b'.channels| && Bound(b', c, m, n)
    decreases |steps|
  {
    if steps != [] {
      BoundStep(b, steps[0], c, m, n);
      InvStep(b, steps[0]);
      BoundStays(Next(b, steps[0]), steps[1..], b', c, m, n);
    }
  }

  // ---------------------------------------------------------------------------------------------
  // Others can be overtaken

  // Nothing was sent, offered or begun in between.
  ghost predicate SameSends(b: Bus, b': Bus) {
    && b'.pending == b.pending && |b'.channels| == |b.channels|
    && forall c :: 0 <= c < |b.channels| ==>
         b'.channels[c].stream == b.channels[c].stream && b'.channels[c].replayed == b.channels[c].replayed
  }

  lemma Then(b: Bus, steps: seq<Step>, b': Bus, s: Step)
    requires Leads(b, steps, b') && Enabled(b', s)
    ensures Leads(b, steps + [s], Next(b', s))
  {
    assert Leads(b', [s], Next(b', s));
    LeadsMore(b, steps, b', [s], Next(b', s));
  }

  // The event logger finishes its round.
  lemma FinishRound(b: Bus) returns (steps: seq<Step>, b': Bus)
    ensures Leads(b, steps, b') && b'.logger == Idle && b'.channels == b.channels && b'.pending == b.pending
  {
    steps, b' := [], b;
    if b'.logger.Holding? && Truncates(b') {
      Then(b, steps, b', LogTruncate);
      steps, b' := steps + [LogTruncate], Next(b', LogTruncate);
    }
    if b'.logger != Idle {
      Then(b, steps, b', LogAppend);
      steps, b' := steps + [LogAppend], Next(b', LogAppend);
    }
  }

  lemma TakeOne(b: Bus, c: nat) returns (steps: seq<Step>, b': Bus)
    requires c < |b.channels| && Queue(b.channels[c]) != []
    ensures Leads(b, steps, b') && SameSends(b, b') && |Queue(b'.channels[c])| < |Queue(b.channels[c])|
  {
    if c == LOGGER {
      steps, b' := FinishRound(b);
      Then(b, steps, b', LogReceive);
      steps, b' := steps + [LogReceive], Next(b', LogReceive);
    } else {
      assert Leads(b, [], b);
      Then(b, [], b, Receive(c));
      steps, b' := [] + [Receive(c)], Next(b, Receive(c));
    }
  }

  // A queue can always be emptied before the next send.
  lemma {:induction false} MakeRoom(b: Bus, c: nat) returns (steps: seq<Step>, b': Bus)
    requires c < |b.channels|
    ensures Leads(b, steps, b') && SameSends(b, b') && |Queue(b'.channels[c])| < BUFFER_SIZE
    decreases |Queue(b.channels[c])|
  {
    if |Queue(b.channels[c])| < BUFFER_SIZE {
      steps, b' := [], b;
    } else {
      var first, b1 := TakeOne(b, c);
      var rest;
      rest, b' := MakeRoom(b1, c);
      LeadsMore(b, first, b1, rest, b');
      steps := first + rest;
    }
  }

  // An awaited event can be delivered next.
  lemma Deliver(b: Bus, c: nat, k: nat) returns (steps: seq<Step>, b': Bus)
    requires Inv(b) && c < |b.channels| && k in Awaiting(b, c)
    ensures Leads(b, steps, b') && c < |b'.channels| && Awaiting(b', c) == Awaiting(b, c) - {k}
    ensures b'.channels[c].replayed == b.channels[c].replayed
    ensures b'.channels[c].stream == b.channels[c].stream + [Emitted(k)]
  {
    var b1;
    steps, b1 := MakeRoom(b, c);
    assert Awaiting(b1, c) == Awaiting(b, c);
    Then(b, steps, b1, Send(k, c));
    AwaitingStep(b1, Send(k, c), c);
    steps, b' := steps + [Send(k, c)], Next(b1, Send(k, c));
  }

  lemma Overtaken(b: Bus, c: nat, m: nat, n: nat) returns (steps: seq<Step>, b': Bus)
    requires Inv(b) && c < |b.channels| && m != n && CanOvertake(b, c, m, n)
    ensures Leads(b, steps, b') && c < |b'.channels| && !InOrder(b'.channels[c], m, n)
  {
    assert ChannelOk(b, c);
    steps, b' := [], b;
    var i: int;
    if n in Awaiting(b, c) {
      steps, b' := Deliver(b, c, n);
      i := |b.channels[c].stream|;
    } else {
      i :| LiveAt(b.channels[c], i, n);
    }
    assert LiveAt(b'.channels[c], i, n);
    EventBusProofs.LeadsInv(b, steps, b');
    var more, b'' := Deliver(b', c, m);
    LeadsMore(b, steps, b', more, b'');
    assert LiveAt(b''.channels[c], i, n) && LiveAt(b''.channels[c], |b'.channels[c].stream|, m);
    steps, b' := steps + more, b'';
  }

  // ---------------------------------------------------------------------------------------------
  // Main results

  // Once both notifications have begun, a channel has m before n in every continuation exactly when it has them
  // so now and cannot still be sent m after n. A full queue protects nothing: it can be emptied first.
  lemma OrderKeptExactly(b: Bus, c: nat, m: nat, n: nat)
    requires Reachable(b) && c < |b.channels| && m < |b.emitted| && n < |b.emitted| && m != n
    ensures AlwaysInOrder(b, c, m, n) <==> InOrder(b.channels[c], m, n) && !CanOvertake(b, c, m, n)
  {
    ReachableInv(b);
    if Bound(b, c, m, n) {
      forall steps, b' | Leads(b, steps, b') && c < |b'.channels| ensures InOrder(b'.channels[c], m, n) {
        BoundStays(b, steps, b', c, m, n);
      }
    } else if CanOvertake(b, c, m, n) {
      var steps, b' := Overtaken(b, c, m, n);
    } else {
      assert Leads(b, [], b);
    }
  }

  // At the moment a notification begins: a channel that is subscribed is bound to have an earlier event before
  // it exactly when that one need no longer be offered to the channel.
  lemma OrderFromBegin(b: Bus, e: Event, c: nat, m: nat)
    requires Reachable(b) && Enabled(b, Begin(e)) && c in b.subscribed && m < |b.emitted|
    ensures AlwaysInOrder(Next(b, Begin(e)), c, m, |b.emitted|) <==> m !in Awaiting(b, c)
  {
    var n, b' := |b.emitted|, Next(b, Begin(e));
    ReachableInv(b);
    assert ChannelOk(b, c);
    Extend(b, Begin(e));
    AwaitingStep(b, Begin(e), c);
    OrderKeptExactly(b', c, m, n);
    assert forall j :: !LiveAt(b'.channels[c], j, n);
  }

  // The live part of the channel follows the history, as far as it has begun.
  ghost predicate Follows(ch: Subscriber, begun: nat) {
    forall m: nat, n: nat :: m < n < begun ==> InOrder(ch, m, n)
  }

  ghost predicate AlwaysFollows(b: Bus, c: nat, begun: nat) {
    forall steps, b' :: Leads(b, steps, b') && c < |b'.channels| ==> Follows(b'.channels[c], begun)
  }

  lemma FollowsByPairs(b: Bus, c: nat, begun: nat)
    ensures AlwaysFollows(b, c, begun) <==> forall m: nat, n: nat :: m < n < begun ==> AlwaysInOrder(b, c, m, n)
  {
    if AlwaysFollows(b, c, begun) {
      forall m: nat, n: nat | m < n < begun ensures AlwaysInOrder(b, c, m, n) {
        forall steps, b' | Leads(b, steps, b') && c < |b'.channels| ensures InOrder(b'.channels[c], m, n) {
          assert Follows(b'.channels[c], begun);
        }
      }
    }
    if forall m: nat, n: nat :: m < n < begun ==> AlwaysInOrder(b, c, m, n) {
      forall steps, b' | Leads(b, steps, b') && c < |b'.channels| ensures Follows(b'.channels[c], begun) {
        forall m: nat, n: nat | m < n < begun ensures InOrder(b'.channels[c], m, n) {
          assert AlwaysInOrder(b, c, m, n);
        }
      }
    }
  }

  // It does so in every continuation exactly when it does so now and no two of these events can still be sent
  // in the wrong order.
  lemma HistoryKeptExactly(b: Bus, c: nat)
    requires Reachable(b) && c < |b.channels|
    ensures AlwaysFollows(b, c, |b.emitted|)
       <==> Follows(b.channels[c], |b.emitted|)
            && forall m: nat, n: nat :: m < n < |b.emitted| ==> !CanOvertake(b, c, m, n)
  {
    FollowsByPairs(b, c, |b.emitted|);
    forall m: nat, n: nat | m < n < |b.emitted|
      ensures AlwaysInOrder(b, c, m, n) <==> InOrder(b.channels[c], m, n) && !CanOvertake(b, c, m, n)
    {
      OrderKeptExactly(b, c, m, n);
    }
  }

  // Events whose notifications did not overlap are always seen in order.
  lemma NoOverlapInOrder(b: Bus, c: nat, m: nat, n: nat)
    requires Reachable(b) && c < |b.channels| && n < |b.emitted| && Before(b.ended, m, n)
    ensures AlwaysInOrder(b, c, m, n)
  {
    ReachableInv(b);
    OrderOfEvents(b, c, m, n);
    assert m !in Awaiting(b, c);
    OrderKeptExactly(b, c, m, n);
  }

  // When notifications have not overlapped, every live stream follows the history and will go on to.
  lemma SerialHistory(b: Bus, c: nat)
    requires Reachable(b) && c < |b.channels|
    requires forall m, n :: 0 <= m < n < |b.emitted| ==> Before(b.ended, m, n)
    ensures AlwaysFollows(b, c, |b.emitted|)
  {
    forall m: nat, n: nat | m < n < |b.emitted| ensures AlwaysInOrder(b, c, m, n) {
      NoOverlapInOrder(b, c, m, n);
    }
    FollowsByPairs(b, c, |b.emitted|);
  }
}
