// containerd/supervisor/supervisor.go: subscribers, notifications and the retained event log, as a
// transition system. A step is one region held under subscriberLock or eventLock, or one channel operation.
// Notifications hold the lock for reading, so several may be under way at the same time.

module EventBus {
  import opened Wrappers

  // The capacity of a subscriber channel.
  const BUFFER_SIZE: nat := 2048

  datatype Kind = StartContainer | StartProcess | Exit | OOM

  datatype Event = Event(id: string, kind: Kind, pid: string, time: int)

  // The identity of an event: the k-th event read from the journal at startup, or the n-th notification.
  datatype Entry = Stored(k: nat) | Emitted(n: nat)

  // One channel made by Events. `stream` is all that was ever put into it, the first `replayed` entries by
  // the replay; `received` of them have been taken out. `from` and `until` count the notifications begun
  // when it subscribed and, once closed, when it was closed. `dropped` are those it missed with a full queue.
  datatype Subscriber = Subscriber(stream: seq<Entry>, replayed: nat, received: nat, from: nat, until: nat,
                                   closed: bool, dropped: set<nat>)

  // The goroutine of eventLogger: waiting for an event, holding one, or holding one after truncating.
  datatype Logger = Idle | Holding(entry: Entry) | Truncated(entry: Entry)

  datatype Bus = Bus(
    retain: nat,                      // retainCount
    stored: seq<Event>,               // the events read at startup
    emitted: seq<Event>,              // the notifications begun, in the order they took the lock
    ended: map<nat, nat>,             // finished notification -> notifications begun by then
    pending: map<nat, set<nat>>,      // notification under way -> subscribers still to be offered the event
    channels: seq<Subscriber>,        // every channel made; number 0 belongs to eventLogger
    subscribed: set<nat>,             // the keys of s.subscribers
    counter: int,                     // EventSubscriberCounter
    wedged: bool,                     // a replay blocks forever on a full queue, under the write lock
    eventLog: seq<Entry>,
    journal: seq<Entry>,              // the lines of events.log
    count: nat,
    logger: Logger,
    truncatedOnce: bool)

  const LOGGER: nat := 0

  function StoredEntries(n: nat): (r: seq<Entry>)
    ensures |r| == n && forall i :: 0 <= i < n ==> r[i] == Stored(i)
  {
    seq(n, i requires 0 <= i => Stored(i))
  }

  function Init(retain: nat, stored: seq<Event>): Bus {
    Bus(retain, stored, [], map[], map[], [Subscriber([], 0, 0, 0, 0, false, {})], {LOGGER}, 1, false,
        StoredEntries(|stored|), [], |stored|, Idle, false)
  }

  predicate Known(b: Bus, e: Entry) {
    match e
    case Stored(k) => k < |b.stored|
    case Emitted(n) => n < |b.emitted|
  }

  function EventOf(b: Bus, e: Entry): Event
    requires Known(b, e)
  {
    match e
    case Stored(k) => b.stored[k]
    case Emitted(n) => b.emitted[n]
  }

  // Whether the replay sends an entry; a subscription without a start time replays nothing.
  predicate Replays(b: Bus, e: Entry, from: Option<int>, id: string) {
    && from.Some? && Known(b, e)
    && EventOf(b, e).time > from.value
    && (id == "" || EventOf(b, e).id == id)
  }

  function Replay(b: Bus, log: seq<Entry>, from: Option<int>, id: string): seq<Entry> {
    if log == [] then []
    else (if Replays(b, log[0], from, id) then [log[0]] else []) + Replay(b, log[1..], from, id)
  }

  function Queue(c: Subscriber): seq<Entry> {
    if c.received <= |c.stream| then c.stream[c.received..] else []
  }

  datatype Step =
    | Subscribe(from: Option<int>, storedOnly: bool, id: string)
    | Unsubscribe(c: nat)
    | Begin(e: Event)
    | Send(n: nat, c: nat)
    | End(n: nat)
    | Receive(c: nat)
    | LogReceive
    | LogTruncate
    | LogAppend

  function Truncates(b: Bus): bool {
    b.retain > 0 && b.count > b.retain
  }

  predicate Enabled(b: Bus, s: Step) {
    match s
    case Subscribe(_, _, _) => !b.wedged && b.pending == map[]
    case Unsubscribe(c) => !b.wedged && b.pending == map[] && c < |b.channels| && c != LOGGER
    case Begin(_) => !b.wedged
    case Send(n, c) => n in b.pending && c in b.pending[n] && c < |b.channels|
    case End(n) => n in b.pending && b.pending[n] == {}
    case Receive(c) => c != LOGGER && c < |b.channels| && Queue(b.channels[c]) != []
    case LogReceive => b.logger == Idle && LOGGER < |b.channels| && Queue(b.channels[LOGGER]) != []
    case LogTruncate => b.logger.Holding? && Truncates(b)
    case LogAppend => (b.logger.Holding? && !Truncates(b)) || b.logger.Truncated?
  }

  function Last(log: seq<Entry>, n: nat): seq<Entry> {
    if n >= |log| then log else log[|log| - n..]
  }

  function Taken(c: Subscriber): Subscriber {
    c.(received := c.received + 1)
  }

  function Offer(c: Subscriber, n: nat): Subscriber {
    if |Queue(c)| < BUFFER_SIZE then c.(stream := c.stream + [Emitted(n)]) else c.(dropped := c.dropped + {n})
  }

  function Next(b: Bus, s: Step): Bus
    requires Enabled(b, s)
  {
    match s
    case Subscribe(from, storedOnly, id) =>
      var past := Replay(b, b.eventLog, from, id);
      if |past| > BUFFER_SIZE then
        b.(wedged := true)
      else
        var c := Subscriber(past, |past|, 0, |b.emitted|, |b.emitted|, storedOnly, {});
        if storedOnly then
          b.(channels := b.channels + [c])
        else
          b.(channels := b.channels + [c], subscribed := b.subscribed + {|b.channels|}, counter := b.counter + 1)
    case Unsubscribe(c) =>
      if c in b.subscribed then
        b.(channels := b.channels[c := b.channels[c].(closed := true, until := |b.emitted|)],
           subscribed := b.subscribed - {c}, counter := b.counter - 1)
      else b
    case Begin(e) =>
      b.(emitted := b.emitted + [e], pending := b.pending[|b.emitted| := b.subscribed])
    case Send(n, c) =>
      b.(pending := b.pending[n := b.pending[n] - {c}], channels := b.channels[c := Offer(b.channels[c], n)])
    case End(n) =>
      b.(pending := b.pending - {n}, ended := b.ended[n := |b.emitted|])
    case Receive(c) =>
      b.(channels := b.channels[c := Taken(b.channels[c])])
    case LogReceive =>
      b.(logger := Holding(Queue(b.channels[LOGGER])[0]), channels := b.channels[LOGGER := Taken(b.channels[LOGGER])])
    case LogTruncate =>
      var kept := Last(b.eventLog, b.retain - 1);
      b.(eventLog := kept, journal := kept, count := 0, logger := Truncated(b.logger.entry), truncatedOnce := true)
    case LogAppend =>
      b.(eventLog := b.eventLog + [b.logger.entry], journal := b.journal + [b.logger.entry],
         count := b.count + 1, logger := Idle)
  }

  // Running the given steps from b ends in b'.
  ghost predicate Leads(b: Bus, steps: seq<Step>, b': Bus)
    decreases |steps|
  {
    if steps == [] then b == b'
    else Enabled(b, steps[0]) && Leads(Next(b, steps[0]), steps[1..], b')
  }

  ghost predicate Reachable(b: Bus) {
    exists steps :: Leads(Init(b.retain, b.stored), steps, b)
  }

  // ---------------------------------------------------------------------------------------------
  // Subscriptions: locks and channels

  ghost predicate Locked(b: Bus) {
    && b.counter == |b.subscribed|
    && 0 < |b.channels|
    && (forall c :: c in b.subscribed ==> c < |b.channels|)
    && (forall c :: 0 <= c < |b.channels| ==> (b.channels[c].closed <==> c !in b.subscribed))
    && (forall n :: n in b.pending ==> b.pending[n] <= b.subscribed)
  }

  ghost predicate Timed(b: Bus) {
    && (forall n :: n in b.ended ==> n < b.ended[n] <= |b.emitted|)
    && (forall n :: n in b.pending ==> n !in b.ended)
    && (forall n :: 0 <= n < |b.emitted| <==> n in b.pending || n in b.ended)
  }

  // ---------------------------------------------------------------------------------------------
  // Streams

  // Notifications this channel was subscribed for are the ones from `from` up to here.
  function EndOf(b: Bus, c: nat): nat
    requires c < |b.channels|
  {
    if b.channels[c].closed then b.channels[c].until else |b.emitted|
  }

  // The notifications under way that have yet to offer their event to this channel.
  ghost function Awaiting(b: Bus, c: nat): set<nat> {
    set n | n in b.pending && c in b.pending[n]
  }

  // Replayed entries are older than the subscription, live entries are notifications begun during it, and
  // nothing comes twice.
  ghost predicate Shape(ch: Subscriber, end: nat) {
    && ch.replayed <= |ch.stream| && ch.received <= |ch.stream| && ch.from <= end
    && (forall i :: 0 <= i < ch.replayed ==> ch.stream[i].Stored? || ch.stream[i].n < ch.from)
    && (forall i :: ch.replayed <= i < |ch.stream| ==> ch.stream[i].Emitted? && ch.from <= ch.stream[i].n < end)
    && (forall i, j :: 0 <= i < j < |ch.stream| ==> ch.stream[i] != ch.stream[j])
  }

  // Each notification begun during the subscription is in the stream, was dropped, or is still to be
  // offered, and only one of these.
  ghost predicate Complete(ch: Subscriber, end: nat, awaiting: set<nat>) {
    && (forall n :: ch.from <= n < end ==> Emitted(n) in ch.stream || n in ch.dropped || n in awaiting)
    && (forall n :: n in awaiting ==> ch.from <= n < end && Emitted(n) !in ch.stream && n !in ch.dropped)
    && (forall n :: n in ch.dropped ==> ch.from <= n < end && Emitted(n) !in ch.stream)
  }

  // Notification a was over before notification n began.
  ghost predicate Before(ended: map<nat, nat>, a: nat, n: nat) {
    a in ended && ended[a] <= n
  }

  // Live entries respect the order of notifications that did not overlap.
  ghost predicate Ordered(ch: Subscriber, ended: map<nat, nat>) {
    forall i, j :: ch.replayed <= i < j < |ch.stream| && ch.stream[i].Emitted? && ch.stream[j].Emitted? ==>
      !Before(ended, ch.stream[j].n, ch.stream[i].n)
  }

  ghost predicate ChannelOk(b: Bus, c: nat)
    requires c < |b.channels|
  {
    var ch := b.channels[c];
    && EndOf(b, c) <= |b.emitted|
    && Shape(ch, EndOf(b, c)) && Complete(ch, EndOf(b, c), Awaiting(b, c)) && Ordered(ch, b.ended)
  }

  ghost predicate Streams(b: Bus) {
    forall c :: 0 <= c < |b.channels| ==> ChannelOk(b, c)
  }

  // ---------------------------------------------------------------------------------------------
  // The event log

  // What eventLogger has taken off its channel and finished logging, after the events read at startup.
  function Logged(b: Bus): seq<Entry> {
    if b.channels == [] then StoredEntries(|b.stored|) else
    var ch := b.channels[LOGGER];
    var done := if b.logger == Idle then ch.received else ch.received - 1;
    StoredEntries(|b.stored|) + if 0 <= done <= |ch.stream| then ch.stream[..done] else []
  }

  predicate IsSuffix(a: seq<Entry>, s: seq<Entry>) {
    |a| <= |s| && a == s[|s| - |a|..]
  }

  ghost predicate LogSource(b: Bus) {
    && 0 < |b.channels|
    && var ch := b.channels[LOGGER];
       && ch.replayed == 0 && ch.received <= |ch.stream|
       && (b.logger != Idle ==> 0 < ch.received && b.logger.entry == ch.stream[ch.received - 1])
  }

  // Before the first truncation the log is everything; after it the log is a suffix, whose length follows
  // from the counter, and the journal file is the log.
  ghost predicate LogShape(b: Bus, logged: seq<Entry>) {
    && |b.stored| <= |logged|
    && if !b.truncatedOnce then
         && b.eventLog == logged && b.count == |logged| && !b.logger.Truncated?
         && b.journal == logged[|b.stored|..]
         && (b.retain > 0 ==> |logged| <= |b.stored| || |logged| <= b.retain + 1)
       else
         && b.retain > 0 && b.journal == b.eventLog && IsSuffix(b.eventLog, logged)
         && |b.eventLog| == b.retain - 1 + b.count && b.count <= b.retain + 1
         && (b.logger.Truncated? <==> b.count == 0)
  }

  ghost predicate LogState(b: Bus) {
    LogSource(b) && LogShape(b, Logged(b))
  }

  ghost predicate Inv(b: Bus) {
    Locked(b) && Timed(b) && Streams(b) && LogState(b)
  }
}
