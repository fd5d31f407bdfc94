/**
 * The in-process observer bus: every event is numbered, kept in a bounded replay buffer
 * and broadcast. The relay publisher subscribes first and takes a snapshot afterwards,
 * so that it meets every event in the snapshot, in the live feed or in both.
 */
module ObserverBus {
  import opened Prelude
  import opened StreamMerge
  import opened Coalescer
  import opened ChunkOrder

  /** Events kept for replay. */
  const BUFFER_CAP := 1_000

  /** Slots of the broadcast channel: the capacity asked for, rounded up to a power of two. */
  const CHANNEL_SLOTS := 1_024

  // --------------------------------------------------------------- the bus, as values

  /** `log` is all that was ever sent on the channel, oldest first. */
  datatype Bus = Bus(nextSeq: nat, buffer: seq<Event>, log: seq<Event>)

  const EMPTY := Bus(1, [], [])

  function Stamped(e: Event, n: nat): Event {
    e.(envelope := e.envelope.(seqNo := n))
  }

  function Broadcast(bus: Bus, e: Event): Bus {
    var stamped := Stamped(e, bus.nextSeq);
    var kept := if |bus.buffer| >= BUFFER_CAP then bus.buffer[1..] else bus.buffer;
    Bus(bus.nextSeq + 1, kept + [stamped], bus.log + [stamped])
  }

  ghost predicate Numbered(log: seq<Event>) {
    forall i :: 0 <= i < |log| ==> log[i].envelope.seqNo == i + 1
  }

  ghost predicate BusOk(bus: Bus) {
    bus.nextSeq == |bus.log| + 1 && Numbered(bus.log) && bus.buffer == LastOf(bus.log, BUFFER_CAP)
  }

  lemma EmitOk(bus: Bus, e: Event)
    requires BusOk(bus)
    ensures BusOk(Broadcast(bus, e))
  {
    var after := Broadcast(bus, e);
    assert after.log[..|bus.log|] == bus.log;
    assert after.buffer == LastOf(after.log, BUFFER_CAP);
  }

  // ----------------------------------------------------------------- the live channel

  datatype Delivery = Idle | Received(event: Event) | Lagged(count: nat)

  /** What a receiver at `cursor` gets next, and where that leaves it. */
  function Receive(log: seq<Event>, cursor: nat): (r: (Delivery, nat))
    requires cursor <= |log|
    ensures cursor <= r.1 <= |log|
  {
    if cursor == |log| then (Idle, cursor)
    else if cursor + CHANNEL_SLOTS < |log| then
      (Lagged(|log| - CHANNEL_SLOTS - cursor), |log| - CHANNEL_SLOTS)
    else (Received(log[cursor]), cursor + 1)
  }

  // -------------------------------------------------------------------- the publisher

  /** `feeds` is what the coalescer was given; `skipped` the events a lagging receiver never saw. */
  datatype Reader =
    | Absent
    | Subscribed(cursor: nat)
    | Reading(cursor: nat, top: nat, feeds: seq<Feed>, skipped: seq<Event>)

  function TopSeq(events: seq<Event>): (top: nat)
    ensures forall i :: 0 <= i < |events| ==> events[i].envelope.seqNo <= top
    ensures events == [] ==> top == 0
    ensures events != [] ==> exists i :: 0 <= i < |events| && events[i].envelope.seqNo == top
  {
    if events == [] then 0
    else
      var rest := TopSeq(events[..|events| - 1]);
      var last := events[|events| - 1].envelope.seqNo;
      if last >= rest then last else rest
  }

  function FeedsOf(events: seq<Event>): (feeds: seq<Feed>)
    ensures |feeds| == |events|
    ensures forall i :: 0 <= i < |feeds| ==> feeds[i] == Feed.Event(events[i])
  {
    seq(|events|, i requires 0 <= i < |events| => Feed.Event(events[i]))
  }

  /** What the publisher hands to its coalescer for a delivery. */
  function Handed(top: nat, d: Delivery): seq<Feed> {
    match d
    case Idle => []
    case Lagged(_) => [Tick]
    case Received(e) => if e.envelope.seqNo <= top then [] else [Feed.Event(e)]
  }

  datatype World = World(bus: Bus, reader: Reader)

  datatype Step = Emitting(event: Event) | Subscribing | Snapshotting | Receiving | Ticking

  ghost predicate CursorOk(w: World) {
    w.reader.Absent? || w.reader.cursor <= |w.bus.log|
  }

  function Next(w: World, step: Step): World
    requires CursorOk(w)
  {
    match step
    case Emitting(e) => w.(bus := Broadcast(w.bus, e))
    case Subscribing => if w.reader.Absent? then w.(reader := Subscribed(|w.bus.log|)) else w
    case Snapshotting =>
      if w.reader.Subscribed? then
        w.(reader := Reading(w.reader.cursor, TopSeq(w.bus.buffer), FeedsOf(w.bus.buffer), []))
      else w
    case Receiving =>
      if w.reader.Reading? then
        var (d, cursor) := Receive(w.bus.log, w.reader.cursor);
        var skipped := if d.Lagged? then w.reader.skipped + w.bus.log[w.reader.cursor..cursor] else w.reader.skipped;
        w.(reader := Reading(cursor, w.reader.top, w.reader.feeds + Handed(w.reader.top, d), skipped))
      else w
    case Ticking =>
      if w.reader.Reading? then w.(reader := w.reader.(feeds := w.reader.feeds + [Tick])) else w
  }

  ghost function Run(steps: seq<Step>): (w: World)
    ensures CursorOk(w)
  {
    if steps == [] then World(EMPTY, Absent) else Next(Run(steps[..|steps| - 1]), steps[|steps| - 1])
  }

  // ----------------------------------------------------------------------- invariants

  /** The first event of the snapshot, as an index into the log. */
  function First(top: nat): nat {
    if top <= BUFFER_CAP then 0 else top - BUFFER_CAP
  }

  function Reach(r: Reader): nat
    requires r.Reading?
  {
    Max(r.cursor, r.top)
  }

  /** The ingested events are events of the log from `from` up to `to`, each once and in order. */
  ghost predicate Ascending(events: seq<Event>, log: seq<Event>, from: nat, to: nat) {
    && to <= |log|
    && (forall i :: 0 <= i < |events| ==>
          from < events[i].envelope.seqNo <= to && events[i] == log[events[i].envelope.seqNo - 1])
    && (forall i, j :: 0 <= i < j < |events| ==> events[i].envelope.seqNo < events[j].envelope.seqNo)
  }

  ghost predicate Genuine(events: seq<Event>, log: seq<Event>, to: nat) {
    to <= |log| && forall i :: 0 <= i < |events| ==>
      1 <= events[i].envelope.seqNo <= to && events[i] == log[events[i].envelope.seqNo - 1]
  }

  /** The receiver never skipped an event that the snapshot did not already contain. */
  ghost predicate OnlySkippedKnown(skipped: seq<Event>, top: nat) {
    forall i :: 0 <= i < |skipped| ==> skipped[i].envelope.seqNo <= top
  }

  /** Every event of the range was ingested or skipped. */
  ghost predicate Covered(events: seq<Event>, skipped: seq<Event>, log: seq<Event>, from: nat, to: nat) {
    to <= |log| && forall i :: from <= i < to ==> log[i] in events || log[i] in skipped
  }

  /** Nothing skipped beyond the snapshot was ingested as well. */
  ghost predicate Apart(events: seq<Event>, skipped: seq<Event>, top: nat) {
    forall i, j :: 0 <= i < |skipped| && 0 <= j < |events| && skipped[i].envelope.seqNo > top ==>
      events[j] != skipped[i]
  }

  ghost predicate ReaderOk(r: Reader, log: seq<Event>) {
    match r
    case Absent => true
    case Subscribed(cursor) => cursor <= |log|
    case Reading(cursor, top, feeds, skipped) =>
      cursor <= |log| && top <= |log| && FeedOk(EventsOf(feeds), skipped, log, cursor, top)
  }

  ghost predicate FeedOk(events: seq<Event>, skipped: seq<Event>, log: seq<Event>, cursor: nat, top: nat)
    requires cursor <= |log| && top <= |log|
  {
    && Ascending(events, log, First(top), Max(cursor, top))
    && Genuine(skipped, log, cursor)
    && Covered(events, skipped, log, First(top), Max(cursor, top))
    && Apart(events, skipped, top)
    && (OnlySkippedKnown(skipped, top) ==> events == log[First(top)..Max(cursor, top)])
  }

  lemma {:induction false} EventsOfConcat(a: seq<Feed>, b: seq<Feed>)
    ensures EventsOf(a + b) == EventsOf(a) + EventsOf(b)
    decreases b
  {
    if b == [] {
      assert a + b == a;
    } else {
      var n := |b| - 1;
      assert (a + b)[..|a| + n] == a + b[..n] && (a + b)[|a| + n] == b[n];
      EventsOfConcat(a, b[..n]);
    }
  }

  lemma {:induction false} EventsOfFeeds(events: seq<Event>)
    ensures EventsOf(FeedsOf(events)) == events
    decreases events
  {
    if events != [] {
      var n := |events| - 1;
      EventsOfFeeds(events[..n]);
      assert FeedsOf(events)[..n] == FeedsOf(events[..n]);
    }
  }

  lemma TopOfBuffer(bus: Bus)
    requires BusOk(bus)
    ensures TopSeq(bus.buffer) == |bus.log|
    ensures bus.buffer == bus.log[First(|bus.log|)..]
  {
    if bus.log != [] {
      assert bus.buffer[|bus.buffer| - 1] == bus.log[|bus.log| - 1];
    }
  }

  /** The feed right after a snapshot of the log from `First` on. */
  lemma SnapshotFeed(log: seq<Event>, cursor: nat)
    requires Numbered(log) && cursor <= |log|
    ensures FeedOk(log[First(|log|)..], [], log, cursor, |log|)
  {
    var from := First(|log|);
    SnapshotAscending(log, from);
    SnapshotCovered(log, from);
    assert log[from..|log|] == log[from..];
  }

  lemma {:induction false} SnapshotAscending(log: seq<Event>, from: nat)
    requires Numbered(log) && from <= |log|
    ensures Ascending(log[from..], log, from, |log|)
  {
    var events := log[from..];
    assert forall i :: 0 <= i < |events| ==> events[i] == log[from + i] && events[i].envelope.seqNo == from + i + 1;
  }

  lemma SnapshotCovered(log: seq<Event>, from: nat)
    requires from <= |log|
    ensures Covered(log[from..], [], log, from, |log|)
  {
    forall i | from <= i < |log| ensures log[i] in log[from..] {
      assert log[from..][i - from] == log[i];
    }
  }

  lemma SnapshotOk(w: World)
    requires BusOk(w.bus) && ReaderOk(w.reader, w.bus.log) && CursorOk(w) && w.reader.Subscribed?
    ensures ReaderOk(Next(w, Snapshotting).reader, w.bus.log)
  {
    TopOfBuffer(w.bus);
    var r := Reading(w.reader.cursor, |w.bus.log|, FeedsOf(w.bus.buffer), []);
    assert Next(w, Snapshotting).reader == r;
    SnapshotReader(w.bus.log, w.reader.cursor, w.bus.buffer);
  }

  lemma SnapshotReader(log: seq<Event>, cursor: nat, buffer: seq<Event>)
    requires Numbered(log) && cursor <= |log| && buffer == log[First(|log|)..]
    ensures ReaderOk(Reading(cursor, |log|, FeedsOf(buffer), []), log)
  {
    EventsOfFeeds(buffer);
    SnapshotFeed(log, cursor);
  }

  lemma GrowOk(r: Reader, log: seq<Event>, e: Event)
    requires ReaderOk(r, log)
    ensures ReaderOk(r, log + [e])
  {
    if r.Reading? {
      assert (log + [e])[First(r.top)..Reach(r)] == log[First(r.top)..Reach(r)];
    }
  }

  /** A live event that the snapshot already had is passed over. */
  lemma KnownFeed(events: seq<Event>, skipped: seq<Event>, log: seq<Event>, cursor: nat, top: nat)
    requires cursor < top <= |log| && FeedOk(events, skipped, log, cursor, top)
    ensures FeedOk(events, skipped, log, cursor + 1, top)
  {
  }

  lemma CoveredSnoc(events: seq<Event>, skipped: seq<Event>, log: seq<Event>, from: nat, to: nat)
    requires to < |log| && Covered(events, skipped, log, from, to)
    ensures Covered(events + [log[to]], skipped, log, from, to + 1)
  {
    var longer := events + [log[to]];
    assert longer[|events|] == log[to];
    assert forall x :: x in events ==> x in longer;
  }

  lemma AscendingSnoc(events: seq<Event>, log: seq<Event>, from: nat, to: nat)
    requires Numbered(log) && from <= to < |log| && Ascending(events, log, from, to)
    ensures Ascending(events + [log[to]], log, from, to + 1)
  {
  }

  lemma ApartSnoc(events: seq<Event>, skipped: seq<Event>, log: seq<Event>, top: nat, e: Event, cursor: nat)
    requires Apart(events, skipped, top) && Genuine(skipped, log, cursor) && e.envelope.seqNo > cursor
    ensures Apart(events + [e], skipped, top)
  {
  }

  /** A live event beyond the snapshot is ingested next. */
  lemma {:induction false} FreshFeed(events: seq<Event>, skipped: seq<Event>, log: seq<Event>, cursor: nat, top: nat)
    requires Numbered(log) && top <= cursor < |log| && FeedOk(events, skipped, log, cursor, top)
    ensures FeedOk(events + [log[cursor]], skipped, log, cursor + 1, top)
  {
    AscendingSnoc(events, log, First(top), cursor);
    CoveredSnoc(events, skipped, log, First(top), cursor);
    ApartSnoc(events, skipped, log, top, log[cursor], cursor);
    assert log[First(top)..cursor + 1] == log[First(top)..cursor] + [log[cursor]];
  }

  lemma GenuineJump(skipped: seq<Event>, log: seq<Event>, cursor: nat, to: nat)
    requires Numbered(log) && cursor < to <= |log| && Genuine(skipped, log, cursor)
    ensures Genuine(skipped + log[cursor..to], log, to)
  {
    var jump := log[cursor..to];
    assert forall i :: 0 <= i < |jump| ==> jump[i] == log[cursor + i];
  }

  lemma CoveredJump(events: seq<Event>, skipped: seq<Event>, log: seq<Event>, from: nat, cursor: nat, top: nat, to: nat)
    requires cursor < to <= |log| && top <= |log|
    requires Covered(events, skipped, log, from, Max(cursor, top))
    ensures Covered(events, skipped + log[cursor..to], log, from, Max(to, top))
  {
    var jump := log[cursor..to];
    forall i | from <= i < Max(to, top) ensures log[i] in events || log[i] in skipped + jump {
      if i >= Max(cursor, top) {
        assert jump[i - cursor] == log[i];
      }
    }
  }

  lemma ApartJump(events: seq<Event>, skipped: seq<Event>, log: seq<Event>, from: nat, cursor: nat, top: nat, to: nat)
    requires Numbered(log) && cursor < to <= |log| && top <= |log|
    requires Ascending(events, log, from, Max(cursor, top)) && Apart(events, skipped, top)
    ensures Apart(events, skipped + log[cursor..to], top)
  {
    var jump := log[cursor..to];
    assert forall i :: 0 <= i < |jump| ==> jump[i] == log[cursor + i];
  }

  /** A receiver that lags jumps ahead. */
  lemma {:induction false} LagFeed(events: seq<Event>, skipped: seq<Event>, log: seq<Event>, cursor: nat, top: nat, to: nat)
    requires Numbered(log) && cursor < to <= |log| && top <= |log| && FeedOk(events, skipped, log, cursor, top)
    ensures FeedOk(events, skipped + log[cursor..to], log, to, top)
  {
    GenuineJump(skipped, log, cursor, to);
    CoveredJump(events, skipped, log, First(top), cursor, top, to);
    ApartJump(events, skipped, log, First(top), cursor, top, to);
    if OnlySkippedKnown(skipped + log[cursor..to], top) {
      KnownJump(skipped, log, cursor, top, to);
    }
  }

  lemma KnownJump(skipped: seq<Event>, log: seq<Event>, cursor: nat, top: nat, to: nat)
    requires Numbered(log) && cursor < to <= |log| && OnlySkippedKnown(skipped + log[cursor..to], top)
    ensures OnlySkippedKnown(skipped, top) && to <= top
  {
    var all := skipped + log[cursor..to];
    assert forall i :: 0 <= i < |skipped| ==> skipped[i] == all[i];
    assert all[|all| - 1] == log[to - 1];
  }

  lemma TickOk(r: Reader, log: seq<Event>)
    requires ReaderOk(r, log) && r.Reading?
    ensures ReaderOk(r.(feeds := r.feeds + [Tick]), log)
  {
    EventsOfConcat(r.feeds, [Tick]);
    assert EventsOf([Tick]) == [] by { assert EventsOf([]) == []; }
    assert EventsOf(r.feeds) + [] == EventsOf(r.feeds);
  }

  /** What the publisher is handed for a delivery, as events. */
  lemma HandedEvents(feeds: seq<Feed>, top: nat, d: Delivery)
    ensures EventsOf(feeds + Handed(top, d)) ==
      if d.Received? && d.event.envelope.seqNo > top then EventsOf(feeds) + [d.event] else EventsOf(feeds)
  {
    var handed := Handed(top, d);
    EventsOfConcat(feeds, handed);
    assert EventsOf([]) == [];
    if handed != [] {
      assert handed[..0] == [];
    }
    assert EventsOf(feeds) + [] == EventsOf(feeds);
  }

  /** The reader after a delivery, in terms of the events its feeds hold. */
  lemma ReceiveIs(w: World)
    requires CursorOk(w) && w.reader.Reading?
    ensures var r, log := w.reader, w.bus.log;
      var (d, to) := Receive(log, r.cursor);
      var after := Next(w, Receiving).reader;
      && after.Reading? && after.cursor == to && after.top == r.top
      && after.skipped == (if d.Lagged? then r.skipped + log[r.cursor..to] else r.skipped)
      && EventsOf(after.feeds) ==
           (if d.Received? && d.event.envelope.seqNo > r.top then EventsOf(r.feeds) + [d.event] else EventsOf(r.feeds))
  {
    HandedEvents(w.reader.feeds, w.reader.top, Receive(w.bus.log, w.reader.cursor).0);
  }

  lemma ReaderIs(r: Reader, log: seq<Event>, events: seq<Event>, skipped: seq<Event>, cursor: nat, top: nat)
    requires r.Reading? && r.cursor == cursor && r.top == top && r.skipped == skipped && EventsOf(r.feeds) == events
    requires cursor <= |log| && top <= |log| && FeedOk(events, skipped, log, cursor, top)
    ensures ReaderOk(r, log)
  {
  }

  predicate CanReceive(w: World) {
    w.reader.Reading? && w.reader.cursor <= |w.bus.log|
  }

  lemma IdleOk(w: World)
    requires CanReceive(w) && ReaderOk(w.reader, w.bus.log) && Receive(w.bus.log, w.reader.cursor).0.Idle?
    ensures ReaderOk(Next(w, Receiving).reader, w.bus.log)
  {
    var r := w.reader;
    ReceiveIs(w);
    ReaderIs(Next(w, Receiving).reader, w.bus.log, EventsOf(r.feeds), r.skipped, r.cursor, r.top);
  }

  lemma LaggedOk(w: World)
    requires CanReceive(w) && Numbered(w.bus.log) && ReaderOk(w.reader, w.bus.log)
    requires Receive(w.bus.log, w.reader.cursor).0.Lagged?
    ensures ReaderOk(Next(w, Receiving).reader, w.bus.log)
  {
    var r, log := w.reader, w.bus.log;
    var to := Receive(log, r.cursor).1;
    ReceiveIs(w);
    LagFeed(EventsOf(r.feeds), r.skipped, log, r.cursor, r.top, to);
    ReaderIs(Next(w, Receiving).reader, log, EventsOf(r.feeds), r.skipped + log[r.cursor..to], to, r.top);
  }

  lemma EventOk(w: World)
    requires CanReceive(w) && Numbered(w.bus.log) && ReaderOk(w.reader, w.bus.log)
    requires Receive(w.bus.log, w.reader.cursor).0.Received?
    ensures ReaderOk(Next(w, Receiving).reader, w.bus.log)
  {
    var r, log := w.reader, w.bus.log;
    var events, after := EventsOf(r.feeds), Next(w, Receiving).reader;
    ReceiveIs(w);
    assert log[r.cursor].envelope.seqNo == r.cursor + 1;
    if r.cursor < r.top {
      KnownFeed(events, r.skipped, log, r.cursor, r.top);
      ReaderIs(after, log, events, r.skipped, r.cursor + 1, r.top);
    } else {
      FreshFeed(events, r.skipped, log, r.cursor, r.top);
      ReaderIs(after, log, events + [log[r.cursor]], r.skipped, r.cursor + 1, r.top);
    }
  }

  lemma {:induction false} ReceiveOk(w: World)
    requires BusOk(w.bus) && ReaderOk(w.reader, w.bus.log) && CursorOk(w) && w.reader.Reading?
    ensures ReaderOk(Next(w, Receiving).reader, w.bus.log)
  {
    match Receive(w.bus.log, w.reader.cursor).0
    case Idle => IdleOk(w);
    case Lagged(_) => LaggedOk(w);
    case Received(_) => EventOk(w);
  }

  lemma {:induction false} NextOk(w: World, step: Step)
    requires BusOk(w.bus) && ReaderOk(w.reader, w.bus.log) && CursorOk(w)
    ensures var after := Next(w, step); BusOk(after.bus) && ReaderOk(after.reader, after.bus.log)
  {
    match step
    case Emitting(e) =>
      EmitOk(w.bus, e);
      GrowOk(w.reader, w.bus.log, Stamped(e, w.bus.nextSeq));
    case Subscribing =>
    case Snapshotting => if w.reader.Subscribed? { SnapshotOk(w); }
    case Receiving => if w.reader.Reading? { ReceiveOk(w); }
    case Ticking => if w.reader.Reading? { TickOk(w.reader, w.bus.log); }
  }

  lemma {:induction false} RunOk(steps: seq<Step>)
    ensures var w := Run(steps); BusOk(w.bus) && ReaderOk(w.reader, w.bus.log)
    decreases steps
  {
    if steps != [] {
      RunOk(steps[..|steps| - 1]);
      NextOk(Run(steps[..|steps| - 1]), steps[|steps| - 1]);
    }
  }

  // ------------------------------------------------------------------------- theorems

  /** The replay buffer is always the newest thousand events, numbered from one without a gap. */
  lemma {:induction false} ReplayBuffer(steps: seq<Step>)
    ensures var bus := Run(steps).bus;
      bus.buffer == LastOf(bus.log, 1_000) && Numbered(bus.log) && bus.nextSeq == |bus.log| + 1
  {
    RunOk(steps);
  }

  /** Whatever the interleaving, events are ingested in strictly rising order and never twice. */
  lemma IngestedInOrder(steps: seq<Step>)
    requires Run(steps).reader.Reading?
    ensures var w := Run(steps);
      Ascending(EventsOf(w.reader.feeds), w.bus.log, First(w.reader.top), Reach(w.reader))
  {
    RunOk(steps);
  }

  /**
   * The events ingested are all those from the oldest in the snapshot to the newest
   * received exactly when every event a lagging receiver skipped was in the snapshot.
   */
  lemma GapFreeIff(steps: seq<Step>)
    requires Run(steps).reader.Reading?
    ensures var w := Run(steps);
      var r := w.reader;
      && Reach(r) <= |w.bus.log|
      && First(r.top) <= r.top
      && (EventsOf(r.feeds) == w.bus.log[First(r.top)..Reach(r)] <==> OnlySkippedKnown(r.skipped, r.top))
  {
    RunOk(steps);
    var w := Run(steps);
    var r := w.reader;
    FeedGapFreeIff(EventsOf(r.feeds), r.skipped, w.bus.log, r.cursor, r.top);
  }

  lemma FeedGapFreeIff(events: seq<Event>, skipped: seq<Event>, log: seq<Event>, cursor: nat, top: nat)
    requires cursor <= |log| && top <= |log| && FeedOk(events, skipped, log, cursor, top)
    ensures events == log[First(top)..Max(cursor, top)] <==> OnlySkippedKnown(skipped, top)
  {
    if !OnlySkippedKnown(skipped, top) {
      var i :| 0 <= i < |skipped| && skipped[i].envelope.seqNo > top;
      var at := skipped[i].envelope.seqNo - 1;
      assert log[First(top)..Max(cursor, top)][at - First(top)] == skipped[i];
      assert skipped[i] !in events;
    }
  }

  /** An event missing from the feed was reported as skipped. */
  lemma NothingLostSilently(steps: seq<Step>, i: nat)
    requires var w := Run(steps); w.reader.Reading? && First(w.reader.top) <= i < Reach(w.reader)
    ensures var w := Run(steps);
      && i < |w.bus.log|
      && (w.bus.log[i] in EventsOf(w.reader.feeds) || w.bus.log[i] in w.reader.skipped)
  {
    RunOk(steps);
  }

  /** The receiver is more than a channel's worth of events behind when it asks for the next. */
  ghost predicate LagsAt(steps: seq<Step>, k: nat)
    requires k < |steps|
  {
    var w := Run(steps[..k]);
    steps[k].Receiving? && w.reader.Reading? && w.reader.cursor + CHANNEL_SLOTS < |w.bus.log|
  }

  /** Nothing is skipped as long as the receiver is never more than a channel's worth behind. */
  lemma {:induction false} SkipsOnlyWhenLagging(steps: seq<Step>)
    requires Run(steps).reader.Reading?
    ensures Run(steps).reader.skipped == [] <==> forall k :: 0 <= k < |steps| ==> !LagsAt(steps, k)
    decreases steps
  {
    var n := |steps| - 1;
    var before := Run(steps[..n]);
    if before.reader.Reading? {
      SkipsOnlyWhenLagging(steps[..n]);
    } else {
      NotReadingBefore(steps[..n]);
    }
    assert forall k :: 0 <= k < n ==> steps[..n][..k] == steps[..k];
    assert forall k :: 0 <= k < n ==> LagsAt(steps[..n], k) == LagsAt(steps, k);
    assert LagsAt(steps, n) <==>
      steps[n].Receiving? && before.reader.Reading? && before.reader.cursor + CHANNEL_SLOTS < |before.bus.log|;
  }

  lemma {:induction false} NotReadingBefore(steps: seq<Step>)
    requires !Run(steps).reader.Reading?
    ensures forall k :: 0 <= k < |steps| ==> !LagsAt(steps, k)
    decreases steps
  {
    if steps != [] {
      var n := |steps| - 1;
      NotReadingBefore(steps[..n]);
      assert forall k :: 0 <= k < n ==> steps[..n][..k] == steps[..k];
      assert forall k :: 0 <= k < n ==> LagsAt(steps[..n], k) == LagsAt(steps, k);
    }
  }

  // --------------------------------------------------------- what was emitted

  /** The events given to the bus, in order. */
  function EmittedBy(steps: seq<Step>): seq<Event> {
    if steps == [] then []
    else
      var n := |steps| - 1;
      EmittedBy(steps[..n]) + (if steps[n].Emitting? then [steps[n].event] else [])
  }

  /** The same event in everything but its number. */
  predicate SameButNumber(a: Event, b: Event) {
    && a.payload == b.payload
    && a.envelope.timestamp == b.envelope.timestamp && a.envelope.kind == b.envelope.kind
    && a.envelope.agentIndex == b.envelope.agentIndex && a.envelope.channelId == b.envelope.channelId
    && a.envelope.sessionId == b.envelope.sessionId && a.envelope.turnId == b.envelope.turnId
    && a.envelope.startedAt == b.envelope.startedAt
  }

  ghost predicate Records(log: seq<Event>, events: seq<Event>) {
    |log| == |events| && forall i :: 0 <= i < |log| ==> SameButNumber(log[i], events[i]) && log[i].envelope.seqNo == i + 1
  }

  lemma StepLog(w: World, step: Step)
    requires CursorOk(w) && BusOk(w.bus)
    ensures var log := Next(w, step).bus.log;
      if step.Emitting?
      then |log| == |w.bus.log| + 1 && log[..|w.bus.log|] == w.bus.log
        && SameButNumber(log[|w.bus.log|], step.event) && log[|w.bus.log|].envelope.seqNo == |w.bus.log| + 1
      else log == w.bus.log
  {
  }

  /** The log is what was emitted: every event once, in order, numbered from one and otherwise as it was given. */
  lemma {:induction false} LogIsEmitted(steps: seq<Step>)
    ensures Records(Run(steps).bus.log, EmittedBy(steps))
    decreases steps
  {
    if steps != [] {
      var n := |steps| - 1;
      LogIsEmitted(steps[..n]);
      RunOk(steps[..n]);
      StepLog(Run(steps[..n]), steps[n]);
      RecordsNext(Run(steps[..n]).bus.log, EmittedBy(steps[..n]), Run(steps).bus.log, steps[n]);
    }
  }

  lemma RecordsNext(log: seq<Event>, events: seq<Event>, after: seq<Event>, step: Step)
    requires Records(log, events)
    requires if step.Emitting?
      then |after| == |log| + 1 && after[..|log|] == log
        && SameButNumber(after[|log|], step.event) && after[|log|].envelope.seqNo == |log| + 1
      else after == log
    ensures Records(after, events + (if step.Emitting? then [step.event] else []))
  {
    assert forall i :: 0 <= i < |log| && step.Emitting? ==> after[i] == after[..|log|][i];
  }

  lemma SameChunk(a: Event, b: Event)
    requires SameButNumber(a, b)
    ensures ChunkOf(a) == ChunkOf(b)
  {
    assert UpdateOf(a.payload) == UpdateOf(b.payload);
  }

  lemma RecordsRead(log: seq<Event>, events: seq<Event>, from: nat, to: nat)
    requires Records(log, events) && from <= to <= |log|
    ensures Read(log[from..to]) == Read(events[from..to])
  {
    forall i | 0 <= i < to - from ensures Read(log[from..to])[i] == Read(events[from..to])[i] {
      SameChunk(log[from + i], events[from + i]);
    }
  }

  /**
   * End to end: while the receiver keeps up, the text published for a stream followed by
   * the text still pending is the stream's text in everything given to the bus from the
   * oldest replayed event on.
   */
  lemma {:induction false} PublishedText(steps: seq<Step>, key: Key)
    requires Run(steps).reader.Reading?
    requires forall k :: 0 <= k < |steps| ==> !LagsAt(steps, k)
    ensures var r := Run(steps).reader;
      var h := History(r.feeds);
      && First(r.top) <= r.top && Reach(r) <= |EmittedBy(steps)|
      && TextOf(Read(h.out), key) + PendingText(Chunks(h.pending), key)
           == TextOf(Read(EmittedBy(steps)[First(r.top)..Reach(r)]), key)
  {
    SkipsOnlyWhenLagging(steps);
    GapFreeIff(steps);
    LogIsEmitted(steps);
    var w := Run(steps);
    RecordsRead(w.bus.log, EmittedBy(steps), First(w.reader.top), Reach(w.reader));
    StreamTextConserved(w.reader.feeds, key);
  }

  /**
   * A lag skips just the events the channel no longer holds: the receiver goes on with the
   * oldest of the newest 1,024, and is told how many it missed.
   */
  lemma {:induction false} LagSkipsOldest(steps: seq<Step>, k: nat)
    requires k < |steps| && LagsAt(steps, k)
    ensures Run(steps[..k + 1]).reader.Reading?
    ensures var before, after := Run(steps[..k]), Run(steps[..k + 1]);
      var log, from, to := before.bus.log, before.reader.cursor, |before.bus.log| - 1_024;
      && from < to && after.bus == before.bus && after.reader.cursor == to
      && after.reader.skipped == before.reader.skipped + log[from..to]
      && Receive(log, from) == (Lagged(|log[from..to]|), to)
  {
    var w := Run(steps[..k]);
    assert steps[..k + 1][..k] == steps[..k] && steps[..k + 1][k] == steps[k];
  }

  /** A lagging receiver and a tick flush the coalescer: no chunk waits across a gap. */
  lemma {:induction false} FlushedByLagOrTick(steps: seq<Step>, k: nat)
    requires k < |steps| && (LagsAt(steps, k) || (steps[k].Ticking? && Run(steps[..k]).reader.Reading?))
    ensures Run(steps[..k + 1]).reader.Reading?
    ensures History(Run(steps[..k + 1]).reader.feeds).pending == []
  {
    var w := Run(steps[..k]);
    assert steps[..k + 1][..k] == steps[..k] && steps[..k + 1][k] == steps[k];
    assert Run(steps[..k + 1]).reader.feeds == w.reader.feeds + [Tick];
    HistorySnoc(w.reader.feeds, Tick);
  }

  /**
   * Whatever the interleaving, published numbers rise if and only if at no emission there
   * are two streams, both begun since the last one, of which the first to begin had its
   * latest event after the other's.
   */
  lemma {:induction false} PublishedNumbersRiseIff(steps: seq<Step>)
    requires Run(steps).reader.Reading?
    ensures var feeds := Run(steps).reader.feeds;
      Rising(History(feeds).out) <==> forall k :: 0 <= k < |feeds| ==> !EmitsCrossed(feeds, k)
  {
    IngestedInOrder(steps);
    NumbersRiseUnlessCrossed(Run(steps).reader.feeds);
  }

  // ------------------------------------------------------------------ the components

  /** The broadcast channel; every message is kept so that receivers can be described by a position. */
  class Sender {
    var log: seq<Event>

    constructor ()
      ensures log == []
    {
      log := [];
    }

    method Send(event: Event)
      modifies this
      ensures log == old(log) + [event]
    {
      log := log + [event];
    }
  }

  class Receiver {
    const tx: Sender
    var cursor: nat

    constructor (tx: Sender)
      ensures this.tx == tx && cursor == |tx.log|
    {
      this.tx, cursor := tx, |tx.log|;
    }

    method Recv() returns (d: Delivery)
      requires cursor <= |tx.log|
      modifies this
      ensures (d, cursor) == Receive(tx.log, old(cursor))
    {
      if cursor == |tx.log| {
        return Idle;
      }
      if cursor + CHANNEL_SLOTS < |tx.log| {
        d := Lagged(|tx.log| - CHANNEL_SLOTS - cursor);
        cursor := |tx.log| - CHANNEL_SLOTS;
        return;
      }
      d := Received(tx.log[cursor]);
      cursor := cursor + 1;
    }
  }

  class ObserverHandle {
    const tx: Sender
    var buffer: seq<Event>
    var nextSeq: nat

    ghost function Model(): Bus reads this, tx { Bus(nextSeq, buffer, tx.log) }

    constructor ()
      ensures fresh(tx) && Model() == EMPTY && BusOk(Model())
    {
      tx := new Sender();
      buffer, nextSeq := [], 1;
    }

    method Emit(event: Event)
      requires BusOk(Model())
      modifies this, tx
      ensures Model() == Broadcast(old(Model()), event) && BusOk(Model())
    {
      EmitOk(Model(), event);
      var stamped := Stamped(event, nextSeq);
      nextSeq := nextSeq + 1;
      if |buffer| >= BUFFER_CAP {
        buffer := buffer[1..];
      }
      buffer := buffer + [stamped];
      tx.Send(stamped);
    }

    method Subscribe() returns (rx: Receiver)
      ensures fresh(rx) && rx.tx == tx && rx.cursor == |tx.log|
    {
      rx := new Receiver(tx);
    }

    method Snapshot() returns (events: seq<Event>)
      requires BusOk(Model())
      ensures events == LastOf(tx.log, BUFFER_CAP)
    {
      events := buffer;
    }
  }

  /** The publisher task: what it published is what its coalescer made of what it was handed. */
  class Publisher {
    const coalescer: ObserverChunkCoalescer
    var top: nat
    var published: seq<Event>
    ghost var feeds: seq<Feed>

    ghost predicate Valid() reads this, coalescer {
      coalescer.Valid() && State(coalescer.pending, published) == History(feeds)
    }

    constructor (snapshot: seq<Event>)
      ensures Valid() && fresh(coalescer)
      ensures top == TopSeq(snapshot) && feeds == FeedsOf(snapshot)
    {
      coalescer := new ObserverChunkCoalescer();
      published, feeds := [], [];
      top := 0;
      new;
      top := Highest(snapshot);
      var i := 0;
      while i < |snapshot|
        invariant 0 <= i <= |snapshot|
        invariant Valid() && feeds == FeedsOf(snapshot)[..i]
        invariant top == TopSeq(snapshot)
        invariant fresh(coalescer)
      {
        Ingest(snapshot[i]);
        assert FeedsOf(snapshot)[..i + 1] == FeedsOf(snapshot)[..i] + [Feed.Event(snapshot[i])];
        i := i + 1;
      }
    }

    static method Highest(events: seq<Event>) returns (m: nat)
      ensures m == TopSeq(events)
    {
      m := 0;
      var i := 0;
      while i < |events|
        invariant 0 <= i <= |events|
        invariant m == TopSeq(events[..i])
      {
        assert events[..i + 1][..i] == events[..i];
        if events[i].envelope.seqNo >= m {
          m := events[i].envelope.seqNo;
        }
        i := i + 1;
      }
      assert events[..i] == events;
    }

    method Ingest(event: Event)
      requires Valid()
      modifies this, coalescer
      ensures Valid() && top == old(top)
      ensures feeds == old(feeds) + [Feed.Event(event)]
    {
      HistorySnoc(feeds, Feed.Event(event));
      var events := coalescer.Ingest(event);
      published := published + events;
      feeds := feeds + [Feed.Event(event)];
    }

    method Flush()
      requires Valid()
      modifies this, coalescer
      ensures Valid() && top == old(top)
      ensures feeds == old(feeds) + [Tick]
    {
      HistorySnoc(feeds, Tick);
      var events := coalescer.Flush();
      published := published + events;
      feeds := feeds + [Tick];
    }

    method OnDelivery(d: Delivery)
      requires Valid()
      modifies this, coalescer
      ensures Valid() && top == old(top)
      ensures feeds == old(feeds) + Handed(top, d)
    {
      match d
      case Idle =>
      case Lagged(_) => Flush();
      case Received(event) =>
        if event.envelope.seqNo <= top {
          return;
        }
        Ingest(event);
    }
  }
}
