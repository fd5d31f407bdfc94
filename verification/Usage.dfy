/**
 * Turning an agent's cumulative usage counters into per-turn deltas, over any
 * interleaving of sessions.
 */
module Usage {
  import opened Prelude

  type Session = string

  datatype Payload = Payload(input: nat, output: nat, cost: Option<real>, model: Option<string>)

  /** Where the last published turn of a session left its counters. */
  datatype Baseline = Baseline(publishedSeq: nat, input: nat, output: nat, cost: Option<real>)

  datatype TurnUsage = TurnUsage(
    session: Session,
    turnSeq: nat,
    reliable: bool,
    turnInput: Option<nat>,
    turnOutput: Option<nat>,
    turnCost: Option<real>,
    input: nat,
    output: nat,
    cost: Option<real>,
    model: Option<string>)

  datatype Tracker = Tracker(sessions: map<Session, Baseline>, inFlight: Option<Session>, pending: Option<TurnUsage>)

  const EMPTY := Tracker(map[], None, None)

  function BaselineOf(t: Tracker, s: Session): Option<Baseline> {
    if s in t.sessions then Some(t.sessions[s]) else None
  }

  /** Some counter went down since the baseline. */
  predicate Decreased(b: Baseline, p: Payload) {
    || p.input < b.input
    || p.output < b.output
    || (p.cost.Some? && b.cost.Some? && p.cost.value < b.cost.value)
  }

  function SeqOf(b: Option<Baseline>): nat {
    if b.Some? then b.value.publishedSeq else 0
  }

  /** What a turn that ends with counters `p` has used, measured from its baseline. */
  function Measured(b: Option<Baseline>, s: Session, p: Payload): TurnUsage {
    if b.None? || Decreased(b.value, p) then
      TurnUsage(s, SeqOf(b) + 1, false, None, None, None, p.input, p.output, p.cost, p.model)
    else
      var cost := if p.cost.Some? && b.value.cost.Some? then Some(p.cost.value - b.value.cost.value) else None;
      TurnUsage(s, SeqOf(b) + 1, true, Some(p.input - b.value.input), Some(p.output - b.value.output), cost,
                p.input, p.output, p.cost, p.model)
  }

  // -------------------------------------------------------------------- transitions

  function Begun(t: Tracker, s: Session): Tracker {
    t.(inFlight := Some(s), pending := None)
  }

  function Recorded(t: Tracker, s: Session, p: Payload): Tracker {
    if t.inFlight == Some(s) then t.(pending := Some(Measured(BaselineOf(t, s), s, p)))
    else if t.inFlight.None? then
      t.(sessions := t.sessions[s := Baseline(SeqOf(BaselineOf(t, s)), p.input, p.output, p.cost)])
    else t
  }

  function Drained(t: Tracker): (Tracker, Option<TurnUsage>) {
    match t.pending
    case None => (t.(inFlight := None), None)
    case Some(r) =>
      (Tracker(t.sessions[r.session := Baseline(r.turnSeq, r.input, r.output, r.cost)], None, None), Some(r))
  }

  // ------------------------------------------------------------------ a whole turn

  datatype Note = Note(session: Session, payload: Payload)

  function RecordedAll(t: Tracker, notes: seq<Note>): Tracker {
    if notes == [] then t
    else
      var last := notes[|notes| - 1];
      Recorded(RecordedAll(t, notes[..|notes| - 1]), last.session, last.payload)
  }

  /** The last counters a session reported. */
  function LastNote(notes: seq<Note>, s: Session): Option<Payload> {
    if notes == [] then None
    else if notes[|notes| - 1].session == s then Some(notes[|notes| - 1].payload)
    else LastNote(notes[..|notes| - 1], s)
  }

  /** While a turn is in flight only its session's last notification matters. */
  lemma {:induction false} OnlyTheLastMatters(t: Tracker, s: Session, notes: seq<Note>)
    requires t.inFlight == Some(s)
    ensures RecordedAll(t, notes) ==
      match LastNote(notes, s)
      case None => t
      case Some(p) => t.(pending := Some(Measured(BaselineOf(t, s), s, p)))
    decreases notes
  {
    if notes != [] {
      OnlyTheLastMatters(t, s, notes[..|notes| - 1]);
    }
  }

  /**
   * A turn of session `s`, whatever else is reported meanwhile: what is published is the
   * last report measured from the session's baseline, which then becomes the baseline.
   * Nothing else changes, and a turn without a report publishes and moves nothing.
   */
  lemma WholeTurn(t: Tracker, s: Session, notes: seq<Note>)
    ensures var (after, published) := Drained(RecordedAll(Begun(t, s), notes));
      && after.inFlight.None? && after.pending.None?
      && match LastNote(notes, s)
         case None => published.None? && after.sessions == t.sessions
         case Some(p) =>
           && published == Some(Measured(BaselineOf(t, s), s, p))
           && after.sessions == t.sessions[s := Baseline(SeqOf(BaselineOf(t, s)) + 1, p.input, p.output, p.cost)]
  {
    OnlyTheLastMatters(Begun(t, s), s, notes);
    assert BaselineOf(Begun(t, s), s) == BaselineOf(t, s);
  }

  // ---------------------------------------------------------------------- histories

  datatype Call = Begin(session: Session) | Record(session: Session, payload: Payload) | Take

  datatype Entry = Entry(call: Call, before: Tracker, after: Tracker, published: Option<TurnUsage>)

  function Enter(t: Tracker, call: Call): (e: Entry)
    ensures e.before == t && e.call == call
  {
    match call
    case Begin(s) => Entry(call, t, Begun(t, s), None)
    case Record(s, p) => Entry(call, t, Recorded(t, s, p), None)
    case Take =>
      var (after, published) := Drained(t);
      Entry(call, t, after, published)
  }

  function TrackerAt(log: seq<Entry>, n: nat): Tracker
    requires n <= |log|
  {
    if n == 0 then EMPTY else log[n - 1].after
  }

  predicate Linked(log: seq<Entry>, k: nat)
    requires k < |log|
  {
    log[k] == Enter(TrackerAt(log, k), log[k].call)
  }

  /** Any calls in any order, from a new tracker. */
  ghost predicate Follows(log: seq<Entry>) {
    forall k :: 0 <= k < |log| ==> Linked(log, k)
  }

  predicate Publishes(e: Entry, s: Session) {
    e.published.Some? && e.published.value.session == s
  }

  /** Records published for a session among the first `n` calls. */
  function Count(log: seq<Entry>, s: Session, n: nat): nat
    requires n <= |log|
  {
    if n == 0 then 0 else Count(log, s, n - 1) + if Publishes(log[n - 1], s) then 1 else 0
  }

  /** The pending record is measured from the baseline that stands now. */
  ghost predicate PendingCurrent(t: Tracker) {
    t.pending.Some? ==>
      var r := t.pending.value;
      && t.inFlight == Some(r.session)
      && r == Measured(BaselineOf(t, r.session), r.session, Payload(r.input, r.output, r.cost, r.model))
  }

  lemma {:induction false} PendingAlwaysCurrent(log: seq<Entry>, n: nat)
    requires Follows(log) && n <= |log|
    ensures PendingCurrent(TrackerAt(log, n))
  {
    if n > 0 {
      assert Linked(log, n - 1);
      PendingAlwaysCurrent(log, n - 1);
      EnterKeepsPending(TrackerAt(log, n - 1), log[n - 1].call);
    }
  }

  lemma EnterKeepsPending(t: Tracker, call: Call)
    requires PendingCurrent(t)
    ensures PendingCurrent(Enter(t, call).after)
  {
  }

  /** The last seq number of a session is the number of its published records. */
  lemma {:induction false} SeqIsCount(log: seq<Entry>, s: Session, n: nat)
    requires Follows(log) && n <= |log|
    ensures SeqOf(BaselineOf(TrackerAt(log, n), s)) == Count(log, s, n)
  {
    if n > 0 {
      assert Linked(log, n - 1);
      SeqIsCount(log, s, n - 1);
      PendingAlwaysCurrent(log, n - 1);
    }
  }

  /** The records published for a session carry 1, 2, 3, … in this order. */
  lemma TurnSeqCounts(log: seq<Entry>, s: Session, k: nat)
    requires Follows(log) && k < |log| && Publishes(log[k], s)
    ensures log[k].published.value.turnSeq == Count(log, s, k) + 1
  {
    assert Linked(log, k);
    PendingAlwaysCurrent(log, k);
    SeqIsCount(log, s, k);
  }

  predicate NoneBelow(from: Baseline, to: Baseline) {
    && from.input <= to.input
    && from.output <= to.output
    && (from.cost.Some? && to.cost.Some? ==> from.cost.value <= to.cost.value)
  }

  /**
   * A published delta is the move of the session's own baseline. It is given exactly when
   * there was a baseline and no counter fell below it; a cost exactly when, besides, both
   * ends report one.
   */
  lemma PublishedDelta(log: seq<Entry>, s: Session, k: nat)
    requires Follows(log) && k < |log| && Publishes(log[k], s)
    ensures var r := log[k].published.value;
      var before, after := BaselineOf(log[k].before, s), BaselineOf(log[k].after, s);
      && after == Some(Baseline(r.turnSeq, r.input, r.output, r.cost))
      && (r.reliable <==> before.Some? && NoneBelow(before.value, after.value))
      && (r.reliable ==>
            && r.turnInput == Some(after.value.input - before.value.input)
            && r.turnOutput == Some(after.value.output - before.value.output))
      && (!r.reliable ==> r.turnInput.None? && r.turnOutput.None?)
      && (r.turnCost.Some? <==> r.reliable && before.value.cost.Some? && after.value.cost.Some?)
      && (r.turnCost.Some? ==> r.turnCost.value == after.value.cost.value - before.value.cost.value)
  {
    assert Linked(log, k);
    PendingAlwaysCurrent(log, k);
  }

  // --------------------------------------------------------------------- telescoping

  datatype Counter = Input | Output

  function Reading(b: Baseline, c: Counter): nat {
    match c
    case Input => b.input
    case Output => b.output
  }

  function Delta(r: TurnUsage, c: Counter): nat {
    var d := match c case Input => r.turnInput case Output => r.turnOutput;
    if d.Some? then d.value else 0
  }

  /** The reliable deltas published for a session by calls `m` to `n`. */
  function Published(log: seq<Entry>, s: Session, c: Counter, m: nat, n: nat): nat
    requires m <= n <= |log|
  {
    if n == m then 0
    else
      var e := log[n - 1];
      Published(log, s, c, m, n - 1) + (if Publishes(e, s) then Delta(e.published.value, c) else 0)
  }

  /** A report outside every turn, or a published turn without a reliable delta. */
  predicate Unpublished(e: Entry, s: Session) {
    || (e.call.Record? && e.call.session == s && e.before.inFlight.None?)
    || (Publishes(e, s) && !e.published.value.reliable)
  }

  /** By how much such calls moved the session's counter. */
  function Moved(log: seq<Entry>, s: Session, c: Counter, m: nat, n: nat): int
    requires m <= n <= |log|
  {
    if n == m then 0
    else
      var e := log[n - 1];
      var before, after := BaselineOf(e.before, s), BaselineOf(e.after, s);
      Moved(log, s, c, m, n - 1) +
        if Unpublished(e, s) && before.Some? && after.Some? then Reading(after.value, c) - Reading(before.value, c) else 0
  }

  /** A baseline never disappears, and only publications and reports outside turns move it. */
  lemma BaselineMoves(log: seq<Entry>, s: Session, k: nat)
    requires Follows(log) && k < |log| && BaselineOf(log[k].before, s).Some?
    ensures BaselineOf(log[k].after, s).Some?
    ensures !Publishes(log[k], s) && !Unpublished(log[k], s) ==>
      BaselineOf(log[k].after, s) == BaselineOf(log[k].before, s)
  {
    assert Linked(log, k);
  }

  /**
   * Over any stretch of calls the session's counter moves by the deltas published in it
   * plus the moves that nothing reports: no use is counted twice or dropped, whatever
   * other sessions do and however many turns end without a record.
   */
  lemma {:induction false} UsageTelescopes(log: seq<Entry>, s: Session, c: Counter, m: nat, n: nat)
    requires Follows(log) && m <= n <= |log| && BaselineOf(TrackerAt(log, m), s).Some?
    ensures var first, last := BaselineOf(TrackerAt(log, m), s), BaselineOf(TrackerAt(log, n), s);
      last.Some? && Reading(last.value, c) - Reading(first.value, c) == Published(log, s, c, m, n) + Moved(log, s, c, m, n)
    decreases n
  {
    if m < n {
      UsageTelescopes(log, s, c, m, n - 1);
      assert Linked(log, n - 1);
      BaselineMoves(log, s, n - 1);
      if Publishes(log[n - 1], s) {
        PublishedDelta(log, s, n - 1);
      }
    }
  }

  /** What is known of the session, in its baseline and its pending record, includes a cost. */
  predicate Priced(t: Tracker, s: Session) {
    && (BaselineOf(t, s).Some? ==> BaselineOf(t, s).value.cost.Some?)
    && (t.pending.Some? && t.pending.value.session == s ==> t.pending.value.cost.Some?)
  }

  /** The session's reports from `m` to `n` all carry a cost. */
  ghost predicate AllCosted(log: seq<Entry>, s: Session, m: nat, n: nat)
    requires n <= |log|
  {
    forall k :: m <= k < n && log[k].call.Record? && log[k].call.session == s ==> log[k].call.payload.cost.Some?
  }

  function CostOf(b: Option<Baseline>): real {
    if b.Some? && b.value.cost.Some? then b.value.cost.value else 0.0
  }

  /** The costs published for a session by calls `m` to `n`. */
  function PublishedCost(log: seq<Entry>, s: Session, m: nat, n: nat): real
    requires m <= n <= |log|
  {
    if n == m then 0.0
    else
      var e := log[n - 1];
      PublishedCost(log, s, m, n - 1) +
        if Publishes(e, s) && e.published.value.turnCost.Some? then e.published.value.turnCost.value else 0.0
  }

  /** By how much the calls that publish no delta moved the session's cost. */
  function MovedCost(log: seq<Entry>, s: Session, m: nat, n: nat): real
    requires m <= n <= |log|
  {
    if n == m then 0.0
    else
      var e := log[n - 1];
      MovedCost(log, s, m, n - 1) +
        if Unpublished(e, s) then CostOf(BaselineOf(e.after, s)) - CostOf(BaselineOf(e.before, s)) else 0.0
  }

  lemma PricedStep(t: Tracker, call: Call, s: Session)
    requires Priced(t, s)
    requires call.Record? && call.session == s ==> call.payload.cost.Some?
    ensures Priced(Enter(t, call).after, s)
  {
  }

  /** While all its reports carry a cost, a session's baseline and pending record keep one. */
  lemma {:induction false} StaysPriced(log: seq<Entry>, s: Session, m: nat, n: nat)
    requires Follows(log) && m <= n <= |log| && AllCosted(log, s, m, n) && Priced(TrackerAt(log, m), s)
    ensures Priced(TrackerAt(log, n), s)
    decreases n
  {
    if m < n {
      StaysPriced(log, s, m, n - 1);
      assert Linked(log, n - 1);
      PricedStep(TrackerAt(log, n - 1), log[n - 1].call, s);
    }
  }

  /**
   * The same for the cost, over every stretch that starts with a cost known and in which
   * each report of the session carries one.
   */
  lemma {:induction false} CostTelescopes(log: seq<Entry>, s: Session, m: nat, n: nat)
    requires Follows(log) && m <= n <= |log| && BaselineOf(TrackerAt(log, m), s).Some?
    requires Priced(TrackerAt(log, m), s) && AllCosted(log, s, m, n)
    ensures var first, last := BaselineOf(TrackerAt(log, m), s), BaselineOf(TrackerAt(log, n), s);
      && last.Some? && last.value.cost.Some? && first.value.cost.Some?
      && last.value.cost.value - first.value.cost.value == PublishedCost(log, s, m, n) + MovedCost(log, s, m, n)
    decreases n
  {
    if m < n {
      CostTelescopes(log, s, m, n - 1);
      StaysPriced(log, s, m, n);
      assert Linked(log, n - 1);
      BaselineMoves(log, s, n - 1);
      if Publishes(log[n - 1], s) {
        PublishedDelta(log, s, n - 1);
      }
    }
  }

  // ------------------------------------------------------------------- the component

  class UsageTracker {
    var sessions: map<Session, Baseline>
    var inFlight: Option<Session>
    var pending: Option<TurnUsage>

    ghost function Model(): Tracker reads this { Tracker(sessions, inFlight, pending) }

    constructor ()
      ensures Model() == EMPTY
    {
      sessions, inFlight, pending := map[], None, None;
    }

    method BeginTurn(s: Session)
      modifies this
      ensures Model() == Begun(old(Model()), s)
    {
      inFlight := Some(s);
      pending := None;
    }

    method RecordUsage(s: Session, p: Payload)
      modifies this
      ensures Model() == Recorded(old(Model()), s, p)
    {
      var reliable, input, output, cost, seqNo := false, None, None, None, 1;
      if s in sessions {
        var prev := sessions[s];
        seqNo := prev.publishedSeq + 1;
        if p.input >= prev.input && p.output >= prev.output {
          var costReliable := true;
          if p.cost.Some? && prev.cost.Some? {
            if p.cost.value >= prev.cost.value {
              cost := Some(p.cost.value - prev.cost.value);
            } else {
              costReliable := false;
            }
          }
          if costReliable {
            reliable, input, output := true, Some(p.input - prev.input), Some(p.output - prev.output);
          }
        }
      }
      if inFlight == Some(s) {
        pending := Some(TurnUsage(s, seqNo, reliable, input, output, cost, p.input, p.output, p.cost, p.model));
      } else if inFlight.None? {
        var published := if s in sessions then sessions[s].publishedSeq else 0;
        sessions := sessions[s := Baseline(published, p.input, p.output, p.cost)];
      }
    }

    method TakeUsage() returns (record: Option<TurnUsage>)
      modifies this
      ensures (Model(), record) == Drained(old(Model()))
    {
      inFlight := None;
      record := pending;
      pending := None;
      if record.Some? {
        var r := record.value;
        sessions := sessions[r.session := Baseline(r.turnSeq, r.input, r.output, r.cost)];
      }
    }
  }
}
