/** What the usage tracker knows and publishes, told by the calls alone. */
module UsageReports {
  import opened Prelude
  import opened Usage

  /** The session whose turn is in flight after the first `n` calls. */
  function InTurn(log: seq<Entry>, n: nat): Option<Session>
    requires n <= |log|
  {
    if n == 0 then None
    else
      match log[n - 1].call
      case Begin(s) => Some(s)
      case Take => None
      case Record(_, _) => InTurn(log, n - 1)
  }

  /** The last report that session has made in its turn so far. */
  function Reported(log: seq<Entry>, n: nat): Option<Payload>
    requires n <= |log|
  {
    if n == 0 then None
    else
      match log[n - 1].call
      case Record(s, p) => if InTurn(log, n - 1) == Some(s) then Some(p) else Reported(log, n - 1)
      case _ => None
  }

  /** The latest report of a session that was made outside every turn, or was the last one of a turn of its own that was taken. */
  function Settled(log: seq<Entry>, s: Session, n: nat): Option<Payload>
    requires n <= |log|
  {
    if n == 0 then None
    else
      match log[n - 1].call
      case Record(r, p) => if r == s && InTurn(log, n - 1).None? then Some(p) else Settled(log, s, n - 1)
      case Take =>
        if InTurn(log, n - 1) == Some(s) && Reported(log, n - 1).Some? then Reported(log, n - 1)
        else Settled(log, s, n - 1)
      case Begin(_) => Settled(log, s, n - 1)
  }

  /** The baseline holds the counters of the report. */
  predicate Holds(b: Option<Baseline>, p: Option<Payload>) {
    if p.None? then b.None?
    else b.Some? && b.value.input == p.value.input && b.value.output == p.value.output && b.value.cost == p.value.cost
  }

  /** What is pending was measured from the last report of the turn in flight. */
  predicate Pends(t: Tracker, session: Option<Session>, report: Option<Payload>) {
    && t.inFlight == session
    && t.pending == (if session.Some? && report.Some?
                     then Some(Measured(BaselineOf(t, session.value), session.value, report.value)) else None)
  }

  lemma EntryPends(log: seq<Entry>, n: nat)
    requires 0 < n <= |log| && Linked(log, n - 1) && Pends(TrackerAt(log, n - 1), InTurn(log, n - 1), Reported(log, n - 1))
    ensures Pends(TrackerAt(log, n), InTurn(log, n), Reported(log, n))
  {
  }

  lemma {:induction false} AlwaysPends(log: seq<Entry>, n: nat)
    requires Follows(log) && n <= |log|
    ensures Pends(TrackerAt(log, n), InTurn(log, n), Reported(log, n))
  {
    if n > 0 {
      AlwaysPends(log, n - 1);
      assert Linked(log, n - 1);
      EntryPends(log, n);
    }
  }

  /**
   * In every history a session's baseline holds the counters of its latest report that was
   * made outside every turn, or that was the last one of a turn of its own that was taken;
   * there is no baseline as long as there is no such report.
   */
  lemma {:induction false} BaselineIsReport(log: seq<Entry>, s: Session, n: nat)
    requires Follows(log) && n <= |log|
    ensures Holds(BaselineOf(TrackerAt(log, n), s), Settled(log, s, n))
  {
    if n > 0 {
      BaselineIsReport(log, s, n - 1);
      AlwaysPends(log, n - 1);
      assert Linked(log, n - 1);
    }
  }

  /** No counter of the second report is below the first's. */
  predicate Grown(q: Payload, p: Payload) {
    && q.input <= p.input && q.output <= p.output
    && (q.cost.Some? && p.cost.Some? ==> q.cost.value <= p.cost.value)
  }

  /**
   * Taking a turn publishes exactly when its session reported in it: the last report's
   * counters and model, and, when the session had a settled report before and no counter
   * fell, the differences of the two.
   */
  lemma {:induction false} PublishedIsDifference(log: seq<Entry>, k: nat)
    requires Follows(log) && k < |log| && log[k].call.Take?
    ensures log[k].published.Some? <==> InTurn(log, k).Some? && Reported(log, k).Some?
    ensures log[k].published.Some? ==>
      var r, s, p := log[k].published.value, InTurn(log, k).value, Reported(log, k).value;
      var q := Settled(log, s, k);
      && r.session == s && r.input == p.input && r.output == p.output && r.cost == p.cost && r.model == p.model
      && (r.reliable <==> q.Some? && Grown(q.value, p))
      && r.turnInput == (if r.reliable then Some(p.input - q.value.input) else None)
      && r.turnOutput == (if r.reliable then Some(p.output - q.value.output) else None)
      && r.turnCost == (if r.reliable && q.value.cost.Some? && p.cost.Some?
                        then Some(p.cost.value - q.value.cost.value) else None)
  {
    AlwaysPends(log, k);
    assert Linked(log, k);
    if InTurn(log, k).Some? {
      BaselineIsReport(log, InTurn(log, k).value, k);
    }
  }

  /** Nothing else publishes. */
  lemma OnlyTakesPublish(log: seq<Entry>, k: nat)
    requires Follows(log) && k < |log| && log[k].published.Some?
    ensures log[k].call.Take?
  {
    assert Linked(log, k);
  }
}
