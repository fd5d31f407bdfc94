/** How a prompt turn ends, and what it goes by: the outcome, the run id and the idle clock, told by the lines read. */
module TurnEnds {
  import opened Prelude
  import opened SteerTurn

  /** The step reads a valid line in time. */
  predicate Reads(t: Turn, s: Step) {
    InTime(t, s) && s.wake.Read? && s.wake.line.Parsed?
  }

  /** It is the reply to the prompt, with an error member or without one, and not one to the pending steer. */
  predicate ReadsPromptReply(t: Turn, s: Step, failed: bool) {
    && Reads(t, s)
    && s.wake.line.message.verb == Absent
    && s.wake.line.message.id == Some(IdNumber(t.settings.expectedId))
    && (t.steer.pending.Some? ==> t.steer.pending.value.id != t.settings.expectedId)
    && s.wake.line.message.error.Some? == failed
  }

  predicate WakesWith(t: Turn, s: Step, wake: Wake) {
    InTime(t, s) && s.wake == wake
  }

  /** The top of the loop finds the nearer deadline reached, or the sleep until it ends. */
  predicate RunsOut(t: Turn, s: Step) {
    && t.result.None? && s.Iterate?
    && (t.time.now + s.beforeTop >= Min(t.time.idleDeadline, t.time.hardDeadline) || WakesWith(t, s, Slept))
  }

  /** What brings about each outcome. */
  predicate Causes(t: Turn, s: Step, o: Outcome) {
    match o
    case Replied => ReadsPromptReply(t, s, false)
    case AgentFailed => ReadsPromptReply(t, s, true)
    case AgentExited => WakesWith(t, s, Eof)
    case Broken => Bails(t, s) || WakesWith(t, s, TooLong) || WakesWith(t, s, ReadFailed)
    case IdleTimeout => RunsOut(t, s) && t.time.idleDeadline < t.time.hardDeadline
    case HardTimeout => RunsOut(t, s) && t.time.hardDeadline <= t.time.idleDeadline
  }

  lemma MessageEnds(t: Turn, handling: nat, m: Message)
    requires t.result.None?
    ensures HandleMessage(t, handling, m).result ==
      if m.verb == Absent && m.id == Some(IdNumber(t.settings.expectedId)) &&
         !(t.steer.pending.Some? && t.steer.pending.value.id == t.settings.expectedId)
      then Some(if m.error.Some? then AgentFailed else Replied)
      else if (m.verb.Permission? && !m.verb.replied) || (m.verb.Unknown? && !m.verb.replied && m.id.Some?)
      then Some(Broken) else None
  {
  }

  /** A running turn ends with an outcome in exactly the steps that bring it about. */
  lemma {:induction false} StepEnds(t: Turn, s: Step, o: Outcome)
    requires t.result.None?
    ensures Next(t, s).result == Some(o) <==> Causes(t, s, o)
  {
    if Reads(t, s) {
      MessageEnds(t.(time := Pass(Pass(t.time, s.beforeTop), s.beforeWake)), s.handling, s.wake.line.message);
    }
  }

  ghost predicate CausesAt(t: Turn, steps: seq<Step>, k: nat, o: Outcome)
    requires k < |steps|
  {
    Causes(Run(t, steps[..k]), steps[k], o)
  }

  ghost predicate Caused(t: Turn, steps: seq<Step>, o: Outcome) {
    exists k :: 0 <= k < |steps| && CausesAt(t, steps, k, o)
  }

  lemma CausedSnoc(t: Turn, steps: seq<Step>, o: Outcome)
    requires steps != []
    ensures var n := |steps| - 1;
      Caused(t, steps, o) <==> Caused(t, steps[..n], o) || Causes(Run(t, steps[..n]), steps[n], o)
  {
    var n := |steps| - 1;
    forall k | 0 <= k < n ensures CausesAt(t, steps, k, o) <==> CausesAt(t, steps[..n], k, o) {
      assert steps[..n][..k] == steps[..k];
    }
    assert CausesAt(t, steps, n, o) <==> Causes(Run(t, steps[..n]), steps[n], o);
  }

  lemma CauseIsRunning(t: Turn, s: Step, o: Outcome)
    requires Causes(t, s, o)
    ensures t.result.None?
  {
  }

  /**
   * Over a whole turn: it ends as replied if and only if some step reads the prompt's
   * reply without an error, as failed iff one reads it with an error, and likewise for an
   * agent that exits, a broken connection or answer, and each timeout.
   */
  lemma {:induction false} EndsAsCaused(t: Turn, steps: seq<Step>, o: Outcome)
    requires t.result.None?
    ensures Run(t, steps).result == Some(o) <==> Caused(t, steps, o)
    decreases steps
  {
    if steps != [] {
      var n := |steps| - 1;
      var u := Run(t, steps[..n]);
      EndsAsCaused(t, steps[..n], o);
      CausedSnoc(t, steps, o);
      if u.result.None? {
        StepEnds(u, steps[n], o);
      } else if Causes(u, steps[n], o) {
        CauseIsRunning(u, steps[n], o);
      }
    }
  }

  // ------------------------------------------------------------------- the run id

  /** The run id after the step, when it reads an update that says one way or the other. */
  function RunSaid(t: Turn, s: Step): Option<Option<nat>> {
    if Reads(t, s) && s.wake.line.message.verb.SessionUpdate? then
      match s.wake.line.message.verb.run
      case SetRun(r) => Some(Some(r))
      case ClearRun => Some(None)
      case KeepRun => None
    else None
  }

  /** The latest run id any update of the turn said. */
  function RunLastSaid(t: Turn, steps: seq<Step>): Option<nat> {
    if steps == [] then t.steer.activeRun
    else
      var n := |steps| - 1;
      var said := RunSaid(Run(t, steps[..n]), steps[n]);
      if said.Some? then said.value else RunLastSaid(t, steps[..n])
  }

  lemma StepRun(t: Turn, s: Step)
    ensures Next(t, s).steer.activeRun == if RunSaid(t, s).Some? then RunSaid(t, s).value else t.steer.activeRun
  {
  }

  /** A steer is written for the run of the latest update that named or cleared one. */
  lemma {:induction false} RunIdIsLatest(t: Turn, steps: seq<Step>)
    ensures Run(t, steps).steer.activeRun == RunLastSaid(t, steps)
    decreases steps
  {
    if steps != [] {
      RunIdIsLatest(t, steps[..|steps| - 1]);
      StepRun(Run(t, steps[..|steps| - 1]), steps[|steps| - 1]);
    }
  }

  // ------------------------------------------------------------------ request ids

  /** The step takes a steer that has a run to go to. */
  predicate Attempts(t: Turn, s: Step) {
    InTime(t, s) && s.wake.Steer? && t.steer.pending.None? && t.steer.channel.Some? && t.steer.activeRun.Some?
  }

  function AttemptsOf(t: Turn, steps: seq<Step>): nat {
    if steps == [] then 0
    else
      var n := |steps| - 1;
      AttemptsOf(t, steps[..n]) + if Attempts(Run(t, steps[..n]), steps[n]) then 1 else 0
  }

  lemma StepIds(t: Turn, s: Step)
    ensures Next(t, s).steer.nextId == t.steer.nextId + if Attempts(t, s) then 1 else 0
    ensures Attempts(t, s) && s.wake.written ==>
      Next(t, s).steer.pending == Some(Pending(t.steer.nextId, t.steer.channel.value))
  {
  }

  /** Every attempt uses up one request id, written or not, and nothing else does. */
  lemma {:induction false} IdPerAttempt(t: Turn, steps: seq<Step>)
    ensures Run(t, steps).steer.nextId == t.steer.nextId + AttemptsOf(t, steps)
    decreases steps
  {
    if steps != [] {
      IdPerAttempt(t, steps[..|steps| - 1]);
      StepIds(Run(t, steps[..|steps| - 1]), steps[|steps| - 1]);
    }
  }

  // -------------------------------------------------------------- the idle clock

  /** When the step hears from the agent: as a valid line is read, or as a started tool call is dealt with. */
  function HeardAt(t: Turn, s: Step): Option<Time> {
    if !Reads(t, s) then None
    else
      var read := t.time.now + s.beforeTop + s.beforeWake;
      match s.wake.line.message.verb
      case SessionUpdate(toolCall, _) => Some(if toolCall then read + s.handling else read)
      case _ => Some(read)
  }

  function LastHeard(t: Turn, steps: seq<Step>): Time {
    if steps == [] then t.time.lastActivity
    else
      var n := |steps| - 1;
      var heard := HeardAt(Run(t, steps[..n]), steps[n]);
      if heard.Some? then heard.value else LastHeard(t, steps[..n])
  }

  lemma StepHears(t: Turn, s: Step)
    ensures Next(t, s).time.lastActivity == if HeardAt(t, s).Some? then HeardAt(t, s).value else t.time.lastActivity
  {
  }

  /** The idle clock counts from the last valid line or started tool call; blank and garbled lines do not restart it. */
  lemma {:induction false} IdleSinceLastHeard(t: Turn, steps: seq<Step>)
    requires OnTime(t.time.hardDeadline, t.settings, t.time) && t.result.None?
    ensures Run(t, steps).time.lastActivity == LastHeard(t, steps)
    ensures Run(t, steps).time.idleDeadline == LastHeard(t, steps) + t.settings.idle
    decreases steps
  {
    DeadlinesOverTurn(t, steps, 0);
    if steps != [] {
      IdleSinceLastHeard(t, steps[..|steps| - 1]);
      StepHears(Run(t, steps[..|steps| - 1]), steps[|steps| - 1]);
    }
  }
}
