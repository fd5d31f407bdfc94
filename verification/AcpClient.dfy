/**
 * The client side of a prompt turn: the fields of `AcpClient` the read loop updates, and
 * the loop itself over its local variables, proved against `SteerTurn.Run`.
 *
 * A prompt turn is one run of the loop. After a timeout the client keeps the prompt's id
 * and its hard deadline, and the cleanup is another run of the same loop, without a
 * steer receiver, against that deadline.
 *
 * Each arm of the loop is a method of its own, so that one step of the specification is
 * one call.
 */
module AcpClient {
  import opened Prelude
  import opened SteerTurn

  const CLEANUP_GRACE := 30_000_000_000

  lemma {:induction false} RunStops(t: Turn, a: seq<Step>, b: seq<Step>)
    requires Run(t, a).result.Some?
    ensures Run(t, a + b) == Run(t, a)
    decreases b
  {
    if b == [] {
      assert a + b == a;
    } else {
      var n := |b| - 1;
      assert (a + b)[..|a + b| - 1] == a + b[..n];
      RunStops(t, a, b[..n]);
    }
  }

  /**
   * An agent client. The second group of fields are the read loop's local variables,
   * the ghost ones its history.
   */
  class Client {
    var nextId: nat
    var lastPromptId: Option<nat>
    var currentHardDeadline: Option<Time>
    var activeRun: Option<nat>

    var settings: Settings
    var now: Time
    var idleDeadline: Time
    var hardDeadline: Time
    var lastActivity: Time
    var pendingSteer: Option<Pending>
    var steerRx: Option<Req>
    var acks: seq<Resolved>
    var outcome: Option<Outcome>
    ghost var accepted: seq<Req>
    ghost var written: seq<Pending>
    ghost var renewals: seq<Time>
    ghost var lastLine: Time

    constructor ()
      ensures nextId == 0 && lastPromptId.None? && currentHardDeadline.None? && activeRun.None?
    {
      nextId, lastPromptId, currentHardDeadline, activeRun := 0, None, None, None;
      settings := Settings(0, 0, 0);
      now, idleDeadline, hardDeadline, lastActivity, lastLine := 0, 0, 0, 0, 0;
      pendingSteer, steerRx, outcome := None, None, None;
      acks, accepted, written, renewals := [], [], [], [];
    }

    /** The state the specification speaks of. */
    ghost function Model(): Turn
      reads this
    {
      Turn(settings,
           Clocks(now, idleDeadline, hardDeadline, lastActivity, currentHardDeadline, renewals, lastLine),
           Steering(steerRx, pendingSteer, nextId, activeRun, accepted, written, acks),
           outcome)
    }

    /** Leaves the loop: the pending steer is resolved, the receiver dropped. */
    method Exit(how: Resolution, result: Outcome)
      modifies this
      ensures Model() == old(Model()).(steer := Leave(old(Model()).steer, how), result := Some(result))
      ensures lastPromptId == old(lastPromptId)
    {
      if pendingSteer.Some? {
        acks := acks + [Resolved(pendingSteer.value.req, how)];
        pendingSteer := None;
      }
      if steerRx.Some? {
        acks := acks + [Resolved(steerRx.value, SenderDropped)];
        steerRx := None;
      }
      outcome := Some(result);
    }

    /** The steer arm of `select!`. */
    method OnSteer(ok: bool)
      modifies this
      ensures Model() == old(Model()).(steer := WriteSteer(old(Model()).steer, ok))
      ensures lastPromptId == old(lastPromptId)
    {
      if pendingSteer.None? && steerRx.Some? {
        var req := steerRx.value;
        steerRx := None;
        if activeRun.None? {
          acks := acks + [Resolved(req, Acked(RunIdMissing))];
        } else {
          var id := nextId;
          nextId := nextId + 1;
          if ok {
            pendingSteer := Some(Pending(id, req));
            written := written + [Pending(id, req)];
          } else {
            acks := acks + [Resolved(req, Acked(Transport))];
          }
        }
      }
    }

    /** The reply to the pending steer; a success renews the hard deadline. */
    method OnSteerReply(error: Option<int>)
      requires pendingSteer.Some?
      modifies this
      ensures error.Some? ==>
        Model() == old(Model()).(steer := ResolvePending(old(Model()).steer, Acked(AgentError(error.value))))
      ensures error.None? ==>
        Model() == old(Model()).(steer := ResolvePending(old(Model()).steer, Acked(Success)),
                                 time := Renew(old(Model()).time, settings.maxDuration))
      ensures lastPromptId == old(lastPromptId)
    {
      var req := pendingSteer.value.req;
      pendingSteer := None;
      if error.Some? {
        acks := acks + [Resolved(req, Acked(AgentError(error.value)))];
      } else {
        var newDeadline := now + settings.maxDuration;
        renewals := renewals + [now];
        if newDeadline > hardDeadline {
          hardDeadline := newDeadline;
          currentHardDeadline := Some(newDeadline);
        }
        acks := acks + [Resolved(req, Acked(Success))];
      }
    }

    /** A notification or a request of the agent. */
    method OnDispatch(m: Message)
      modifies this
      ensures Model() == Dispatch(old(Model()), m)
      ensures lastPromptId == old(lastPromptId)
    {
      match m.verb {
        case SessionUpdate(toolCall, run) =>
          if run.SetRun? {
            activeRun := Some(run.run);
          } else if run.ClearRun? {
            activeRun := None;
          }
          if toolCall {
            idleDeadline, lastActivity := now + settings.idle, now;
          }
        case Permission(replied) =>
          if !replied {
            Exit(SenderDropped, Broken);
          }
        case Unknown(replied) =>
          if m.id.Some? && !replied {
            Exit(SenderDropped, Broken);
          }
        case _ =>
      }
    }

    method SeeLine(handling: nat)
      modifies this
      ensures Model() == old(Model()).(time :=
        Pass(Active(old(Model()).time, settings.idle).(lastLine := old(Model()).time.now), handling))
      ensures lastPromptId == old(lastPromptId) && settings == old(settings) && pendingSteer == old(pendingSteer)
    {
      idleDeadline, lastActivity, lastLine := now + settings.idle, now, now;
      now := now + handling;
    }

    /** A valid JSON line: the idle clock restarts before the line is looked at. */
    method OnMessage(handling: nat, m: Message)
      requires outcome.None?
      modifies this
      ensures Model() == HandleMessage(old(Model()), handling, m)
      ensures lastPromptId == old(lastPromptId)
    {
      SeeLine(handling);
      if m.verb == Absent && pendingSteer.Some? && m.id == Some(IdNumber(pendingSteer.value.id)) {
        OnSteerReply(m.error);
      } else if m.verb == Absent && m.id == Some(IdNumber(settings.expectedId)) {
        Exit(Acked(Neutral), if m.error.Some? then AgentFailed else Replied);
      } else {
        OnDispatch(m);
      }
    }

    /** One iteration: the deadline check at the top, then the arm that won. */
    method Iterate(beforeTop: nat, beforeWake: nat, handling: nat, wake: Wake)
      requires outcome.None?
      modifies this
      ensures Model() == Iteration(old(Model()), beforeTop, beforeWake, handling, wake)
      ensures lastPromptId == old(lastPromptId)
    {
      now := now + beforeTop;
      var idleFiresFirst := idleDeadline < hardDeadline;
      var nextDeadline := if idleFiresFirst then idleDeadline else hardDeadline;
      if now >= nextDeadline {
        Exit(Acked(Neutral), if idleFiresFirst then IdleTimeout else HardTimeout);
        return;
      }
      now := now + beforeWake;
      match wake {
        case Read(Parsed(m)) => OnMessage(handling, m);
        case Read(_) =>
        case Steer(ok) => OnSteer(ok);
        case Slept =>
          now := Max(now, nextDeadline);
          Exit(Acked(Neutral), if idleFiresFirst then IdleTimeout else HardTimeout);
        case Eof => Exit(Acked(Neutral), AgentExited);
        case TooLong => Exit(Acked(Neutral), Broken);
        case ReadFailed => Exit(Acked(Neutral), Broken);
      }
    }

    method BeginClocks(settings: Settings, start: Time, deadline: Time)
      modifies this
      ensures Model() == old(Model()).(settings := settings, time :=
        Clocks(start, start + settings.idle, deadline, start, old(currentHardDeadline), [], start))
      ensures lastPromptId == old(lastPromptId)
    {
      BeginHistory(settings, start);
      now, idleDeadline, hardDeadline, lastActivity := start, start + settings.idle, deadline, start;
    }

    method BeginHistory(settings: Settings, start: Time)
      modifies this`settings, this`renewals, this`lastLine
      ensures this.settings == settings && renewals == [] && lastLine == start
    {
      this.settings, renewals, lastLine := settings, [], start;
    }

    method BeginSteering(channel: Option<Req>)
      modifies this
      ensures Model() == old(Model()).(result := None, steer :=
        Steering(channel, None, old(nextId), old(activeRun), if channel.Some? then [channel.value] else [], [], []))
      ensures lastPromptId == old(lastPromptId)
    {
      steerRx, pendingSteer, outcome, acks := channel, None, None, [];
      accepted, written := if channel.Some? then [channel.value] else [], [];
    }

    /** The main loop's `try_send` while the receiver is installed. */
    method OnOffer(req: Req)
      requires outcome.None?
      modifies this
      ensures Model() == Next(old(Model()), Offer(req))
      ensures lastPromptId == old(lastPromptId)
    {
      if steerRx.None? {
        steerRx := Some(req);
        accepted := accepted + [req];
      }
    }

    /**
     * Reads until the prompt's response, a timeout or a failure; `outcome` stays
     * `None` when the script of `steps` ends first.
     */
    method ReadUntilResponse(settings: Settings, start: Time, deadline: Time, channel: Option<Req>, steps: seq<Step>)
      modifies this
      ensures Model() == Run(Start(settings, start, deadline, old(currentHardDeadline), channel,
                                   old(nextId), old(activeRun)), steps)
      ensures lastPromptId == old(lastPromptId)
    {
      BeginClocks(settings, start, deadline);
      BeginSteering(channel);
      assert Model() == Start(settings, start, deadline, old(currentHardDeadline), channel, old(nextId), old(activeRun));
      RunSteps(Model(), steps);
    }

    /** The loop, from its first iteration on. */
    method RunSteps(ghost first: Turn, steps: seq<Step>)
      requires Model() == first
      modifies this
      ensures Model() == Run(first, steps)
      ensures lastPromptId == old(lastPromptId)
    {
      var i := 0;
      while i < |steps| && outcome.None?
        invariant 0 <= i <= |steps|
        invariant Model() == Run(first, steps[..i])
        invariant lastPromptId == old(lastPromptId)
      {
        assert steps[..i + 1][..i] == steps[..i];
        match steps[i] {
          case Offer(req) => OnOffer(req);
          case Iterate(beforeTop, beforeWake, handling, wake) =>
            Iterate(beforeTop, beforeWake, handling, wake);
        }
        i := i + 1;
      }
      if i < |steps| {
        assert steps == steps[..i] + steps[i..];
        RunStops(first, steps[..i], steps[i..]);
      } else {
        assert steps[..i] == steps;
      }
    }

    /**
     * One prompt turn. After a timeout the prompt id and the hard deadline, with every
     * renewal in it, stay for the cleanup; after any other outcome they are cleared.
     */
    method SessionPrompt(start: Time, idle: nat, maxDuration: nat, channel: Option<Req>, sent: bool, steps: seq<Step>)
      modifies this
      ensures !sent ==>
        outcome == Some(Broken) && lastPromptId.None? && currentHardDeadline.None? && nextId == old(nextId) + 1
      ensures sent ==>
        var id, hard := old(nextId), start + maxDuration;
        var u := Run(Start(Settings(id, idle, maxDuration), start, hard, Some(hard), channel, id + 1, old(activeRun)), steps);
        && outcome == u.result && acks == u.steer.resolved
        && lastPromptId == (if Ended(outcome) then None else Some(id))
        && currentHardDeadline ==
             if Ended(outcome) then None else Some(HardDeadline(hard, maxDuration, u.time.renewals))
    {
      var deadline: Time := start + maxDuration;
      currentHardDeadline := Some(deadline);
      lastPromptId := Some(nextId);
      var id := nextId;
      nextId := nextId + 1;
      if !sent {
        lastPromptId, currentHardDeadline, outcome := None, None, Some(Broken);
        return;
      }
      ghost var first := Start(Settings(id, idle, maxDuration), start, deadline, Some(deadline), channel, nextId, activeRun);
      DeadlinesOverTurn(first, steps, 0);
      ReadUntilResponse(Settings(id, idle, maxDuration), start, deadline, channel, steps);
      if Ended(outcome) {
        lastPromptId, currentHardDeadline := None, None;
      }
    }

    /**
     * Drains a cancelled turn within what is left of its hard deadline, but at least
     * thirty seconds. No steer receiver is installed, so nothing can renew it.
     */
    method CancelWithCleanup(start: Time, sent: bool, steps: seq<Step>)
      requires forall s :: s in steps ==> s.Iterate?
      modifies this
      ensures currentHardDeadline.None? && lastPromptId.None?
      ensures old(lastPromptId).None? || !sent ==> outcome == Some(Broken)
      ensures old(lastPromptId).Some? && sent ==>
        var hard := CleanupDeadline(old(currentHardDeadline), start);
        && Model() == Run(Start(Settings(old(lastPromptId).value, CLEANUP_GRACE, hard - start), start, hard, None, None,
                                old(nextId), old(activeRun)), steps)
        && hardDeadline == hard
        && (outcome == Some(HardTimeout) ==> hard <= now)
    {
      var deadline := CleanupDeadline(currentHardDeadline, start);
      currentHardDeadline := None;
      var prompt := lastPromptId;
      lastPromptId := None;
      if prompt.None? || !sent {
        outcome := Some(Broken);
        return;
      }
      var settings := Settings(prompt.value, CLEANUP_GRACE, deadline - start);
      CleanupNeverRenews(Start(settings, start, deadline, None, None, nextId, activeRun), steps);
      ReadUntilResponse(settings, start, deadline, None, steps);
    }
  }

  /** The turn is over for good: neither still running nor timed out. */
  predicate Ended(outcome: Option<Outcome>) {
    outcome.Some? && outcome != Some(IdleTimeout) && outcome != Some(HardTimeout)
  }

  function CleanupDeadline(stored: Option<Time>, now: Time): (d: Time)
    ensures d >= now + CLEANUP_GRACE
    ensures stored.Some? ==> d >= stored.value
    ensures d == now + 30_000_000_000 || Some(d) == stored
  {
    if stored.Some? && stored.value > now + CLEANUP_GRACE then stored.value else now + CLEANUP_GRACE
  }

  lemma {:induction false} CleanupNeverRenews(t: Turn, steps: seq<Step>)
    requires t.steer.channel.None? && t.steer.pending.None? && t.result.None?
    requires t.time.clientHard.None?
    requires forall s :: s in steps ==> s.Iterate?
    ensures var u := Run(t, steps);
      && u.steer.channel.None? && u.steer.pending.None?
      && u.time.hardDeadline == t.time.hardDeadline && u.time.clientHard.None?
      && (u.result == Some(HardTimeout) ==> u.time.hardDeadline <= u.time.now)
    decreases steps
  {
    if steps != [] {
      CleanupNeverRenews(t, steps[..|steps| - 1]);
      assert steps[|steps| - 1] in steps;
    }
  }

}
