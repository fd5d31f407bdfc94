/** Native steering on one clock: when an in-flight expiry can come, and what it can meet. */
module SteerClock {
  // A dispatch gives the channel a deadline, the turn's budget and a buffer from now on; a
  // success that the main loop handles extends it. The prompt starts some time after the
  // dispatch. Only a deadline that has passed expires. One dispatched turn is followed
  // through; a batch dispatched beside it, after an expiry, is a task of which only the
  // end is seen. The main loop acts at `now`; an iteration of the read loop may have begun
  // earlier, but does not end before `now`.

  import opened Prelude
  import opened SteerTurn
  import opened SteerQueue
  import opened SteerSystem

  /** A hundred seconds. */
  const BUFFER: nat := 100_000_000_000

  /** The turn's task: none, dispatched with its prompt not yet sent, or past that. */
  datatype Stage = Idle | Waiting | Running

  datatype Limits = Limits(idle: nat, maxTurn: nat)

  /** The idle timeout is positive and below the turn's budget. */
  predicate Configured(l: Limits) {
    0 < l.idle < l.maxTurn
  }

  /** `arrived` tells when each outcome in the mailbox was reported. */
  datatype Timed = Timed(
    limits: Limits, sys: Sys, now: Time, deadline: Option<Time>, stage: Stage,
    dispatched: Time, others: nat, arrived: seq<Time>)

  datatype Happening =
    | Elapse(time: nat)
    | Do(input: Input)
    | Dispatch(expectedId: nat, nextId: nat, activeRun: Option<nat>)
    | Begin(writing: nat, expectedId: nat, nextId: nat, activeRun: Option<nat>)
    | Finish
    | FinishOther

  predicate Due(t: Timed) {
    t.deadline.Some? && t.deadline.value <= t.now
  }

  function StepOf(input: Input): Step
    requires input.TurnStep?
  {
    Iterate(input.beforeTop, input.beforeWake, input.handling, input.wake)
  }

  /** The loop runs, or its task gives up before the prompt; the iteration does not end before now. */
  predicate CanStep(t: Timed, input: Input)
    requires input.TurnStep?
  {
    && t.sys.turn.result.None?
    && (t.stage.Running? || (t.stage.Waiting? && input.wake.Eof?))
    && t.now <= SteerTurn.Next(t.sys.turn, StepOf(input)).time.now
  }

  /** What can happen: in particular events are steered, and batches held back, while the channel is in flight. */
  predicate Legal(t: Timed, h: Happening) {
    match h
    case Elapse(_) => true
    case Do(Post(_)) => t.deadline.Some?
    case Do(Enqueue(_)) => true
    case Do(Deliver(i)) => i < |t.sys.mailbox|
    case Do(Expire) => Due(t)
    case Do(DrainChannel) => true
    case Do(TurnStep(a, b, c, wake)) => CanStep(t, h.input)
    case Do(_) => false
    case Dispatch(_, _, _) => t.deadline.None?
    case Begin(_, _, _, _) => t.stage.Waiting? && t.sys.turn.result.None?
    case Finish => !t.stage.Idle? && t.sys.turn.result.Some?
    case FinishOther => t.others > 0
  }

  function FreshDeadline(t: Timed): Time {
    t.now + t.limits.maxTurn + BUFFER
  }

  /** A handled success extends a deadline that stands, and never moves it back. */
  function Extended(t: Timed): Option<Time> {
    if t.deadline.Some? then Some(Max(t.deadline.value, FreshDeadline(t))) else None
  }

  /** How long ago the turn's clock was last read. */
  function Gap(t: Timed): nat {
    if t.sys.turn.time.now <= t.now then t.now - t.sys.turn.time.now else 0
  }

  function SettingsOf(t: Timed, expectedId: nat): Settings {
    Settings(expectedId, t.limits.idle, t.limits.maxTurn)
  }

  function Delivered(t: Timed, i: nat): Timed
    requires i < |t.sys.mailbox|
  {
    t.(sys := After(t.sys, Deliver(i)),
       arrived := if i < |t.arrived| then t.arrived[..i] + t.arrived[i + 1..] else t.arrived,
       deadline := if IsSuccess(t.sys.mailbox[i].how) then Extended(t) else t.deadline)
  }

  function Stepped(t: Timed, input: Input): Timed
    requires input.TurnStep?
  {
    var sys := After(t.sys, input);
    t.(sys := sys, now := sys.turn.time.now,
       arrived := t.arrived + seq(|Adds(t.sys.turn, StepOf(input))|, _ => sys.turn.time.now))
  }

  /** The turn that a dispatch starts. */
  function TurnOf(t: Timed, h: Happening): Input
    requires h.Dispatch?
  {
    NewTurn(Gap(t), SettingsOf(t, h.expectedId), t.now + t.limits.maxTurn, h.nextId, h.activeRun)
  }

  function Dispatched(t: Timed, h: Happening): Timed
    requires h.Dispatch?
  {
    var u := t.(sys := After(t.sys, FlushBatch), deadline := Some(FreshDeadline(t)));
    if t.stage.Idle? then
      u.(sys := After(u.sys, TurnOf(t, h)),
         stage := Waiting, dispatched := t.now)
    else u.(others := t.others + 1)
  }

  /** The prompt is sent now; the loop starts when it is written. */
  function Begun(t: Timed, h: Happening): Timed
    requires h.Begin?
  {
    t.(sys := After(t.sys, NewTurn(Gap(t) + h.writing, SettingsOf(t, h.expectedId), t.now + t.limits.maxTurn,
                                   h.nextId, h.activeRun)),
       now := t.now + h.writing, stage := Running)
  }

  function Effect(t: Timed, h: Happening): Timed
    requires Legal(t, h)
  {
    match h
    case Elapse(time) => t.(now := t.now + time)
    case Do(Deliver(i)) => Delivered(t, i)
    case Do(Expire) => t.(sys := After(t.sys, Expire), deadline := None)
    case Do(TurnStep(_, _, _, _)) => Stepped(t, h.input)
    case Do(input) => t.(sys := After(t.sys, input))
    case Dispatch(_, _, _) => Dispatched(t, h)
    case Begin(_, _, _, _) => Begun(t, h)
    case Finish => t.(stage := Idle, deadline := None)
    case FinishOther => t.(others := t.others - 1, deadline := None)
  }

  /** What cannot happen does nothing. */
  function Happen(t: Timed, h: Happening): Timed {
    if Legal(t, h) then Effect(t, h) else t
  }

  function Timeline(t: Timed, hs: seq<Happening>): Timed {
    if hs == [] then t else Happen(Timeline(t, hs[..|hs| - 1]), hs[|hs| - 1])
  }

  /** Nothing posted, nothing dispatched. */
  predicate Opening(t: Timed) {
    && Configured(t.limits) && Initial(t.sys) && t.sys.turn.result.Some? && t.sys.turn.time.now <= t.now
    && t.deadline.None? && t.stage.Idle? && t.others == 0 && t.dispatched <= t.now && t.arrived == []
  }

  // ------------------------------------------------------------- runs of the system

  /** The inputs of the main loop that a happening amounts to. */
  function InputsOf(t: Timed, h: Happening): seq<Input> {
    if !Legal(t, h) then []
    else
      match h
      case Do(input) => [input]
      case Dispatch(_, _, _) =>
        if t.stage.Idle?
        then [FlushBatch, TurnOf(t, h)]
        else [FlushBatch]
      case Begin(_, _, _, _) =>
        [NewTurn(Gap(t) + h.writing, SettingsOf(t, h.expectedId), t.now + t.limits.maxTurn, h.nextId, h.activeRun)]
      case _ => []
  }

  lemma TraceOne(s: Sys, x: Input)
    ensures Trace(s, [x]) == After(s, x)
  {
    assert [x][..0] == [] && Trace(s, []) == s;
  }

  lemma TraceTwo(s: Sys, xs: seq<Input>, x: Input, y: Input)
    requires xs == [x, y]
    ensures Trace(s, xs) == After(After(s, x), y)
  {
    TraceOne(s, x);
    assert xs[..1] == [x];
  }

  lemma FlushedIsTrace(t: Timed, h: Happening)
    requires h.Dispatch? && Legal(t, h) && !t.stage.Idle?
    ensures Dispatched(t, h).sys == Trace(t.sys, InputsOf(t, h))
  {
    TraceOne(t.sys, FlushBatch);
    assert InputsOf(t, h) == [FlushBatch];
  }

  lemma StartedIs(t: Timed, h: Happening)
    requires h.Dispatch? && t.stage.Idle?
    ensures Dispatched(t, h).sys == After(After(t.sys, FlushBatch), TurnOf(t, h))
  {
  }

  lemma StartedIsTrace(t: Timed, h: Happening)
    requires h.Dispatch? && Legal(t, h) && t.stage.Idle?
    ensures Dispatched(t, h).sys == Trace(t.sys, InputsOf(t, h))
  {
    StartedIs(t, h);
    TraceTwo(t.sys, InputsOf(t, h), FlushBatch, TurnOf(t, h));
  }

  lemma BegunIsTrace(t: Timed, h: Happening)
    requires h.Begin? && Legal(t, h)
    ensures Begun(t, h).sys == Trace(t.sys, InputsOf(t, h))
  {
    TraceOne(t.sys, NewTurn(Gap(t) + h.writing, SettingsOf(t, h.expectedId), t.now + t.limits.maxTurn,
                            h.nextId, h.activeRun));
  }

  lemma DoneIsTrace(t: Timed, input: Input)
    requires Legal(t, Do(input))
    ensures Happen(t, Do(input)).sys == Trace(t.sys, InputsOf(t, Do(input)))
  {
    DoIs(t, input);
    TraceOne(t.sys, input);
  }

  lemma {:induction false} HappenIsTrace(t: Timed, h: Happening)
    ensures Happen(t, h).sys == Trace(t.sys, InputsOf(t, h))
  {
    if Legal(t, h) && h.Do? {
      DoneIsTrace(t, h.input);
    } else if Legal(t, h) && h.Dispatch? {
      if t.stage.Idle? {
        StartedIsTrace(t, h);
      } else {
        FlushedIsTrace(t, h);
      }
    } else if Legal(t, h) && h.Begin? {
      BegunIsTrace(t, h);
    } else {
      assert Trace(t.sys, []) == t.sys;
    }
  }

  /** Whatever the clock allows is a run of the system, so its theorems hold here. */
  lemma {:induction false} TimelineIsTrace(t: Timed, hs: seq<Happening>) returns (inputs: seq<Input>)
    ensures Timeline(t, hs).sys == Trace(t.sys, inputs)
    decreases hs
  {
    if hs == [] {
      inputs := [];
    } else {
      var n := |hs| - 1;
      var before := TimelineIsTrace(t, hs[..n]);
      var last := InputsOf(Timeline(t, hs[..n]), hs[n]);
      HappenIsTrace(Timeline(t, hs[..n]), hs[n]);
      inputs := before + last;
      TraceConcat(t.sys, before, last);
    }
  }

  // -------------------------------------------------------------------- the clock

  /** What an iteration does to the clocks and to the requests held. */
  lemma StepFacts(t: Turn, step: Step)
    requires step.Iterate?
    ensures var u := SteerTurn.Next(t, step);
      && t.time.now <= u.time.now && u.settings == t.settings
      && u.time.hardDeadline ==
           (if ReportsSuccess(t, step) then Max(t.time.hardDeadline, u.time.now + t.settings.maxDuration)
            else t.time.hardDeadline)
  {
  }

  /** The request waits in the channel or is in flight. */
  predicate Holds(s: Steering, id: EventId) {
    s.channel == Some(id) || Carries(s, id)
  }

  lemma MoveHolds(s: Steering, move: Move, id: EventId)
    requires !move.Take? && Holds(Apply(s, move), id)
    ensures Holds(s, id)
  {
  }

  lemma StepHolds(t: Turn, step: Step, id: EventId)
    requires step.Iterate? && Holds(SteerTurn.Next(t, step).steer, id)
    ensures Holds(t.steer, id)
  {
    if t.result.None? {
      var move := NextMove(t, step);
      MoveHolds(t.steer, move, id);
    }
  }

  lemma HeldMembers(s: Steering)
    ensures s.channel.Some? ==> s.channel.value in Held(s)
    ensures s.pending.Some? ==> s.pending.value.req in Held(s)
  {
  }

  /** A turn that has ended holds nothing. */
  lemma EndedHoldsNothing(t: Turn, id: EventId)
    requires Settled(t) && t.result.Some?
    ensures !Holds(t.steer, id) && t.steer.channel.None?
  {
    HeldMembers(t.steer);
  }

  predicate Synced(t: Timed) {
    && Configured(t.limits)
    && t.sys.turn.time.now <= t.now && t.dispatched <= t.now
    && |t.arrived| == |t.sys.mailbox| && (forall i :: 0 <= i < |t.arrived| ==> t.arrived[i] <= t.now)
    && match t.stage
       case Idle => t.sys.turn.result.Some?
       case Waiting => t.sys.turn.result.None? ==> Untouched(t.sys.turn)
       case Running => Paced(t)
  }

  /** The running turn has the configured limits, and no deadline beyond a full budget from now. */
  predicate Paced(t: Timed) {
    && t.sys.turn.settings.idle == t.limits.idle && t.sys.turn.settings.maxDuration == t.limits.maxTurn
    && t.sys.turn.time.hardDeadline <= t.now + t.limits.maxTurn
  }

  lemma StepAdds(t: Timed, input: Input)
    requires input.TurnStep?
    ensures var u := After(t.sys, input);
      && u.turn == SteerTurn.Next(t.sys.turn, StepOf(input))
      && u.mailbox == t.sys.mailbox + Adds(t.sys.turn, StepOf(input))
      && u.store == t.sys.store && u.removed == t.sys.removed && u.accepted == t.sys.accepted
  {
    VerdictIsReported(t.sys.turn, StepOf(input));
  }

  lemma SteppedSynced(t: Timed, input: Input)
    requires Synced(t) && input.TurnStep? && CanStep(t, input)
    ensures Synced(Stepped(t, input))
  {
    var turn, step := t.sys.turn, StepOf(input);
    StepAdds(t, input);
    StepFacts(turn, step);
    if t.stage.Waiting? {
      EofEnds(turn, step);
    }
  }

  /** A task that gives up before its prompt ends its turn. */
  lemma EofEnds(t: Turn, step: Step)
    requires step.Iterate? && step.wake.Eof? && t.result.None?
    ensures SteerTurn.Next(t, step).result.Some?
  {
  }

  lemma DeliveredIs(t: Timed, i: nat)
    requires i < |t.sys.mailbox| == |t.arrived|
    ensures var u := Delivered(t, i);
      && u.sys.turn == t.sys.turn && u.now == t.now && u.stage == t.stage && u.limits == t.limits
      && u.dispatched == t.dispatched
      && u.sys.mailbox == t.sys.mailbox[..i] + t.sys.mailbox[i + 1..]
      && u.arrived == t.arrived[..i] + t.arrived[i + 1..]
      && u.deadline == (if IsSuccess(t.sys.mailbox[i].how) then Extended(t) else t.deadline)
  {
    DeliverIs(t.sys, i);
  }

  lemma TakenOut(times: seq<Time>, i: nat, now: Time)
    requires i < |times| && forall j :: 0 <= j < |times| ==> times[j] <= now
    ensures var rest := times[..i] + times[i + 1..]; forall j :: 0 <= j < |rest| ==> rest[j] <= now
  {
  }

  lemma DeliveredSynced(t: Timed, i: nat)
    requires Synced(t) && i < |t.sys.mailbox|
    ensures Synced(Delivered(t, i))
  {
    DeliveredIs(t, i);
    TakenOut(t.arrived, i, t.now);
  }

  lemma PostTurn(s: Sys, id: EventId)
    ensures var u := After(s, Post(id));
      && u.turn.time == s.turn.time && u.turn.settings == s.turn.settings && u.turn.result == s.turn.result
      && (Untouched(s.turn) ==> Untouched(u.turn))
      && u.turn.steer.pending == s.turn.steer.pending
      && u.mailbox == s.mailbox && u.removed == s.removed
  {
  }

  lemma DoSynced(t: Timed, input: Input)
    requires Synced(t) && (Bulk(input) || input.Post?)
    ensures Synced(t.(sys := After(t.sys, input)))
  {
    if input.Post? {
      PostTurn(t.sys, input.id);
    } else {
      BulkIs(t.sys, input);
    }
  }

  lemma NewTurnIs(s: Sys, x: Input)
    requires x.NewTurn?
    ensures After(s, x) ==
      if s.turn.result.Some? || Untouched(s.turn)
      then s.(turn := Start(x.settings, s.turn.time.now + x.wait, x.hard, Some(x.hard), s.turn.steer.channel,
                            x.nextId, x.activeRun))
      else s
  {
  }

  lemma DispatchedSynced(t: Timed, h: Happening)
    requires Synced(t) && h.Dispatch?
    ensures Synced(Dispatched(t, h))
  {
    var flushed := After(t.sys, FlushBatch);
    BulkIs(t.sys, FlushBatch);
    if t.stage.Idle? {
      var x := TurnOf(t, h);
      NewTurnIs(flushed, x);
    }
  }

  lemma BegunSynced(t: Timed, h: Happening)
    requires Synced(t) && h.Begin? && Legal(t, h)
    ensures Synced(Begun(t, h))
  {
    var x := NewTurn(Gap(t) + h.writing, SettingsOf(t, h.expectedId), t.now + t.limits.maxTurn, h.nextId, h.activeRun);
    NewTurnIs(t.sys, x);
  }

  lemma ExpiredSynced(t: Timed)
    requires Synced(t)
    ensures Synced(t.(sys := After(t.sys, Expire), deadline := None))
  {
    BulkIs(t.sys, Expire);
  }

  lemma {:induction false} HappenSynced(t: Timed, h: Happening)
    requires Synced(t)
    ensures Synced(Happen(t, h)) && Happen(t, h).limits == t.limits
  {
    if Legal(t, h) {
      match h
      case Do(Deliver(i)) => DeliveredSynced(t, i);
      case Do(TurnStep(_, _, _, _)) => SteppedSynced(t, h.input);
      case Do(Expire) => ExpiredSynced(t);
      case Do(input) => DoSynced(t, input);
      case Dispatch(_, _, _) => DispatchedSynced(t, h);
      case Begin(_, _, _, _) => BegunSynced(t, h);
      case _ =>
    }
  }

  lemma {:induction false} TimelineSynced(t: Timed, hs: seq<Happening>)
    requires Opening(t)
    ensures Synced(Timeline(t, hs)) && Timeline(t, hs).limits == t.limits
    decreases hs
  {
    if hs != [] {
      TimelineSynced(t, hs[..|hs| - 1]);
      HappenSynced(Timeline(t, hs[..|hs| - 1]), hs[|hs| - 1]);
    }
  }

  // --------------------------------------------------------------------- the lags

  /**
   * How late a prompt may be sent after its dispatch, a success reply read after the hard
   * deadline, and a success handled by the main loop after it was read.
   */
  datatype Lags = Lags(start: nat, wake: nat, ack: nat)

  /** A success that the main loop has not handled. */
  predicate Unread(t: Timed, i: nat) {
    i < |t.sys.mailbox| && IsSuccess(t.sys.mailbox[i].how)
  }

  predicate AcksInTime(t: Timed, lags: Lags) {
    forall i :: 0 <= i < |t.arrived| && Unread(t, i) ==> t.now <= t.arrived[i] + lags.ack
  }

  predicate StepInTime(t: Timed, h: Happening, lags: Lags) {
    Legal(t, h) ==>
      match h
      case Begin(_, _, _, _) => t.now <= t.dispatched + lags.start
      case Do(TurnStep(_, _, _, _)) =>
        ReportsSuccess(t.sys.turn, StepOf(h.input)) ==>
          SteerTurn.Next(t.sys.turn, StepOf(h.input)).time.now <= t.sys.turn.time.hardDeadline + lags.wake
      case _ => true
  }

  /** Nothing in the run is later than the lags allow. */
  predicate OnSchedule(t: Timed, hs: seq<Happening>, lags: Lags) {
    hs == [] ||
    (var n := |hs| - 1;
     && OnSchedule(t, hs[..n], lags)
     && StepInTime(Timeline(t, hs[..n]), hs[n], lags) && AcksInTime(Timeline(t, hs), lags))
  }

  // ------------------------------------------------------------ what the deadline covers

  ghost predicate SomeUnread(t: Timed) {
    exists i :: Unread(t, i)
  }

  /** A success was read well before the deadline. */
  predicate ReadEarly(t: Timed, i: nat, deadline: Time, lags: Lags) {
    Unread(t, i) && i < |t.arrived| && t.arrived[i] + BUFFER <= deadline + lags.start + lags.wake
  }

  /** The deadline covers the turn's, unless a success that will extend it waits in the mailbox. */
  ghost predicate Covers(t: Timed, deadline: Time, lags: Lags) {
    && (t.sys.turn.result.None? && t.stage.Waiting? ==> t.dispatched + t.limits.maxTurn + BUFFER <= deadline)
    && (t.sys.turn.result.None? && t.stage.Running? && !SomeUnread(t) ==>
          t.sys.turn.time.hardDeadline + BUFFER <= deadline + lags.start)
    && (SomeUnread(t) ==> exists i :: ReadEarly(t, i, deadline, lags))
  }

  ghost predicate Covered(t: Timed, lags: Lags) {
    t.deadline.Some? ==> Covers(t, t.deadline.value, lags)
  }

  /** A deadline set now covers everything. */
  lemma FreshCovers(t: Timed, deadline: Time, lags: Lags)
    requires Synced(t) && FreshDeadline(t) <= deadline
    ensures Covers(t, deadline, lags)
  {
    if SomeUnread(t) {
      var i: nat :| Unread(t, i);
      assert ReadEarly(t, i, deadline, lags);
    }
  }

  lemma AddsNoSuccess(t: Turn, step: Step)
    requires !ReportsSuccess(t, step)
    ensures forall r :: r in Adds(t, step) ==> !IsSuccess(r.how)
  {
    VerdictIsReported(t, step);
  }

  lemma AddsTheSuccess(t: Turn, step: Step)
    requires ReportsSuccess(t, step)
    ensures |Adds(t, step)| == 1 && Adds(t, step)[0] == Verdict(t, step).value && t.result.None?
  {
    VerdictIsReported(t, step);
  }

  lemma StillUnread(t: Timed, u: Timed, i: nat)
    requires t.sys.mailbox <= u.sys.mailbox && Unread(t, i)
    ensures Unread(u, i)
  {
  }

  lemma OldLetter(mailbox: seq<Resolved>, added: seq<Resolved>, i: nat)
    requires i < |mailbox + added| && IsSuccess((mailbox + added)[i].how)
    requires forall r :: r in added ==> !IsSuccess(r.how)
    ensures i < |mailbox|
  {
    if i >= |mailbox| {
      NewLetter(mailbox, added, i);
    }
  }

  lemma NewLetter(mailbox: seq<Resolved>, added: seq<Resolved>, i: nat)
    requires |mailbox| <= i < |mailbox + added|
    ensures (mailbox + added)[i] in added
  {
    assert (mailbox + added)[i] == added[i - |mailbox|];
  }

  /** An iteration that reports no success adds none to the mailbox. */
  lemma NothingToRead(t: Timed, input: Input, i: nat)
    requires input.TurnStep? && !ReportsSuccess(t.sys.turn, StepOf(input)) && Unread(Stepped(t, input), i)
    ensures Unread(t, i)
  {
    StepAdds(t, input);
    AddsNoSuccess(t.sys.turn, StepOf(input));
    OldLetter(t.sys.mailbox, Adds(t.sys.turn, StepOf(input)), i);
  }

  lemma SteppedCovered(t: Timed, input: Input, lags: Lags)
    requires Synced(t) && Covered(t, lags) && input.TurnStep? && CanStep(t, input)
    requires StepInTime(t, Do(input), lags)
    ensures Covered(Stepped(t, input), lags)
  {
    if t.deadline.Some? {
      var turn, step, u := t.sys.turn, StepOf(input), Stepped(t, input);
      StepAdds(t, input);
      StepFacts(turn, step);
      if SomeUnread(t) {
        var i: nat :| ReadEarly(t, i, t.deadline.value, lags);
        StillUnread(t, u, i);
        assert ReadEarly(u, i, t.deadline.value, lags);
      } else if ReportsSuccess(turn, step) {
        AddsTheSuccess(turn, step);
        RunsWhenReporting(t, input);
        assert ReadEarly(u, |t.sys.mailbox|, t.deadline.value, lags);
      } else if SomeUnread(u) {
        var i: nat :| Unread(u, i);
        NothingToRead(t, input, i);
      }
      if t.stage.Waiting? {
        EofEnds(turn, step);
      }
    }
  }

  lemma RunsWhenReporting(t: Timed, input: Input)
    requires input.TurnStep? && CanStep(t, input) && ReportsSuccess(t.sys.turn, StepOf(input))
    ensures t.stage.Running?
  {
  }

  /** Where a letter is after the `i`th was taken out. */
  function Shifted(j: nat, i: nat): nat
    requires j != i
  {
    if j < i then j else j - 1
  }

  lemma StaysAt<T>(s: seq<T>, i: nat, j: nat)
    requires i < |s| && j < |s| && j != i
    ensures Shifted(j, i) < |s[..i] + s[i + 1..]| && (s[..i] + s[i + 1..])[Shifted(j, i)] == s[j]
  {
  }

  lemma LetterStays(t: Timed, i: nat, j: nat)
    requires i < |t.sys.mailbox| == |t.arrived| && j != i && j < |t.arrived|
    ensures var u, k := Delivered(t, i), Shifted(j, i);
      k < |u.sys.mailbox| && k < |u.arrived| && u.sys.mailbox[k] == t.sys.mailbox[j] && u.arrived[k] == t.arrived[j]
  {
    DeliveredIs(t, i);
    StaysAt(t.sys.mailbox, i, j);
    StaysAt(t.arrived, i, j);
  }

  lemma LetterWas(t: Timed, i: nat, k: nat)
    requires i < |t.sys.mailbox| == |t.arrived| && Unread(Delivered(t, i), k)
    ensures Unread(t, if k < i then k else k + 1)
  {
    DeliveredIs(t, i);
  }

  /** Taking out a letter that is no success leaves the unread ones as they are. */
  lemma OtherDelivered(t: Timed, i: nat, deadline: Time, lags: Lags)
    requires i < |t.sys.mailbox| == |t.arrived| && !IsSuccess(t.sys.mailbox[i].how)
    ensures SomeUnread(Delivered(t, i)) ==> SomeUnread(t)
    ensures (exists j :: ReadEarly(t, j, deadline, lags)) ==> exists k :: ReadEarly(Delivered(t, i), k, deadline, lags)
  {
    var u := Delivered(t, i);
    if j: nat :| ReadEarly(t, j, deadline, lags) {
      LetterStays(t, i, j);
      assert ReadEarly(u, Shifted(j, i), deadline, lags);
    }
    if k: nat :| Unread(u, k) {
      LetterWas(t, i, k);
    }
  }

  lemma UnreadStays(t: Timed, i: nat)
    requires i < |t.sys.mailbox| == |t.arrived| && !IsSuccess(t.sys.mailbox[i].how) && SomeUnread(t)
    ensures SomeUnread(Delivered(t, i))
  {
    var j: nat :| Unread(t, j);
    LetterStays(t, i, j);
    assert Unread(Delivered(t, i), Shifted(j, i));
  }

  lemma DeliveredCovered(t: Timed, i: nat, lags: Lags)
    requires Synced(t) && Covered(t, lags) && i < |t.sys.mailbox|
    ensures Covered(Delivered(t, i), lags)
  {
    var u := Delivered(t, i);
    DeliveredIs(t, i);
    if t.deadline.Some? {
      if IsSuccess(t.sys.mailbox[i].how) {
        DeliveredSynced(t, i);
        FreshCovers(u, u.deadline.value, lags);
      } else {
        OtherDelivered(t, i, t.deadline.value, lags);
        if SomeUnread(t) {
          UnreadStays(t, i);
        }
      }
    }
  }

  lemma DispatchedCovered(t: Timed, h: Happening, lags: Lags)
    requires Synced(t) && h.Dispatch?
    ensures Covered(Dispatched(t, h), lags)
  {
    DispatchedSynced(t, h);
    FreshCovers(Dispatched(t, h), FreshDeadline(t), lags);
  }

  lemma BegunCovered(t: Timed, h: Happening, lags: Lags)
    requires Synced(t) && Covered(t, lags) && h.Begin? && Legal(t, h) && StepInTime(t, h, lags)
    ensures Covered(Begun(t, h), lags)
  {
    var x := NewTurn(Gap(t) + h.writing, SettingsOf(t, h.expectedId), t.now + t.limits.maxTurn, h.nextId, h.activeRun);
    NewTurnIs(t.sys, x);
    var u := Begun(t, h);
    if t.deadline.Some? {
      assert u.sys.mailbox == t.sys.mailbox && u.arrived == t.arrived;
      assert forall i :: Unread(u, i) <==> Unread(t, i);
      if SomeUnread(u) {
        var i: nat :| ReadEarly(t, i, t.deadline.value, lags);
        assert ReadEarly(u, i, t.deadline.value, lags);
      }
    }
  }

  /** Neither the clock's going on nor an event's coming in changes what is covered. */
  lemma SameCovered(t: Timed, u: Timed, lags: Lags)
    requires Covered(t, lags) && u.deadline == t.deadline && u.sys.mailbox == t.sys.mailbox && u.arrived == t.arrived
    requires u.stage == t.stage && u.dispatched == t.dispatched && u.limits == t.limits
    requires u.sys.turn.result == t.sys.turn.result && u.sys.turn.time == t.sys.turn.time
    ensures Covered(u, lags)
  {
    if t.deadline.Some? {
      assert forall i :: Unread(u, i) <==> Unread(t, i);
      if SomeUnread(u) {
        var i: nat :| ReadEarly(t, i, t.deadline.value, lags);
        assert ReadEarly(u, i, t.deadline.value, lags);
      }
    }
  }

  lemma DoCovered(t: Timed, input: Input, lags: Lags)
    requires Covered(t, lags) && (Bulk(input) || input.Post?)
    ensures Covered(t.(sys := After(t.sys, input)), lags)
  {
    if input.Post? {
      PostTurn(t.sys, input.id);
    } else {
      BulkIs(t.sys, input);
    }
    SameCovered(t, t.(sys := After(t.sys, input)), lags);
  }

  lemma {:induction false} HappenCovered(t: Timed, h: Happening, lags: Lags)
    requires Synced(t) && Covered(t, lags) && StepInTime(t, h, lags)
    ensures Covered(Happen(t, h), lags)
  {
    if Legal(t, h) {
      match h
      case Elapse(time) => SameCovered(t, t.(now := t.now + time), lags);
      case Do(Deliver(i)) => DeliveredCovered(t, i, lags);
      case Do(TurnStep(_, _, _, _)) => SteppedCovered(t, h.input, lags);
      case Do(Expire) =>
      case Do(input) => DoCovered(t, input, lags);
      case Dispatch(_, _, _) => DispatchedCovered(t, h, lags);
      case Begin(_, _, _, _) => BegunCovered(t, h, lags);
      case _ =>
    }
  }

  lemma {:induction false} TimelineCovered(t: Timed, hs: seq<Happening>, lags: Lags)
    requires Opening(t) && OnSchedule(t, hs, lags)
    ensures Synced(Timeline(t, hs)) && Covered(Timeline(t, hs), lags) && AcksInTime(Timeline(t, hs), lags)
    decreases hs
  {
    TimelineSynced(t, hs);
    if hs != [] {
      TimelineSynced(t, hs[..|hs| - 1]);
      TimelineCovered(t, hs[..|hs| - 1], lags);
      HappenCovered(Timeline(t, hs[..|hs| - 1]), hs[|hs| - 1], lags);
    }
  }

  // ------------------------------------------------------- what an expiry can meet

  /** The request cannot succeed within the lags any more. */
  predicate TooLate(t: Timed, lags: Lags) {
    match t.stage
    case Idle => false
    case Waiting => t.now > t.dispatched + lags.start
    case Running => t.now > t.sys.turn.time.hardDeadline + lags.wake
  }

  predicate Dead(t: Timed, id: EventId, lags: Lags) {
    && (forall i :: 0 <= i < |t.sys.mailbox| && Unread(t, i) ==> t.sys.mailbox[i].req != id)
    && (Holds(t.sys.turn.steer, id) ==> TooLate(t, lags))
  }

  lemma UnreadMeansNotDue(t: Timed, lags: Lags)
    requires Covered(t, lags) && AcksInTime(t, lags) && SomeUnread(t)
    requires lags.start + lags.wake + lags.ack < BUFFER
    ensures !Due(t)
  {
    if t.deadline.Some? {
      var i: nat :| ReadEarly(t, i, t.deadline.value, lags);
      assert t.now <= t.arrived[i] + lags.ack;
    }
  }

  /** Within lags that add up to less than the buffer, what a passed deadline leaves behind is dead. */
  lemma DueMeansDead(t: Timed, id: EventId, lags: Lags)
    requires Synced(t) && Settled(t.sys.turn) && Covered(t, lags) && AcksInTime(t, lags) && Due(t)
    requires lags.start + lags.wake + lags.ack < BUFFER
    ensures Dead(t, id, lags)
  {
    if SomeUnread(t) {
      UnreadMeansNotDue(t, lags);
    }
    if Holds(t.sys.turn.steer, id) && t.sys.turn.result.Some? {
      EndedHoldsNothing(t.sys.turn, id);
    }
  }

  lemma SuccessInTime(t: Timed, input: Input, lags: Lags)
    requires input.TurnStep? && CanStep(t, input) && StepInTime(t, Do(input), lags)
    requires ReportsSuccess(t.sys.turn, StepOf(input))
    ensures !TooLate(t, lags)
  {
    RunsWhenReporting(t, input);
  }

  lemma ReportsOwn(t: Turn, step: Step)
    requires ReportsSuccess(t, step)
    ensures Carries(t.steer, Verdict(t, step).value.req)
  {
  }

  lemma SteppedMail(t: Timed, input: Input, id: EventId, lags: Lags)
    requires input.TurnStep? && CanStep(t, input) && StepInTime(t, Do(input), lags) && Dead(t, id, lags)
    ensures var u := Stepped(t, input);
      forall i :: 0 <= i < |u.sys.mailbox| && Unread(u, i) ==> u.sys.mailbox[i].req != id
  {
    var u, turn, step := Stepped(t, input), t.sys.turn, StepOf(input);
    StepAdds(t, input);
    forall i | 0 <= i < |u.sys.mailbox| && Unread(u, i) ensures u.sys.mailbox[i].req != id {
      if i < |t.sys.mailbox| {
        assert Unread(t, i);
      } else if ReportsSuccess(turn, step) {
        AddsTheSuccess(turn, step);
        ReportsOwn(turn, step);
        SuccessInTime(t, input, lags);
      } else {
        NothingToRead(t, input, i);
      }
    }
  }

  lemma SteppedDead(t: Timed, input: Input, id: EventId, lags: Lags)
    requires Accounted(t.sys) && Dead(t, id, lags)
    requires input.TurnStep? && CanStep(t, input) && StepInTime(t, Do(input), lags)
    ensures Dead(Stepped(t, input), id, lags) && Stepped(t, input).sys.removed == t.sys.removed
  {
    var turn, step, u := t.sys.turn, StepOf(input), Stepped(t, input);
    SteppedMail(t, input, id, lags);
    StepAdds(t, input);
    StepFacts(turn, step);
    AfterAccounted(t.sys, input);
    if Holds(u.sys.turn.steer, id) {
      StepHolds(turn, step, id);
      if ReportsSuccess(turn, step) {
        SuccessInTime(t, input, lags);
      }
    }
  }

  lemma TakenRemoves(s: Sys, i: nat, id: EventId)
    requires i < |s.mailbox| && (IsSuccess(s.mailbox[i].how) ==> s.mailbox[i].req != id)
    ensures After(s, Deliver(i)).removed[id] == s.removed[id]
  {
    DeliverIs(s, i);
    TakeMailFields(s, i);
  }

  lemma DeliveredDead(t: Timed, i: nat, id: EventId, lags: Lags)
    requires i < |t.sys.mailbox| == |t.arrived| && Dead(t, id, lags)
    ensures Dead(Delivered(t, i), id, lags) && Delivered(t, i).sys.removed[id] == t.sys.removed[id]
  {
    var u := Delivered(t, i);
    DeliveredIs(t, i);
    assert IsSuccess(t.sys.mailbox[i].how) ==> Unread(t, i);
    TakenRemoves(t.sys, i, id);
    forall k | 0 <= k < |u.sys.mailbox| && Unread(u, k) ensures u.sys.mailbox[k].req != id {
      LetterWas(t, i, k);
    }
  }

  /** What leaves the mailbox alone and holds no more than before keeps the dead dead. */
  lemma SameDead(t: Timed, u: Timed, id: EventId, lags: Lags)
    requires Dead(t, id, lags) && u.sys.mailbox == t.sys.mailbox
    requires Holds(u.sys.turn.steer, id) ==> Holds(t.sys.turn.steer, id) && TooLate(u, lags)
    ensures Dead(u, id, lags)
  {
    assert forall i :: Unread(u, i) <==> Unread(t, i);
  }

  lemma PostHolds(s: Sys, x: EventId, id: EventId)
    requires x != id
    ensures Holds(After(s, Post(x)).turn.steer, id) <==> Holds(s.turn.steer, id)
  {
  }

  lemma DoDead(t: Timed, input: Input, id: EventId, lags: Lags)
    requires Dead(t, id, lags) && input != Post(id) && (Bulk(input) || input.Post?)
    ensures var u := t.(sys := After(t.sys, input));
      Dead(u, id, lags) && u.sys.removed == t.sys.removed
  {
    if input.Post? {
      PostTurn(t.sys, input.id);
      PostHolds(t.sys, input.id, id);
    } else {
      BulkIs(t.sys, input);
    }
    SameDead(t, t.(sys := After(t.sys, input)), id, lags);
  }

  lemma DispatchedDead(t: Timed, h: Happening, id: EventId, lags: Lags)
    requires Synced(t) && Settled(t.sys.turn) && Dead(t, id, lags) && h.Dispatch?
    ensures Dead(Dispatched(t, h), id, lags) && Dispatched(t, h).sys.removed == t.sys.removed
  {
    var flushed := After(t.sys, FlushBatch);
    BulkIs(t.sys, FlushBatch);
    if t.stage.Idle? {
      EndedHoldsNothing(t.sys.turn, id);
      NewTurnIs(flushed, TurnOf(t, h));
    }
    SameDead(t, Dispatched(t, h), id, lags);
  }

  lemma BegunDead(t: Timed, h: Happening, id: EventId, lags: Lags)
    requires Synced(t) && Dead(t, id, lags) && h.Begin? && Legal(t, h) && StepInTime(t, h, lags)
    ensures Dead(Begun(t, h), id, lags) && Begun(t, h).sys.removed == t.sys.removed
  {
    NewTurnIs(t.sys, NewTurn(Gap(t) + h.writing, SettingsOf(t, h.expectedId), t.now + t.limits.maxTurn,
                             h.nextId, h.activeRun));
    SameDead(t, Begun(t, h), id, lags);
  }

  /** A steer that can no longer succeed within the lags never does. */
  lemma {:induction false} HappenDead(t: Timed, h: Happening, id: EventId, lags: Lags)
    requires Synced(t) && Accounted(t.sys) && Dead(t, id, lags) && StepInTime(t, h, lags) && h != Do(Post(id))
    ensures Dead(Happen(t, h), id, lags) && Happen(t, h).sys.removed[id] == t.sys.removed[id]
  {
    if Legal(t, h) {
      match h
      case Elapse(time) => SameDead(t, t.(now := t.now + time), id, lags);
      case Do(Deliver(i)) => DeliveredDead(t, i, id, lags);
      case Do(TurnStep(_, _, _, _)) => SteppedDead(t, h.input, id, lags);
      case Do(Expire) => DoDead(t, Expire, id, lags);
      case Do(input) => DoDead(t, input, id, lags);
      case Dispatch(_, _, _) => DispatchedDead(t, h, id, lags);
      case Begin(_, _, _, _) => BegunDead(t, h, id, lags);
      case Finish => EndedHoldsNothing(t.sys.turn, id);
      case FinishOther => SameDead(t, Happen(t, h), id, lags);
    }
  }

  // ------------------------------------------------- one delivery within the lags

  lemma TimelineBooks(t: Timed, hs: seq<Happening>)
    requires Opening(t)
    ensures Accounted(Timeline(t, hs).sys) && Booked(Timeline(t, hs).sys.store)
  {
    var inputs := TimelineIsTrace(t, hs);
    OneActionPerSteer(t.sys, inputs);
    EventsConserved(t.sys, inputs);
  }

  lemma HappenGrows(t: Timed, h: Happening, id: EventId)
    ensures t.sys.store.posted[id] <= Happen(t, h).sys.store.posted[id]
    ensures t.sys.store.lost[id] <= Happen(t, h).sys.store.lost[id]
  {
    HappenIsTrace(t, h);
    TraceGrows(t.sys, InputsOf(t, h), id);
  }

  /** No expiry now that finds the event withheld. */
  predicate Passes(t: Timed, h: Happening, id: EventId) {
    h == Do(Expire) && Due(t) ==> id !in t.sys.store.lane.withheld
  }

  lemma DispatchedPlaced(t: Timed, h: Happening, id: EventId)
    requires Accounted(t.sys) && Placed(t.sys, id) && t.sys.store.posted[id] <= 1 && h.Dispatch?
    ensures Placed(Dispatched(t, h).sys, id)
  {
    var flushed := After(t.sys, FlushBatch);
    AfterPlaced(t.sys, FlushBatch, id);
    AfterAccounted(t.sys, FlushBatch);
    BulkIs(t.sys, FlushBatch);
    if t.stage.Idle? {
      AfterPlaced(flushed, TurnOf(t, h), id);
    }
  }

  lemma DoIs(t: Timed, input: Input)
    requires Legal(t, Do(input))
    ensures Happen(t, Do(input)).sys == After(t.sys, input)
  {
  }

  lemma DoPlaced(t: Timed, input: Input, id: EventId)
    requires Accounted(t.sys) && Placed(t.sys, id) && t.sys.store.posted[id] <= 1
    requires Legal(t, Do(input)) && Passes(t, Do(input), id)
    ensures Placed(Happen(t, Do(input)).sys, id)
  {
    DoIs(t, input);
    AfterPlaced(t.sys, input, id);
  }

  lemma BegunPlaced(t: Timed, h: Happening, id: EventId)
    requires Accounted(t.sys) && Placed(t.sys, id) && t.sys.store.posted[id] <= 1 && h.Begin?
    ensures Placed(Begun(t, h).sys, id)
  {
    AfterPlaced(t.sys, NewTurn(Gap(t) + h.writing, SettingsOf(t, h.expectedId), t.now + t.limits.maxTurn,
                               h.nextId, h.activeRun), id);
  }

  lemma {:induction false} HappenPlaced(t: Timed, h: Happening, id: EventId)
    requires Accounted(t.sys) && Placed(t.sys, id) && t.sys.store.posted[id] <= 1 && Passes(t, h, id)
    ensures Placed(Happen(t, h).sys, id)
  {
    if Legal(t, h) {
      match h
      case Do(input) => DoPlaced(t, input, id);
      case Dispatch(_, _, _) => DispatchedPlaced(t, h, id);
      case Begin(_, _, _, _) => BegunPlaced(t, h, id);
      case _ =>
    }
  }

  /** Where the event is; or its steer is dead, and no removal has been or will be. */
  predicate Safe(t: Timed, id: EventId, lags: Lags) {
    Placed(t.sys, id) || (Dead(t, id, lags) && id !in t.sys.removed && t.sys.store.posted[id] >= 1)
  }

  lemma WithheldIsOnlyThere(s: Sys, id: EventId)
    requires Booked(s.store) && Placed(s, id) && s.store.posted[id] <= 1 && id in s.store.lane.withheld
    ensures s.store.posted[id] == 1 && id !in s.removed
  {
    var w := s.store;
    assert multiset(w.lane.withheld)[id] > 0;
    assert w.posted[id] == Contents(w.lane)[id] + w.flushed[id] + w.delivered[id] + w.lost[id];
  }

  lemma PostedAgain(t: Timed, id: EventId)
    requires Legal(t, Do(Post(id)))
    ensures Happen(t, Do(Post(id))).sys.store.posted[id] == t.sys.store.posted[id] + 1
  {
    PostIs(t.sys, id);
  }

  lemma DeadSafe(t: Timed, h: Happening, id: EventId, lags: Lags)
    requires Synced(t) && Accounted(t.sys) && StepInTime(t, h, lags)
    requires Dead(t, id, lags) && id !in t.sys.removed && t.sys.store.posted[id] >= 1
    requires Happen(t, h).sys.store.posted[id] <= 1
    ensures Safe(Happen(t, h), id, lags)
  {
    HappenGrows(t, h, id);
    if h == Do(Post(id)) {
      if Legal(t, h) {
        PostedAgain(t, id);
      }
    } else {
      HappenDead(t, h, id, lags);
      assert Happen(t, h).sys.removed[id] == 0;
    }
  }

  lemma HappenSafe(t: Timed, h: Happening, id: EventId, lags: Lags)
    requires Synced(t) && Accounted(t.sys) && Booked(t.sys.store) && Covered(t, lags) && AcksInTime(t, lags)
    requires StepInTime(t, h, lags) && lags.start + lags.wake + lags.ack < BUFFER
    requires Safe(t, id, lags) && Happen(t, h).sys.store.posted[id] <= 1
    ensures Safe(Happen(t, h), id, lags)
  {
    HappenGrows(t, h, id);
    if !Placed(t.sys, id) {
      DeadSafe(t, h, id, lags);
    } else if Passes(t, h, id) {
      HappenPlaced(t, h, id);
    } else {
      WithheldIsOnlyThere(t.sys, id);
      DueMeansDead(t, id, lags);
      DeadSafe(t, h, id, lags);
    }
  }

  lemma {:induction false} SafeAlways(t: Timed, hs: seq<Happening>, id: EventId, lags: Lags)
    requires Opening(t) && OnSchedule(t, hs, lags) && lags.start + lags.wake + lags.ack < BUFFER
    requires Timeline(t, hs).sys.store.posted[id] <= 1
    ensures Safe(Timeline(t, hs), id, lags)
    decreases hs
  {
    if hs == [] {
      var inputs: seq<Input> := [];
      PlacedAlways(t.sys, inputs, id);
    } else {
      var n := |hs| - 1;
      HappenGrows(Timeline(t, hs[..n]), hs[n], id);
      SafeAlways(t, hs[..n], id, lags);
      TimelineCovered(t, hs[..n], lags);
      TimelineBooks(t, hs[..n]);
      HappenSafe(Timeline(t, hs[..n]), hs[n], id, lags);
    }
  }

  /**
   * An expiry never meets a steer that can still succeed: in a run whose prompts start,
   * whose success replies are read and handled within lags that add up to less than a
   * hundred seconds, once the deadline has passed no success is unhandled and none can
   * still be read.
   */
  lemma {:induction false} ExpiryMeetsNoLiveSteer(t: Timed, hs: seq<Happening>, id: EventId, lags: Lags)
    requires Opening(t) && OnSchedule(t, hs, lags) && lags.start + lags.wake + lags.ack < BUFFER
    requires Due(Timeline(t, hs))
    ensures Dead(Timeline(t, hs), id, lags)
  {
    TimelineCovered(t, hs, lags);
    TimelineBooks(t, hs);
    DueMeansDead(Timeline(t, hs), id, lags);
  }

  /** So in such a run, expiries included, no event posted once reaches the agent twice. */
  lemma {:induction false} OnceOnSchedule(t: Timed, hs: seq<Happening>, id: EventId, lags: Lags)
    requires Opening(t) && OnSchedule(t, hs, lags) && lags.start + lags.wake + lags.ack < BUFFER
    requires Timeline(t, hs).sys.store.posted[id] <= 1
    ensures !DeliveredTwice(Timeline(t, hs).sys, id)
  {
    SafeAlways(t, hs, id, lags);
    TimelineBooks(t, hs);
    if Placed(Timeline(t, hs).sys, id) {
      PlacedOnce(Timeline(t, hs).sys, id);
    }
  }
}
