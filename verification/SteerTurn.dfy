/** The read loop of one prompt turn (`read_until_response_with_idle_timeout`). */
module SteerTurn {
  // It interleaves agent lines, at most one in-flight native steer, and two deadlines.
  // One `Step` is either the main loop offering a steer request to the capacity-one
  // channel, or one iteration of the loop: a clock reading at the top, what `select!`
  // woke up with, and the clock readings taken while handling it. Readings are given
  // as increments, so every script of steps is a run with a non-decreasing clock.
  // Times are in nanoseconds.

  import opened Prelude

  type Time = nat
  type Req = nat

  /** The `id` member of a JSON-RPC message; only a number can equal a request id. */
  datatype JsonId = IdNumber(n: nat) | IdOther

  datatype RunUpdate = KeepRun | SetRun(run: nat) | ClearRun

  /**
   * The `method` member of a message, with what handling it comes to: `replied` says that
   * an answer was found and written.
   */
  datatype Method =
    | Absent
    | NotText
    | SessionUpdate(toolCall: bool, run: RunUpdate)
    | GooseUsage
    | Permission(replied: bool)
    | Unknown(replied: bool)

  /** A valid JSON line. `error` is the error code when an `error` member is present. */
  datatype Message = Message(id: Option<JsonId>, verb: Method, error: Option<int>)

  datatype Line = Blank | Garbage | Parsed(message: Message)

  datatype Wake =
    | Read(line: Line)
    | Steer(written: bool)
    | Slept
    | Eof
    | TooLong
    | ReadFailed

  datatype Step =
    | Offer(req: Req)
    | Iterate(beforeTop: nat, beforeWake: nat, handling: nat, wake: Wake)

  /** What the read loop sends through a request's oneshot. */
  datatype Ack = Success | AgentError(code: int) | Transport | RunIdMissing | Neutral

  /** Each request is resolved by an ack or by its sender being dropped. */
  datatype Resolution = Acked(ack: Ack) | SenderDropped

  datatype Outcome = Replied | AgentFailed | IdleTimeout | HardTimeout | AgentExited | Broken

  datatype Pending = Pending(id: nat, req: Req)

  datatype Resolved = Resolved(req: Req, how: Resolution)

  datatype Settings = Settings(expectedId: nat, idle: nat, maxDuration: nat)

  /** Clock, deadlines and the client's copy of the hard one; `renewals` and `lastLine` are history. */
  datatype Clocks = Clocks(
    now: Time, idleDeadline: Time, hardDeadline: Time, lastActivity: Time, clientHard: Option<Time>,
    renewals: seq<Time>, lastLine: Time)

  /** The steering state; `accepted`, `written` and `resolved` are history. */
  datatype Steering = Steering(
    channel: Option<Req>, pending: Option<Pending>, nextId: nat, activeRun: Option<nat>,
    accepted: seq<Req>, written: seq<Pending>, resolved: seq<Resolved>)

  datatype Turn = Turn(settings: Settings, time: Clocks, steer: Steering, result: Option<Outcome>)

  // -------------------------------------------------------------------- steering

  function Resolve(s: Steering, req: Req, how: Resolution): Steering {
    s.(resolved := s.resolved + [Resolved(req, how)])
  }

  function ResolvePending(s: Steering, how: Resolution): Steering {
    if s.pending.Some? then Resolve(s, s.pending.value.req, how).(pending := None) else s
  }

  /** Leaving scope drops the receiver, and with it a request still in the channel. */
  function DropChannel(s: Steering): Steering {
    if s.channel.Some? then Resolve(s, s.channel.value, SenderDropped).(channel := None) else s
  }

  /** What becomes of the pending steer and of the channel when the loop is left. */
  function Leave(s: Steering, how: Resolution): Steering {
    DropChannel(ResolvePending(s, how))
  }

  /** `try_send` on the capacity-one channel. */
  function Receive(s: Steering, req: Req): Steering {
    if s.channel.Some? then s else s.(channel := Some(req), accepted := s.accepted + [req])
  }

  /** The steer arm: params are completed at write time from the freshest run id. */
  function WriteSteer(s: Steering, written: bool): Steering {
    if s.pending.Some? || s.channel.None? then s
    else
      var req, s := s.channel.value, s.(channel := None);
      if s.activeRun.None? then Resolve(s, req, Acked(RunIdMissing))
      else
        var p := Pending(s.nextId, req);
        var s := s.(nextId := s.nextId + 1);
        if written then s.(pending := Some(p), written := s.written + [p])
        else Resolve(s, req, Acked(Transport))
  }

  function SetActiveRun(s: Steering, run: RunUpdate): Steering {
    match run
    case KeepRun => s
    case SetRun(r) => s.(activeRun := Some(r))
    case ClearRun => s.(activeRun := None)
  }

  // ------------------------------------------------------------------- deadlines

  function IdleFirst(c: Clocks): bool {
    c.idleDeadline < c.hardDeadline
  }

  function NextDeadline(c: Clocks): Time {
    if IdleFirst(c) then c.idleDeadline else c.hardDeadline
  }

  function Pass(c: Clocks, elapsed: nat): Clocks {
    c.(now := c.now + elapsed)
  }

  function Active(c: Clocks, idle: nat): Clocks {
    c.(idleDeadline := c.now + idle, lastActivity := c.now)
  }

  /** A successful steer grants the turn a fresh budget, never a smaller one. */
  function Renew(c: Clocks, maxDuration: nat): Clocks {
    var hard := c.now + maxDuration;
    var c := c.(renewals := c.renewals + [c.now]);
    if hard > c.hardDeadline then c.(hardDeadline := hard, clientHard := Some(hard)) else c
  }

  // -------------------------------------------------------------------- the loop

  /** A return that first drains the pending steer. */
  function Return(t: Turn, outcome: Outcome): Turn {
    t.(steer := Leave(t.steer, Acked(Neutral)), result := Some(outcome))
  }

  /** A `?` exit: the pending steer's sender is dropped without an ack. */
  function Bail(t: Turn): Turn {
    t.(steer := Leave(t.steer, SenderDropped), result := Some(Broken))
  }

  function TimeOut(t: Turn): Turn {
    Return(t, if IdleFirst(t.time) then IdleTimeout else HardTimeout)
  }

  predicate IsReplyTo(m: Message, id: nat) {
    m.id == Some(IdNumber(id)) && m.verb == Absent
  }

  predicate IsSteerReply(t: Turn, m: Message) {
    t.steer.pending.Some? && IsReplyTo(m, t.steer.pending.value.id)
  }

  /** A notification or a request of the agent. */
  function Dispatch(t: Turn, m: Message): Turn {
    match m.verb
    case SessionUpdate(toolCall, run) =>
      t.(steer := SetActiveRun(t.steer, run),
         time := if toolCall then Active(t.time, t.settings.idle) else t.time)
    case Permission(replied) => if replied then t else Bail(t)
    case Unknown(replied) => if m.id.None? || replied then t else Bail(t)
    case _ => t
  }

  /** A valid JSON line; steer replies are told from the prompt's by their id. */
  function HandleMessage(t: Turn, handling: nat, m: Message): Turn {
    var seen := Active(t.time, t.settings.idle).(lastLine := t.time.now);
    var t := t.(time := Pass(seen, handling));
    if IsSteerReply(t, m) then
      if m.error.Some? then t.(steer := ResolvePending(t.steer, Acked(AgentError(m.error.value))))
      else t.(steer := ResolvePending(t.steer, Acked(Success)), time := Renew(t.time, t.settings.maxDuration))
    else if IsReplyTo(m, t.settings.expectedId) then
      Return(t, if m.error.Some? then AgentFailed else Replied)
    else Dispatch(t, m)
  }

  function HandleWake(t: Turn, handling: nat, wake: Wake): Turn {
    match wake
    case Read(Parsed(m)) => HandleMessage(t, handling, m)
    case Read(_) => t
    case Steer(written) => t.(steer := WriteSteer(t.steer, written))
    case Slept => TimeOut(t.(time := t.time.(now := Max(t.time.now, NextDeadline(t.time)))))
    case Eof => Return(t, AgentExited)
    case TooLong => Return(t, Broken)
    case ReadFailed => Return(t, Broken)
  }

  function Iteration(t: Turn, beforeTop: nat, beforeWake: nat, handling: nat, wake: Wake): Turn {
    var t := t.(time := Pass(t.time, beforeTop));
    if t.time.now >= NextDeadline(t.time) then TimeOut(t)
    else HandleWake(t.(time := Pass(t.time, beforeWake)), handling, wake)
  }

  function Next(t: Turn, s: Step): Turn {
    if t.result.Some? then t
    else
      match s
      case Offer(req) => t.(steer := Receive(t.steer, req))
      case Iterate(beforeTop, beforeWake, handling, wake) => Iteration(t, beforeTop, beforeWake, handling, wake)
  }

  function Run(t: Turn, steps: seq<Step>): Turn {
    if steps == [] then t else Next(Run(t, steps[..|steps| - 1]), steps[|steps| - 1])
  }

  /** The loop on entry: the prompt was just written; the channel may already hold a request. */
  function Start(settings: Settings, now: Time, hard: Time, clientHard: Option<Time>,
                 channel: Option<Req>, nextId: nat, activeRun: Option<nat>): Turn
  {
    Turn(settings,
         Clocks(now, now + settings.idle, hard, now, clientHard, [], now),
         Steering(channel, None, nextId, activeRun,
                  if channel.Some? then [channel.value] else [], [], []),
         None)
  }

  // ------------------------------------------------------------ exactly-once resolution

  function ReqsOf(rs: seq<Resolved>): seq<Req> {
    seq(|rs|, i requires 0 <= i < |rs| => rs[i].req)
  }

  /** Requests accepted and not yet resolved: at most one waiting, at most one in flight. */
  function Held(s: Steering): multiset<Req> {
    (if s.channel.Some? then multiset{s.channel.value} else multiset{})
    + (if s.pending.Some? then multiset{s.pending.value.req} else multiset{})
  }

  /** Every accepted request is held or resolved, counted once each. */
  predicate Conserved(s: Steering) {
    multiset(s.accepted) == multiset(ReqsOf(s.resolved)) + Held(s)
  }

  lemma ResolveAdds(s: Steering, req: Req, how: Resolution)
    ensures multiset(ReqsOf(Resolve(s, req, how).resolved)) == multiset(ReqsOf(s.resolved)) + multiset{req}
  {
    assert ReqsOf(s.resolved + [Resolved(req, how)]) == ReqsOf(s.resolved) + [req];
  }

  lemma ResolvePendingConserves(s: Steering, how: Resolution)
    requires Conserved(s)
    ensures Conserved(ResolvePending(s, how)) && ResolvePending(s, how).pending.None?
  {
    if s.pending.Some? {
      ResolveAdds(s, s.pending.value.req, how);
    }
  }

  lemma DropChannelConserves(s: Steering)
    requires Conserved(s) && s.pending.None?
    ensures Conserved(DropChannel(s)) && Held(DropChannel(s)) == multiset{}
  {
    if s.channel.Some? {
      ResolveAdds(s, s.channel.value, SenderDropped);
    }
  }

  lemma LeaveConserves(s: Steering, how: Resolution)
    requires Conserved(s)
    ensures Conserved(Leave(s, how)) && Held(Leave(s, how)) == multiset{}
  {
    ResolvePendingConserves(s, how);
    DropChannelConserves(ResolvePending(s, how));
  }

  lemma WriteSteerConserves(s: Steering, written: bool)
    requires Conserved(s)
    ensures Conserved(WriteSteer(s, written))
  {
    if s.pending.None? && s.channel.Some? {
      ResolveAdds(s.(channel := None), s.channel.value, Acked(RunIdMissing));
      ResolveAdds(s.(channel := None, nextId := s.nextId + 1), s.channel.value, Acked(Transport));
    }
  }

  /** The ways one step can touch the steering state. */
  datatype Move =
    | Keep
    | SetsRun(run: RunUpdate)
    | Take(req: Req)
    | Send(written: bool)
    | Answer(how: Resolution)
    | Quit(how: Resolution)

  function Apply(s: Steering, move: Move): Steering {
    match move
    case Keep => s
    case SetsRun(run) => SetActiveRun(s, run)
    case Take(req) => Receive(s, req)
    case Send(written) => WriteSteer(s, written)
    case Answer(how) => ResolvePending(s, how)
    case Quit(how) => Leave(s, how)
  }

  predicate Drains(how: Resolution) {
    how == Acked(Neutral) || how == SenderDropped
  }

  /** The resolution a move reports other than by draining. */
  function Told(s: Steering, move: Move): Option<Resolved> {
    match move
    case Send(written) =>
      if s.pending.Some? || s.channel.None? then None
      else if s.activeRun.None? then Some(Resolved(s.channel.value, Acked(RunIdMissing)))
      else if written then None
      else Some(Resolved(s.channel.value, Acked(Transport)))
    case Answer(how) => if s.pending.Some? then Some(Resolved(s.pending.value.req, how)) else None
    case _ => None
  }

  /** The clock the top-of-loop check of this step reads. */
  function TopClock(t: Turn, s: Step): Time {
    t.time.now + (if s.Iterate? then s.beforeTop else 0)
  }

  predicate InTime(t: Turn, s: Step) {
    t.result.None? && s.Iterate? && TopClock(t, s) < NextDeadline(t.time)
  }

  /** The resolution a step reports on the wire's behalf, if any. */
  function Verdict(t: Turn, s: Step): Option<Resolved> {
    if !InTime(t, s) then None
    else if s.wake.Steer? && t.steer.pending.None? && t.steer.channel.Some? then
      if t.steer.activeRun.None? then Some(Resolved(t.steer.channel.value, Acked(RunIdMissing)))
      else if s.wake.written then None
      else Some(Resolved(t.steer.channel.value, Acked(Transport)))
    else if s.wake.Read? && s.wake.line.Parsed? && IsSteerReply(t, s.wake.line.message) then
      var error := s.wake.line.message.error;
      Some(Resolved(t.steer.pending.value.req, Acked(if error.Some? then AgentError(error.value) else Success)))
    else None
  }

  lemma MessageMove(t: Turn, handling: nat, m: Message) returns (move: Move)
    requires t.result.None?
    ensures HandleMessage(t, handling, m).steer == Apply(t.steer, move)
    ensures HandleMessage(t, handling, m).result.Some? <==> move.Quit?
    ensures !move.Take?
    ensures move.Quit? ==> Drains(move.how)
    ensures Told(t.steer, move) ==
      if IsSteerReply(t, m)
      then Some(Resolved(t.steer.pending.value.req,
                         Acked(if m.error.Some? then AgentError(m.error.value) else Success)))
      else None
  {
    if IsSteerReply(t, m) {
      move := Answer(Acked(if m.error.Some? then AgentError(m.error.value) else Success));
    } else if IsReplyTo(m, t.settings.expectedId) {
      move := Quit(Acked(Neutral));
    } else {
      match m.verb
      case SessionUpdate(_, run) => move := SetsRun(run);
      case Permission(replied) => move := if replied then Keep else Quit(SenderDropped);
      case Unknown(replied) => move := if m.id.None? || replied then Keep else Quit(SenderDropped);
      case _ => move := Keep;
    }
  }

  /** The loop returns exactly by leaving the steering scope, which drains what is left. */
  lemma {:induction false} NextMove(t: Turn, s: Step) returns (move: Move)
    requires t.result.None?
    ensures Next(t, s).steer == Apply(t.steer, move)
    ensures Next(t, s).result.Some? <==> move.Quit?
    ensures s.Iterate? ==> !move.Take?
    ensures move.Quit? ==> Drains(move.how)
    ensures Told(t.steer, move) == Verdict(t, s)
  {
    match s
    case Offer(req) => move := Take(req);
    case Iterate(beforeTop, beforeWake, handling, wake) =>
      var top := t.(time := Pass(t.time, beforeTop));
      if top.time.now >= NextDeadline(top.time) {
        move := Quit(Acked(Neutral));
      } else {
        match wake
        case Read(Parsed(m)) => move := MessageMove(top.(time := Pass(top.time, beforeWake)), handling, m);
        case Read(_) => move := Keep;
        case Steer(written) => move := Send(written);
        case _ => move := Quit(Acked(Neutral));
      }
  }

  lemma ReceiveConserves(s: Steering, req: Req)
    requires Conserved(s)
    ensures Conserved(Receive(s, req))
  {
    if s.channel.None? {
      assert Receive(s, req).resolved == s.resolved;
      assert Held(Receive(s, req)) == Held(s) + multiset{req};
    }
  }

  lemma SetActiveRunConserves(s: Steering, run: RunUpdate)
    requires Conserved(s)
    ensures Conserved(SetActiveRun(s, run))
  {
    assert Held(SetActiveRun(s, run)) == Held(s);
  }

  lemma SendConserves(s: Steering, written: bool)
    requires Conserved(s)
    ensures Conserved(Apply(s, Send(written)))
  {
    WriteSteerConserves(s, written);
  }

  lemma AnswerConserves(s: Steering, how: Resolution)
    requires Conserved(s)
    ensures Conserved(Apply(s, Answer(how)))
  {
    ResolvePendingConserves(s, how);
  }

  lemma QuitConserves(s: Steering, how: Resolution)
    requires Conserved(s)
    ensures Conserved(Apply(s, Quit(how)))
  {
    LeaveConserves(s, how);
  }

  lemma TakeConserves(s: Steering, req: Req)
    requires Conserved(s)
    ensures Conserved(Apply(s, Take(req)))
  {
    ReceiveConserves(s, req);
  }

  lemma SetsRunConserves(s: Steering, run: RunUpdate)
    requires Conserved(s)
    ensures Conserved(Apply(s, SetsRun(run)))
  {
    SetActiveRunConserves(s, run);
  }

  lemma ApplyConserves(s: Steering, move: Move)
    requires Conserved(s)
    ensures Conserved(Apply(s, move))
  {
    match move
    case Keep =>
    case SetsRun(run) => SetsRunConserves(s, run);
    case Take(req) => TakeConserves(s, req);
    case Send(written) => SendConserves(s, written);
    case Answer(how) => AnswerConserves(s, how);
    case Quit(how) => QuitConserves(s, how);
  }

  predicate Settled(t: Turn) {
    Conserved(t.steer) && (t.result.Some? ==> Held(t.steer) == multiset{})
  }

  lemma {:induction false} NextSettled(t: Turn, s: Step)
    requires Settled(t)
    ensures Settled(Next(t, s))
  {
    if t.result.None? {
      var move := NextMove(t, s);
      ApplyConserves(t.steer, move);
      if move.Quit? {
        LeaveConserves(t.steer, move.how);
      }
    }
  }

  /**
   * In every run each request the loop accepted is resolved at most once, at most one
   * is in flight and at most one waits; once the loop has returned, by whichever exit,
   * every one of them has been resolved exactly once.
   */
  lemma {:induction false} ResolvedExactlyOnce(t: Turn, steps: seq<Step>)
    requires Settled(t)
    ensures var u := Run(t, steps);
      && multiset(u.steer.accepted) == multiset(ReqsOf(u.steer.resolved)) + Held(u.steer)
      && (u.result.Some? ==> multiset(u.steer.accepted) == multiset(ReqsOf(u.steer.resolved)))
    ensures Settled(Run(t, steps))
    decreases steps
  {
    if steps != [] {
      ResolvedExactlyOnce(t, steps[..|steps| - 1]);
      NextSettled(Run(t, steps[..|steps| - 1]), steps[|steps| - 1]);
    }
  }

  // ---------------------------------------------------------------- one write at a time

  ghost predicate IsResolved(s: Steering, req: Req) {
    exists how :: Resolved(req, how) in s.resolved
  }

  /**
   * Request ids grow and never collide with the prompt's; the pending steer is the
   * last one written, and every earlier one has been resolved.
   */
  ghost predicate OneOutstanding(expectedId: nat, s: Steering) {
    && expectedId < s.nextId
    && (forall i :: 0 <= i < |s.written| ==> expectedId < s.written[i].id < s.nextId)
    && (forall i, j :: 0 <= i < j < |s.written| ==> s.written[i].id < s.written[j].id)
    && (s.pending.Some? ==> s.written != [] && s.written[|s.written| - 1] == s.pending.value)
    && (forall i :: 0 <= i < |s.written| && !(s.pending.Some? && i == |s.written| - 1) ==>
          IsResolved(s, s.written[i].req))
  }

  lemma ApplyOneOutstanding(expectedId: nat, s: Steering, move: Move)
    requires OneOutstanding(expectedId, s)
    ensures OneOutstanding(expectedId, Apply(s, move))
  {
    match move
    case Send(written) => WriteOneOutstanding(expectedId, s, written);
    case Answer(how) => AnswerOneOutstanding(expectedId, s, how);
    case Quit(how) =>
      AnswerOneOutstanding(expectedId, s, how);
      QuietOneOutstanding(expectedId, ResolvePending(s, how), Leave(s, how));
    case _ => QuietOneOutstanding(expectedId, s, Apply(s, move));
  }

  lemma QuietOneOutstanding(expectedId: nat, s: Steering, u: Steering)
    requires OneOutstanding(expectedId, s) && s.resolved <= u.resolved
    requires u.written == s.written && u.pending == s.pending && u.nextId == s.nextId
    ensures OneOutstanding(expectedId, u)
  {
    StillResolved(s, u);
  }

  /** Resolved requests stay resolved. */
  lemma StillResolved(s: Steering, u: Steering)
    requires s.resolved <= u.resolved
    ensures forall req :: IsResolved(s, req) ==> IsResolved(u, req)
  {
    forall req | IsResolved(s, req) ensures IsResolved(u, req) {
      var how :| Resolved(req, how) in s.resolved;
      assert Resolved(req, how) in u.resolved;
    }
  }

  lemma WriteOneOutstanding(expectedId: nat, s: Steering, written: bool)
    requires OneOutstanding(expectedId, s)
    ensures OneOutstanding(expectedId, WriteSteer(s, written))
  {
    StillResolved(s, WriteSteer(s, written));
  }

  lemma AnswerOneOutstanding(expectedId: nat, s: Steering, how: Resolution)
    requires OneOutstanding(expectedId, s)
    ensures OneOutstanding(expectedId, ResolvePending(s, how))
  {
    var u := ResolvePending(s, how);
    StillResolved(s, u);
    if s.pending.Some? {
      assert u.resolved[|s.resolved|] == Resolved(s.pending.value.req, how);
      assert IsResolved(u, s.pending.value.req);
    }
  }

  lemma NextOneOutstanding(t: Turn, s: Step)
    requires OneOutstanding(t.settings.expectedId, t.steer)
    ensures OneOutstanding(t.settings.expectedId, Next(t, s).steer)
  {
    if t.result.None? {
      var move := NextMove(t, s);
      ApplyOneOutstanding(t.settings.expectedId, t.steer, move);
    }
  }

  lemma NextKeepsSettings(t: Turn, s: Step)
    ensures Next(t, s).settings == t.settings
  {
  }

  /** In every run at most one steer write is outstanding. */
  lemma {:induction false} AtMostOneOutstanding(t: Turn, steps: seq<Step>)
    requires OneOutstanding(t.settings.expectedId, t.steer)
    ensures OneOutstanding(t.settings.expectedId, Run(t, steps).steer)
    ensures Run(t, steps).settings == t.settings
    decreases steps
  {
    if steps != [] {
      var n := |steps| - 1;
      AtMostOneOutstanding(t, steps[..n]);
      NextOneOutstanding(Run(t, steps[..n]), steps[n]);
      NextKeepsSettings(Run(t, steps[..n]), steps[n]);
    }
  }

  // ------------------------------------------------------------ what each resolution means

  /** The step reads the reply to the pending steer of `req`: no error member, or this code. */
  predicate ReadsReply(t: Turn, s: Step, req: Req, error: Option<int>) {
    && InTime(t, s)
    && s.wake.Read? && s.wake.line.Parsed?
    && t.steer.pending.Some? && t.steer.pending.value.req == req
    && IsReplyTo(s.wake.line.message, t.steer.pending.value.id)
    && s.wake.line.message.error == error
  }

  /** The step takes `req` from the channel and its steer never reaches the wire. */
  predicate FailsToWrite(t: Turn, s: Step, req: Req) {
    && InTime(t, s)
    && s.wake.Steer? && t.steer.pending.None? && t.steer.channel == Some(req)
    && (t.steer.activeRun.None? || !s.wake.written)
  }

  predicate NotWritten(how: Resolution) {
    how == Acked(Transport) || how == Acked(RunIdMissing)
  }

  ghost predicate OnlyDrained(rs: seq<Resolved>) {
    forall r :: r in rs ==> Drains(r.how)
  }

  lemma ApplyReports(s: Steering, move: Move)
    requires move.Quit? ==> Drains(move.how)
    ensures s.resolved <= Apply(s, move).resolved
    ensures Told(s, move).Some? ==> Apply(s, move).resolved == s.resolved + [Told(s, move).value]
    ensures Told(s, move).None? ==> OnlyDrained(Apply(s, move).resolved[|s.resolved|..])
  {
  }

  /** A step that reports nothing resolves nothing, unless the loop is left and the rest is drained. */
  lemma {:induction false} VerdictIsReported(t: Turn, s: Step)
    ensures t.steer.resolved <= Next(t, s).steer.resolved
    ensures Verdict(t, s).Some? ==> Next(t, s).steer.resolved == t.steer.resolved + [Verdict(t, s).value]
    ensures Verdict(t, s).None? ==> OnlyDrained(Next(t, s).steer.resolved[|t.steer.resolved|..])
  {
    if t.result.None? {
      var move := NextMove(t, s);
      ApplyReports(t.steer, move);
    }
  }

  /** Success, agent errors and failed writes are reported in exactly these steps. */
  lemma VerdictMeans(t: Turn, s: Step, req: Req)
    ensures Verdict(t, s) == Some(Resolved(req, Acked(Success))) <==> ReadsReply(t, s, req, None)
    ensures forall code ::
      Verdict(t, s) == Some(Resolved(req, Acked(AgentError(code)))) <==> ReadsReply(t, s, req, Some(code))
    ensures (Verdict(t, s) == Some(Resolved(req, Acked(RunIdMissing)))
             || Verdict(t, s) == Some(Resolved(req, Acked(Transport)))) <==> FailsToWrite(t, s, req)
  {
  }

  // ------------------------------------------------- where a resolution comes from

  /** What one step adds to the history of resolutions. */
  function Adds(t: Turn, s: Step): seq<Resolved> {
    var before, after := t.steer.resolved, Next(t, s).steer.resolved;
    if |before| <= |after| then after[|before|..] else []
  }

  ghost predicate AddsAt(t: Turn, steps: seq<Step>, k: nat, r: Resolved)
    requires k < |steps|
  {
    r in Adds(Run(t, steps[..k]), steps[k])
  }

  ghost predicate AddsSomewhere(t: Turn, steps: seq<Step>, r: Resolved) {
    exists k :: 0 <= k < |steps| && AddsAt(t, steps, k, r)
  }

  /** A value for each step of a script, from the steps before it and the step itself. */
  function Each<T>(f: (seq<Step>, Step) -> T, steps: seq<Step>): (r: seq<T>)
    ensures |r| == |steps| && forall k :: 0 <= k < |steps| ==> r[k] == f(steps[..k], steps[k])
  {
    seq(|steps|, k requires 0 <= k < |steps| => f(steps[..k], steps[k]))
  }

  lemma EachSnoc<T>(f: (seq<Step>, Step) -> T, steps: seq<Step>)
    requires steps != []
    ensures var n := |steps| - 1; Each(f, steps) == Each(f, steps[..n]) + [f(steps[..n], steps[n])]
  {
    var n := |steps| - 1;
    forall k | 0 <= k < n ensures Each(f, steps[..n])[k] == Each(f, steps)[k] {
      assert steps[..n][..k] == steps[..k];
    }
  }

  /** What each step of a run adds. */
  function AddsOf(t: Turn): (seq<Step>, Step) -> seq<Resolved> {
    (before, s) => Adds(Run(t, before), s)
  }

  ghost predicate InSome(all: seq<seq<Resolved>>, r: Resolved) {
    exists k :: 0 <= k < |all| && r in all[k]
  }

  lemma InSomeSnoc(all: seq<seq<Resolved>>, last: seq<Resolved>, r: Resolved)
    ensures InSome(all + [last], r) <==> InSome(all, r) || r in last
  {
    var longer := all + [last];
    assert longer[|all|] == last && forall k :: 0 <= k < |all| ==> longer[k] == all[k];
  }

  lemma {:induction false} ResolvedInSome(t: Turn, steps: seq<Step>, r: Resolved)
    requires t.steer.resolved == []
    ensures r in Run(t, steps).steer.resolved <==> InSome(Each(AddsOf(t), steps), r)
    decreases steps
  {
    if steps != [] {
      var n := |steps| - 1;
      ResolvedInSome(t, steps[..n], r);
      NextAdds(Run(t, steps[..n]), steps[n]);
      EachSnoc(AddsOf(t), steps);
      InSomeSnoc(Each(AddsOf(t), steps[..n]), AddsOf(t)(steps[..n], steps[n]), r);
    }
  }

  /** A resolution is in the history exactly when some step of the run added it. */
  lemma {:induction false} ResolvedIffAdded(t: Turn, steps: seq<Step>, r: Resolved)
    requires t.steer.resolved == []
    ensures r in Run(t, steps).steer.resolved <==> AddsSomewhere(t, steps, r)
  {
    ResolvedInSome(t, steps, r);
    forall k | 0 <= k < |steps| ensures r in Each(AddsOf(t), steps)[k] <==> AddsAt(t, steps, k, r) {
    }
  }

  lemma PrefixRest(before: seq<Resolved>, after: seq<Resolved>)
    requires before <= after
    ensures after == before + after[|before|..]
  {
  }

  lemma {:induction false} NextAdds(t: Turn, s: Step)
    ensures Next(t, s).steer.resolved == t.steer.resolved + Adds(t, s)
  {
    VerdictIsReported(t, s);
    PrefixRest(t.steer.resolved, Next(t, s).steer.resolved);
  }

  /** Some step of the run reports `how` for `req`. */
  ghost predicate Reported(t: Turn, steps: seq<Step>, req: Req, how: Resolution) {
    exists k :: 0 <= k < |steps| && Verdict(Run(t, steps[..k]), steps[k]) == Some(Resolved(req, how))
  }

  lemma AddsVerdict(t: Turn, s: Step, req: Req, how: Resolution)
    requires !Drains(how)
    ensures Resolved(req, how) in Adds(t, s) <==> Verdict(t, s) == Some(Resolved(req, how))
  {
    VerdictIsReported(t, s);
  }

  /** An ack that is not a drain is in the history exactly when a step of the run reported it. */
  lemma {:induction false} AckedIffReported(t: Turn, steps: seq<Step>, req: Req, how: Resolution)
    requires t.steer.resolved == [] && !Drains(how)
    ensures Resolved(req, how) in Run(t, steps).steer.resolved <==> Reported(t, steps, req, how)
  {
    ResolvedIffAdded(t, steps, Resolved(req, how));
    forall k | 0 <= k < |steps|
      ensures AddsAt(t, steps, k, Resolved(req, how)) <==>
        Verdict(Run(t, steps[..k]), steps[k]) == Some(Resolved(req, how))
    {
      AddsVerdict(Run(t, steps[..k]), steps[k], req, how);
    }
  }

  /** The run read a reply to this very steer while it was pending: a success, or this error code. */
  ghost predicate ReplyRead(t: Turn, steps: seq<Step>, req: Req, error: Option<int>) {
    exists k :: 0 <= k < |steps| && ReadsReply(Run(t, steps[..k]), steps[k], req, error)
  }

  /** The steer arm of the run took this steer and could not write it. */
  ghost predicate WriteFailed(t: Turn, steps: seq<Step>, req: Req) {
    exists k :: 0 <= k < |steps| && FailsToWrite(Run(t, steps[..k]), steps[k], req)
  }

  ghost predicate ToldNotWritten(resolved: seq<Resolved>, req: Req) {
    exists how :: NotWritten(how) && Resolved(req, how) in resolved
  }

  /** The caller is told a steer succeeded if and only if the run read a success reply to that very steer. */
  lemma {:induction false} SuccessIffReplyRead(t: Turn, steps: seq<Step>, req: Req)
    requires t.steer.resolved == []
    ensures Resolved(req, Acked(Success)) in Run(t, steps).steer.resolved <==> ReplyRead(t, steps, req, None)
  {
    AckedIffReported(t, steps, req, Acked(Success));
    forall k | 0 <= k < |steps|
      ensures Verdict(Run(t, steps[..k]), steps[k]) == Some(Resolved(req, Acked(Success)))
          <==> ReadsReply(Run(t, steps[..k]), steps[k], req, None)
    {
      VerdictMeans(Run(t, steps[..k]), steps[k], req);
    }
  }

  /** It is told the steer was not written if and only if the steer arm took it and could not write it. */
  lemma {:induction false} NotWrittenIffFailed(t: Turn, steps: seq<Step>, req: Req)
    requires t.steer.resolved == []
    ensures ToldNotWritten(Run(t, steps).steer.resolved, req) <==> WriteFailed(t, steps, req)
  {
    AckedIffReported(t, steps, req, Acked(Transport));
    AckedIffReported(t, steps, req, Acked(RunIdMissing));
    forall k | 0 <= k < |steps|
      ensures (Verdict(Run(t, steps[..k]), steps[k]) == Some(Resolved(req, Acked(RunIdMissing)))
               || Verdict(Run(t, steps[..k]), steps[k]) == Some(Resolved(req, Acked(Transport))))
          <==> FailsToWrite(Run(t, steps[..k]), steps[k], req)
    {
      VerdictMeans(Run(t, steps[..k]), steps[k], req);
    }
    assert NotWritten(Acked(Transport)) && NotWritten(Acked(RunIdMissing));
  }

  /** An agent error code reaches the caller if and only if the run read it in a reply to that very steer. */
  lemma {:induction false} AgentErrorIffReplyRead(t: Turn, steps: seq<Step>, req: Req, code: int)
    requires t.steer.resolved == []
    ensures Resolved(req, Acked(AgentError(code))) in Run(t, steps).steer.resolved <==>
            ReplyRead(t, steps, req, Some(code))
  {
    AckedIffReported(t, steps, req, Acked(AgentError(code)));
    forall k | 0 <= k < |steps|
      ensures Verdict(Run(t, steps[..k]), steps[k]) == Some(Resolved(req, Acked(AgentError(code))))
          <==> ReadsReply(Run(t, steps[..k]), steps[k], req, Some(code))
    {
      VerdictMeans(Run(t, steps[..k]), steps[k], req);
    }
  }

  // ------------------------------------------------------------- how a turn is left

  /** The step ends the turn. */
  predicate Ends(t: Turn, s: Step) {
    t.result.None? && Next(t, s).result.Some?
  }

  /**
   * The early exits: the step reads, in time, a request of the agent that gets no answer.
   * Its answer cannot be written; or it asks for a permission without an id, without
   * options, or with none that could be chosen.
   */
  predicate Bails(t: Turn, s: Step) {
    && InTime(t, s)
    && s.wake.Read? && s.wake.line.Parsed?
    && match s.wake.line.message.verb
       case Permission(replied) => !replied
       case Unknown(replied) => !replied && s.wake.line.message.id.Some?
       case _ => false
  }

  /** How a turn that ends resolves what is in flight, and what still waits in the channel. */
  function Leftovers(s: Steering, how: Resolution): seq<Resolved> {
    (if s.pending.Some? then [Resolved(s.pending.value.req, how)] else [])
    + (if s.channel.Some? then [Resolved(s.channel.value, SenderDropped)] else [])
  }

  lemma LeaveAdds(s: Steering, how: Resolution)
    ensures Leave(s, how).resolved == s.resolved + Leftovers(s, how)
  {
  }

  /** A step that ends the turn leaves by an early exit, or else drains. */
  lemma {:induction false} EndingMove(t: Turn, s: Step)
    requires Ends(t, s)
    ensures Next(t, s).steer == Leave(t.steer, if Bails(t, s) then SenderDropped else Acked(Neutral))
  {
    if InTime(t, s) && s.wake.Read? && s.wake.line.Parsed? {
      var m := s.wake.line.message;
      var u := HandleMessage(t.(time := Pass(Pass(t.time, s.beforeTop), s.beforeWake)), s.handling, m);
      assert Next(t, s) == u;
      assert m.verb.Permission? || m.verb.Unknown? ==> !IsSteerReply(t, m) && !IsReplyTo(m, t.settings.expectedId);
    }
  }

  /**
   * The pending steer is not drained on every exit: its sender is dropped exactly when
   * the turn ends by an early exit, and it is acked neutrally on every other one. A
   * request still in the channel is dropped on all of them.
   */
  lemma {:induction false} EndAdds(t: Turn, s: Step)
    requires Ends(t, s)
    ensures Adds(t, s) == Leftovers(t.steer, if Bails(t, s) then SenderDropped else Acked(Neutral))
  {
    EndingMove(t, s);
    LeaveAdds(t.steer, if Bails(t, s) then SenderDropped else Acked(Neutral));
  }

  /** A step that does not end the turn drains nothing. */
  lemma {:induction false} GoesOnAdds(t: Turn, s: Step, r: Resolved)
    requires !Ends(t, s) && r in Adds(t, s)
    ensures !Drains(r.how)
  {
    if t.result.None? {
      var move := NextMove(t, s);
      QuietAdds(t.steer, move);
      assert Verdict(t, s) == Told(t.steer, move);
      VerdictIsReported(t, s);
    }
  }

  lemma QuietAdds(s: Steering, move: Move)
    requires !move.Quit? && (move.Answer? ==> !Drains(move.how))
    ensures Told(s, move).None? ==> Apply(s, move).resolved == s.resolved
    ensures Told(s, move).Some? ==> !Drains(Told(s, move).value.how)
  {
  }

  /** The step ends the turn and drops this request's sender: from the wire by an early exit, or from the channel. */
  predicate DropsSender(t: Turn, s: Step, req: Req) {
    && Ends(t, s)
    && (t.steer.channel == Some(req) || (Bails(t, s) && Carries(t.steer, req)))
  }

  /** The step ends the turn in another way, with this request's steer in flight. */
  predicate AcksNeutrally(t: Turn, s: Step, req: Req) {
    Ends(t, s) && !Bails(t, s) && Carries(t.steer, req)
  }

  predicate Carries(s: Steering, req: Req) {
    s.pending.Some? && s.pending.value.req == req
  }

  lemma LeftoversAre(s: Steering, how: Resolution, req: Req)
    requires Drains(how)
    ensures Resolved(req, SenderDropped) in Leftovers(s, how) <==>
      s.channel == Some(req) || (how == SenderDropped && Carries(s, req))
    ensures Resolved(req, Acked(Neutral)) in Leftovers(s, how) <==> how == Acked(Neutral) && Carries(s, req)
  {
  }

  lemma {:induction false} DrainMeans(t: Turn, s: Step, req: Req)
    ensures Resolved(req, SenderDropped) in Adds(t, s) <==> DropsSender(t, s, req)
    ensures Resolved(req, Acked(Neutral)) in Adds(t, s) <==> AcksNeutrally(t, s, req)
  {
    if Ends(t, s) {
      EndAdds(t, s);
      LeftoversAre(t.steer, if Bails(t, s) then SenderDropped else Acked(Neutral), req);
    } else {
      GoesOnWithout(t, s, Resolved(req, SenderDropped));
      GoesOnWithout(t, s, Resolved(req, Acked(Neutral)));
    }
  }

  lemma GoesOnWithout(t: Turn, s: Step, r: Resolved)
    requires !Ends(t, s) && Drains(r.how)
    ensures r !in Adds(t, s)
  {
    if r in Adds(t, s) {
      GoesOnAdds(t, s, r);
    }
  }

  ghost predicate SenderDroppedIn(t: Turn, steps: seq<Step>, req: Req) {
    exists k :: 0 <= k < |steps| && DropsSender(Run(t, steps[..k]), steps[k], req)
  }

  ghost predicate DrainedIn(t: Turn, steps: seq<Step>, req: Req) {
    exists k :: 0 <= k < |steps| && AcksNeutrally(Run(t, steps[..k]), steps[k], req)
  }

  /**
   * Over a whole run a request's sender is dropped if and only if the turn ended by an
   * early exit with its steer in flight, or by any exit with it still in the channel.
   */
  lemma {:induction false} DroppedIffEarlyExit(t: Turn, steps: seq<Step>, req: Req)
    requires t.steer.resolved == []
    ensures Resolved(req, SenderDropped) in Run(t, steps).steer.resolved <==> SenderDroppedIn(t, steps, req)
  {
    ResolvedIffAdded(t, steps, Resolved(req, SenderDropped));
    forall k | 0 <= k < |steps|
      ensures AddsAt(t, steps, k, Resolved(req, SenderDropped)) <==> DropsSender(Run(t, steps[..k]), steps[k], req)
    {
      DrainMeans(Run(t, steps[..k]), steps[k], req);
    }
  }

  /** It is acked neutrally if and only if the turn ended in any other way with its steer in flight. */
  lemma {:induction false} NeutralIffOtherExit(t: Turn, steps: seq<Step>, req: Req)
    requires t.steer.resolved == []
    ensures Resolved(req, Acked(Neutral)) in Run(t, steps).steer.resolved <==> DrainedIn(t, steps, req)
  {
    ResolvedIffAdded(t, steps, Resolved(req, Acked(Neutral)));
    forall k | 0 <= k < |steps|
      ensures AddsAt(t, steps, k, Resolved(req, Acked(Neutral))) <==> AcksNeutrally(Run(t, steps[..k]), steps[k], req)
    {
      DrainMeans(Run(t, steps[..k]), steps[k], req);
    }
  }

  /** A turn that writes the steer 5 and then gives a permission request no answer: the sender is dropped undrained. */
  lemma {:induction false} PermissionExitDropsSender()
    ensures var t := Start(Settings(0, 1_000, 10_000), 0, 10_000, Some(10_000), Some(5), 1, Some(7));
      var u := Run(t, [Iterate(1, 1, 0, Steer(true)),
                       Iterate(1, 1, 0, Read(Parsed(Message(Some(IdNumber(9)), Permission(false), None))))]);
      u.result == Some(Broken) && u.steer.resolved == [Resolved(5, SenderDropped)]
  {
    var t := Start(Settings(0, 1_000, 10_000), 0, 10_000, Some(10_000), Some(5), 1, Some(7));
    var write := Iterate(1, 1, 0, Steer(true));
    var ask := Iterate(1, 1, 0, Read(Parsed(Message(Some(IdNumber(9)), Permission(false), None))));
    assert [write, ask][..1] == [write] && [write][..0] == [];
    assert Run(t, []) == t;
    var w := Next(t, write);
    assert Run(t, [write]) == w;
    assert w.steer.pending == Some(Pending(1, 5)) && w.result.None? && w.steer.channel.None?;
    assert Next(w, ask).steer == Leave(w.steer, SenderDropped);
  }

  // ------------------------------------------------------------------- deadlines over a run

  /** The hard deadline as the history of successful steers determines it. */
  function HardDeadline(initial: Time, maxDuration: nat, renewals: seq<Time>): Time {
    if renewals == [] then initial
    else Max(initial, renewals[|renewals| - 1] + maxDuration)
  }

  function Successes(rs: seq<Resolved>): nat {
    if rs == [] then 0
    else Successes(rs[..|rs| - 1]) + (if rs[|rs| - 1].how == Acked(Success) then 1 else 0)
  }

  predicate OnTime(initial: Time, settings: Settings, c: Clocks) {
    && c.hardDeadline == HardDeadline(initial, settings.maxDuration, c.renewals)
    && c.clientHard == Some(c.hardDeadline)
    && (c.renewals != [] ==> c.renewals[|c.renewals| - 1] <= c.now)
    && c.idleDeadline == c.lastActivity + settings.idle
    && c.lastLine <= c.lastActivity <= c.now
  }

  predicate TimedOutRightly(t: Turn) {
    && (t.result == Some(IdleTimeout) ==>
          t.time.lastActivity + t.settings.idle <= t.time.now && t.time.idleDeadline < t.time.hardDeadline)
    && (t.result == Some(HardTimeout) ==>
          t.time.hardDeadline <= t.time.now && t.time.hardDeadline <= t.time.idleDeadline)
  }

  lemma MessageOnTime(initial: Time, t: Turn, handling: nat, m: Message)
    requires OnTime(initial, t.settings, t.time) && t.result.None?
    ensures var u := HandleMessage(t, handling, m);
      && OnTime(initial, t.settings, u.time) && TimedOutRightly(u)
      && t.time.hardDeadline <= u.time.hardDeadline && t.time.now <= u.time.now
      && u.settings == t.settings
  {
  }

  lemma WakeOnTime(initial: Time, t: Turn, handling: nat, wake: Wake)
    requires OnTime(initial, t.settings, t.time) && t.result.None?
    ensures var u := HandleWake(t, handling, wake);
      && OnTime(initial, t.settings, u.time) && TimedOutRightly(u)
      && t.time.hardDeadline <= u.time.hardDeadline && t.time.now <= u.time.now
      && u.settings == t.settings
  {
    match wake
    case Read(Parsed(m)) => MessageOnTime(initial, t, handling, m);
    case _ =>
  }

  lemma {:induction false} NextOnTime(initial: Time, t: Turn, s: Step)
    requires OnTime(initial, t.settings, t.time) && TimedOutRightly(t)
    ensures OnTime(initial, t.settings, Next(t, s).time) && TimedOutRightly(Next(t, s))
    ensures t.time.hardDeadline <= Next(t, s).time.hardDeadline && t.time.now <= Next(t, s).time.now
    ensures Next(t, s).settings == t.settings
  {
    if InTime(t, s) {
      var at := t.(time := Pass(Pass(t.time, s.beforeTop), s.beforeWake));
      assert OnTime(initial, at.settings, at.time);
      WakeOnTime(initial, at, s.handling, s.wake);
    }
  }

  /**
   * Over a whole turn the hard deadline is the later of its initial value and the last
   * successful steer plus the full budget; it never moves back and the client's field
   * agrees with it. An idle timeout is only reported after at least the idle timeout
   * without a valid JSON line, a hard one only once the hard deadline has passed.
   */
  lemma {:induction false} DeadlinesOverTurn(t: Turn, steps: seq<Step>, k: nat)
    requires k <= |steps|
    requires OnTime(t.time.hardDeadline, t.settings, t.time) && t.result.None?
    ensures var u := Run(t, steps);
      && u.time.hardDeadline == HardDeadline(t.time.hardDeadline, t.settings.maxDuration, u.time.renewals)
      && u.time.clientHard == Some(u.time.hardDeadline)
      && Run(t, steps[..k]).time.hardDeadline <= u.time.hardDeadline
      && (u.result == Some(IdleTimeout) ==> u.time.lastLine + t.settings.idle <= u.time.now)
      && (u.result == Some(HardTimeout) ==> u.time.hardDeadline <= u.time.now)
    ensures OnTime(t.time.hardDeadline, t.settings, Run(t, steps).time)
    ensures TimedOutRightly(Run(t, steps)) && Run(t, steps).settings == t.settings
    decreases steps
  {
    if steps != [] {
      var n := |steps| - 1;
      DeadlinesOverTurn(t, steps[..n], Min(k, n));
      assert steps[..n][..Min(k, n)] == steps[..Min(k, n)];
      assert steps[..|steps|] == steps;
      NextOnTime(t.time.hardDeadline, Run(t, steps[..n]), steps[n]);
    } else {
      assert steps[..k] == steps;
    }
  }

  /** Renewals are counted by the successes, so nothing but a steer success moves the deadline. */
  lemma {:induction false} RenewalPerSuccess(t: Turn, steps: seq<Step>)
    requires |t.time.renewals| == Successes(t.steer.resolved)
    ensures |Run(t, steps).time.renewals| == Successes(Run(t, steps).steer.resolved)
    decreases steps
  {
    if steps != [] {
      var n := |steps| - 1;
      RenewalPerSuccess(t, steps[..n]);
      NextRenewals(Run(t, steps[..n]), steps[n]);
    }
  }

  lemma {:induction false} NextRenewals(t: Turn, s: Step)
    requires |t.time.renewals| == Successes(t.steer.resolved)
    ensures |Next(t, s).time.renewals| == Successes(Next(t, s).steer.resolved)
  {
    NextSuccesses(t, s);
    StepRenews(t, s);
  }

  predicate ReportsSuccess(t: Turn, s: Step) {
    Verdict(t, s).Some? && Verdict(t, s).value.how == Acked(Success)
  }

  lemma {:induction false} NextSuccesses(t: Turn, s: Step)
    ensures Successes(Next(t, s).steer.resolved) ==
      Successes(t.steer.resolved) + (if ReportsSuccess(t, s) then 1 else 0)
  {
    VerdictIsReported(t, s);
    var u := Next(t, s);
    var added := u.steer.resolved[|t.steer.resolved|..];
    assert u.steer.resolved == t.steer.resolved + added;
    if Verdict(t, s).Some? {
      assert u.steer.resolved[..|u.steer.resolved| - 1] == t.steer.resolved;
    } else {
      DrainedSuccesses(t.steer.resolved, added);
    }
  }

  lemma StepRenews(t: Turn, s: Step)
    ensures |Next(t, s).time.renewals| == |t.time.renewals| + (if ReportsSuccess(t, s) then 1 else 0)
  {
  }

  lemma {:induction false} DrainedSuccesses(a: seq<Resolved>, b: seq<Resolved>)
    requires OnlyDrained(b)
    ensures Successes(a + b) == Successes(a)
  {
    if b == [] {
      assert a + b == a;
    } else {
      var n := |b| - 1;
      assert (a + b)[..|a + b| - 1] == a + b[..n];
      assert b[n] in b;
      DrainedSuccesses(a, b[..n]);
    }
  }

  predicate TimedOut(t: Turn) {
    t.result == Some(IdleTimeout) || t.result == Some(HardTimeout)
  }

  /**
   * However busy the agent keeps the reader, no iteration gets past its top once the
   * clock has reached the nearer deadline: unless it times the turn out, it began before
   * the hard deadline the successful steers granted. This includes the iteration that
   * consumes the prompt's reply.
   */
  lemma {:induction false} NoStarvation(t: Turn, steps: seq<Step>)
    requires steps != [] && steps[|steps| - 1].Iterate?
    requires OnTime(t.time.hardDeadline, t.settings, t.time) && t.result.None?
    requires Run(t, steps[..|steps| - 1]).result.None? && !TimedOut(Run(t, steps))
    ensures var u := Run(t, steps[..|steps| - 1]);
      && TopClock(u, steps[|steps| - 1]) < u.time.lastActivity + t.settings.idle
      && TopClock(u, steps[|steps| - 1])
           < HardDeadline(t.time.hardDeadline, t.settings.maxDuration, u.time.renewals)
  {
    DeadlinesOverTurn(t, steps[..|steps| - 1], 0);
  }
}
