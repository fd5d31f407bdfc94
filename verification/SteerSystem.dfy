/** Native steering end to end, for one channel and any number of turns. */
module SteerSystem {
  // The main loop offers each posted event to the running turn (`try_native_steer`),
  // withholds it on acceptance, and turns every outcome that comes back into a queue
  // action (the SteerAck arm). Outcomes travel through unordered watcher tasks, so the
  // main loop may pick up any of them next. The id of the steered event names the request.

  import opened Prelude
  import opened SteerTurn
  import opened SteerQueue

  const METHOD_NOT_FOUND := -32601

  /** Release the withheld event, remove it for good, signal the cancel+merge fallback. */
  datatype Action = Action(release: bool, remove: bool, fallback: bool)

  function Decide(how: Resolution): Action {
    match how
    case Acked(Success) => Action(false, true, false)
    case Acked(AgentError(code)) =>
      if code == METHOD_NOT_FOUND then Action(true, false, true) else Action(true, false, false)
    case Acked(Transport) => Action(true, false, true)
    case Acked(RunIdMissing) => Action(true, false, true)
    case Acked(Neutral) => Action(true, false, false)
    case SenderDropped => Action(true, false, false)
  }

  /** `Enqueue` posts an event without offering it to the turn. */
  datatype Input =
    | Post(id: EventId)
    | Enqueue(id: EventId)
    | TurnStep(beforeTop: nat, beforeWake: nat, handling: nat, wake: Wake)
    | Deliver(i: nat)
    | FlushBatch
    | Expire
    | DrainChannel
    | NewTurn(wait: nat, settings: Settings, hard: Time, nextId: nat, activeRun: Option<nat>)

  /** The channel's lane, and the history of where events that left it went. */
  datatype Store = Store(
    lane: Lane, posted: multiset<EventId>,
    flushed: multiset<EventId>, delivered: multiset<EventId>, lost: multiset<EventId>)

  /** What left the lane. */
  function Gone(before: multiset<EventId>, after: Lane): multiset<EventId> {
    before - Contents(after)
  }

  function StorePost(s: Store, id: EventId): Store {
    var lane := Push(s.lane, id);
    s.(lane := lane, posted := s.posted + multiset{id},
       lost := s.lost + Gone(Contents(s.lane) + multiset{id}, lane))
  }

  function StoreWithhold(s: Store, id: EventId): Store {
    s.(lane := MarkPending(s.lane, id))
  }

  function StoreRelease(s: Store, id: EventId): Store {
    var lane := Release(s.lane, id);
    s.(lane := lane, lost := s.lost + Gone(Contents(s.lane), lane))
  }

  function StoreRemove(s: Store, id: EventId): Store {
    var lane := RemoveEvent(s.lane, id);
    s.(lane := lane, delivered := s.delivered + Gone(Contents(s.lane), lane))
  }

  function StoreFlush(s: Store): Store {
    var lane := Flush(s.lane);
    s.(lane := lane, flushed := s.flushed + Gone(Contents(s.lane), lane))
  }

  function StoreExpire(s: Store): Store {
    var lane := Recover(s.lane);
    s.(lane := lane, lost := s.lost + Gone(Contents(s.lane), lane))
  }

  function StoreDrain(s: Store): Store {
    var lane := Drain(s.lane);
    s.(lane := lane, lost := s.lost + Gone(Contents(s.lane), lane))
  }

  /**
   * `mailbox` holds the outcomes on their way to the main loop. The multisets are the
   * history of steers accepted and of queue actions taken.
   */
  datatype Sys = Sys(
    turn: Turn, store: Store, mailbox: seq<Resolved>,
    accepted: multiset<EventId>, removed: multiset<EventId>, released: multiset<EventId>,
    fallbacks: multiset<EventId>)

  function PostEvent(s: Sys, id: EventId): Sys {
    var store := StorePost(s.store, id);
    var takes := s.turn.result.None? && s.turn.steer.channel.None?;
    s.(turn := Next(s.turn, Offer(id)),
       store := if takes then StoreWithhold(store, id) else store,
       accepted := if takes then s.accepted + multiset{id} else s.accepted)
  }

  /** Every resolution of a step is forwarded to the main loop. */
  function StepTurn(s: Sys, step: Step): Sys {
    var turn := Next(s.turn, step);
    if |s.turn.steer.resolved| <= |turn.steer.resolved|
    then s.(turn := turn, mailbox := s.mailbox + turn.steer.resolved[|s.turn.steer.resolved|..])
    else s
  }

  function TakeMail(s: Sys, i: nat): Sys
    requires i < |s.mailbox|
  {
    var m, act := s.mailbox[i], Decide(s.mailbox[i].how);
    var s := s.(mailbox := s.mailbox[..i] + s.mailbox[i + 1..],
                fallbacks := if act.fallback then s.fallbacks + multiset{m.req} else s.fallbacks);
    if act.remove
    then s.(store := StoreRemove(s.store, m.req), removed := s.removed + multiset{m.req})
    else s.(store := StoreRelease(s.store, m.req), released := s.released + multiset{m.req})
  }

  /**
   * The turn's loop has done nothing yet. The steer channel is there from dispatch on, so
   * a request may be waiting in it when the prompt is sent and the loop starts.
   */
  predicate Untouched(t: Turn) {
    t.result.None? && t.steer.pending.None? && t.steer.written == [] && t.steer.resolved == []
  }

  function After(s: Sys, input: Input): Sys {
    match input
    case Post(id) => PostEvent(s, id)
    case Enqueue(id) => s.(store := StorePost(s.store, id))
    case TurnStep(beforeTop, beforeWake, handling, wake) => StepTurn(s, Iterate(beforeTop, beforeWake, handling, wake))
    case Deliver(i) => if i < |s.mailbox| then TakeMail(s, i) else s
    case FlushBatch => s.(store := StoreFlush(s.store))
    case Expire => s.(store := StoreExpire(s.store))
    case DrainChannel => s.(store := StoreDrain(s.store))
    case NewTurn(wait, settings, hard, nextId, activeRun) =>
      if s.turn.result.Some? || Untouched(s.turn) then
        s.(turn := Start(settings, s.turn.time.now + wait, hard, Some(hard), s.turn.steer.channel, nextId, activeRun))
      else s
  }

  function Trace(s: Sys, inputs: seq<Input>): Sys {
    if inputs == [] then s else After(Trace(s, inputs[..|inputs| - 1]), inputs[|inputs| - 1])
  }

  /** Nothing posted yet, a first turn running. */
  predicate Initial(s: Sys) {
    && Settled(s.turn) && s.turn.steer.accepted == [] && s.turn.steer.resolved == []
    && s.store == Store(Lane([], []), multiset{}, multiset{}, multiset{}, multiset{}) && s.mailbox == []
    && s.accepted == s.removed == s.released == s.fallbacks == multiset{}
  }

  // ------------------------------------------------------- one action for every steer

  function Mail(s: Sys): multiset<EventId> {
    multiset(ReqsOf(s.mailbox))
  }

  /** Steers still on their way: in the channel, on the wire, or in the mailbox. */
  function Awaiting(s: Sys): multiset<EventId> {
    Held(s.turn.steer) + Mail(s)
  }

  predicate Accounted(s: Sys) {
    Settled(s.turn) && s.accepted == Awaiting(s) + s.removed + s.released
  }

  lemma Cancel(a: multiset<EventId>, b: multiset<EventId>, h: multiset<EventId>, h': multiset<EventId>)
    requires a + h == (a + b) + h'
    ensures h == b + h'
  {
    forall x ensures h[x] == (b + h')[x] {
      assert (a + h)[x] == ((a + b) + h')[x];
    }
  }

  function Added(before: Steering, after: Steering): seq<Resolved>
    requires before.resolved <= after.resolved
  {
    after.resolved[|before.resolved|..]
  }

  /** What is newly resolved is what is no longer held, when nothing new was accepted. */
  lemma Handed(before: Steering, after: Steering)
    requires Conserved(before) && Conserved(after)
    requires before.accepted == after.accepted && before.resolved <= after.resolved
    ensures Held(before) == multiset(ReqsOf(Added(before, after))) + Held(after)
  {
    var added := Added(before, after);
    assert ReqsOf(after.resolved) == ReqsOf(before.resolved) + ReqsOf(added);
    Cancel(multiset(ReqsOf(before.resolved)), multiset(ReqsOf(added)), Held(before), Held(after));
  }

  lemma MailAdds(mailbox: seq<Resolved>, added: seq<Resolved>)
    ensures multiset(ReqsOf(mailbox + added)) == multiset(ReqsOf(mailbox)) + multiset(ReqsOf(added))
  {
    assert ReqsOf(mailbox + added) == ReqsOf(mailbox) + ReqsOf(added);
  }

  lemma StepMail(s: Sys, step: Step)
    requires Settled(s.turn) && step.Iterate?
    ensures Settled(StepTurn(s, step).turn)
    ensures Awaiting(StepTurn(s, step)) == Awaiting(s)
  {
    NextSettled(s.turn, step);
    VerdictIsReported(s.turn, step);
    IterateAcceptsNothing(s.turn, step);
    var turn := Next(s.turn, step);
    Handed(s.turn.steer, turn.steer);
    MailAdds(s.mailbox, Added(s.turn.steer, turn.steer));
    assert StepTurn(s, step).mailbox == s.mailbox + Added(s.turn.steer, turn.steer);
  }

  lemma IterateAcceptsNothing(t: Turn, step: Step)
    requires step.Iterate?
    ensures Next(t, step).steer.accepted == t.steer.accepted
  {
  }

  lemma PostAccounted(s: Sys, id: EventId)
    requires Accounted(s)
    ensures Accounted(PostEvent(s, id))
  {
    NextSettled(s.turn, Offer(id));
  }

  lemma TakeMailAccounted(s: Sys, i: nat)
    requires Accounted(s) && i < |s.mailbox|
    ensures Accounted(TakeMail(s, i))
    ensures Mail(TakeMail(s, i)) + multiset{s.mailbox[i].req} == Mail(s)
  {
    MailWithout(s.mailbox, i);
    var u := TakeMail(s, i);
    assert u.turn == s.turn && u.accepted == s.accepted;
    assert u.removed + u.released == s.removed + s.released + multiset{s.mailbox[i].req};
  }

  lemma MailWithout(mailbox: seq<Resolved>, i: nat)
    requires i < |mailbox|
    ensures multiset(ReqsOf(mailbox[..i] + mailbox[i + 1..])) + multiset{mailbox[i].req} == multiset(ReqsOf(mailbox))
  {
    assert ReqsOf(mailbox) == ReqsOf(mailbox[..i]) + [mailbox[i].req] + ReqsOf(mailbox[i + 1..]);
    assert ReqsOf(mailbox[..i] + mailbox[i + 1..]) == ReqsOf(mailbox[..i]) + ReqsOf(mailbox[i + 1..]);
  }

  lemma AfterAccounted(s: Sys, input: Input)
    requires Accounted(s)
    ensures Accounted(After(s, input))
  {
    match input
    case Post(id) => PostAccounted(s, id);
    case TurnStep(_, _, _, _) => TurnStepAccounted(s, input);
    case Deliver(i) => if i < |s.mailbox| { TakeMailAccounted(s, i); }
    case NewTurn(_, _, _, _, _) => NewTurnAccounted(s, input);
    case _ => BulkAccounted(s, input);
  }

  lemma TurnStepAccounted(s: Sys, input: Input)
    requires Accounted(s) && input.TurnStep?
    ensures Accounted(After(s, input))
  {
    StepMail(s, Iterate(input.beforeTop, input.beforeWake, input.handling, input.wake));
  }

  /** What happens to the store alone does not concern the steers. */
  lemma BulkAccounted(s: Sys, input: Input)
    requires Accounted(s) && (input.Enqueue? || input.FlushBatch? || input.Expire? || input.DrainChannel?)
    ensures Accounted(After(s, input))
  {
    StoreAccounted(s, After(s, input));
  }

  lemma StoreAccounted(s: Sys, u: Sys)
    requires Accounted(s) && u == s.(store := u.store)
    ensures Accounted(u)
  {
  }

  lemma NewTurnAccounted(s: Sys, input: Input)
    requires Accounted(s) && input.NewTurn?
    ensures Accounted(After(s, input)) && Awaiting(After(s, input)) == Awaiting(s)
  {
    assert ReqsOf([]) == [];
  }

  /**
   * In every run each accepted steer is on its way or has led to exactly one queue
   * action, a removal or a release. Once the turn is over and the mailbox empty, all
   * have.
   */
  lemma {:induction false} OneActionPerSteer(s: Sys, inputs: seq<Input>)
    requires Initial(s)
    ensures var u := Trace(s, inputs);
      && u.accepted == Awaiting(u) + u.removed + u.released
      && (u.turn.result.Some? && u.mailbox == [] ==> u.accepted == u.removed + u.released)
    ensures Accounted(Trace(s, inputs))
    decreases inputs
  {
    if inputs != [] {
      OneActionPerSteer(s, inputs[..|inputs| - 1]);
      AfterAccounted(Trace(s, inputs[..|inputs| - 1]), inputs[|inputs| - 1]);
    } else {
      assert Held(s.turn.steer) == multiset{};
    }
  }

  // ------------------------------------------------------- which action, and why

  /** The requests in `rs` whose resolution satisfies `p`, counted. */
  function Select(rs: seq<Resolved>, p: Resolution -> bool): multiset<EventId> {
    if rs == [] then multiset{}
    else (if p(rs[0].how) then multiset{rs[0].req} else multiset{}) + Select(rs[1..], p)
  }

  lemma {:induction false} SelectConcat(a: seq<Resolved>, b: seq<Resolved>, p: Resolution -> bool)
    ensures Select(a + b, p) == Select(a, p) + Select(b, p)
  {
    if a == [] {
      assert a + b == b;
    } else {
      assert (a + b)[1..] == a[1..] + b;
      SelectConcat(a[1..], b, p);
    }
  }

  lemma {:induction false} SelectWithout(rs: seq<Resolved>, i: nat, p: Resolution -> bool)
    requires i < |rs|
    ensures Select(rs, p) ==
      Select(rs[..i] + rs[i + 1..], p) + (if p(rs[i].how) then multiset{rs[i].req} else multiset{})
  {
    if i == 0 {
      assert rs[..0] + rs[1..] == rs[1..];
    } else {
      var rest := rs[..i] + rs[i + 1..];
      assert rest[1..] == rs[1..][..i - 1] + rs[1..][i..];
      SelectWithout(rs[1..], i - 1, p);
    }
  }

  function IsSuccess(how: Resolution): bool {
    how == Acked(Success)
  }

  function CallsForFallback(how: Resolution): bool {
    NotWritten(how) || how == Acked(AgentError(-32601))
  }

  /** The steer whose own success reply this step reads. */
  function SuccessRead(t: Turn, step: Step): multiset<EventId> {
    if t.steer.pending.Some? && ReadsReply(t, step, t.steer.pending.value.req, None)
    then multiset{t.steer.pending.value.req} else multiset{}
  }

  /** The steer this step could not write, or whose method-not-found reply it reads. */
  function FallbackCaused(t: Turn, step: Step): multiset<EventId> {
    if t.steer.channel.Some? && FailsToWrite(t, step, t.steer.channel.value)
    then multiset{t.steer.channel.value}
    else if t.steer.pending.Some? && ReadsReply(t, step, t.steer.pending.value.req, Some(-32601))
    then multiset{t.steer.pending.value.req} else multiset{}
  }

  function SuccessNow(t: Turn, x: Input): multiset<EventId> {
    if x.TurnStep? then SuccessRead(t, Iterate(x.beforeTop, x.beforeWake, x.handling, x.wake)) else multiset{}
  }

  function FallbackNow(t: Turn, x: Input): multiset<EventId> {
    if x.TurnStep? then FallbackCaused(t, Iterate(x.beforeTop, x.beforeWake, x.handling, x.wake)) else multiset{}
  }

  function SuccessReads(s: Sys, inputs: seq<Input>): multiset<EventId> {
    if inputs == [] then multiset{}
    else
      var n := |inputs| - 1;
      SuccessReads(s, inputs[..n]) + SuccessNow(Trace(s, inputs[..n]).turn, inputs[n])
  }

  function FallbacksCaused(s: Sys, inputs: seq<Input>): multiset<EventId> {
    if inputs == [] then multiset{}
    else
      var n := |inputs| - 1;
      FallbacksCaused(s, inputs[..n]) + FallbackNow(Trace(s, inputs[..n]).turn, inputs[n])
  }

  lemma {:induction false} DrainedSelectsNothing(rs: seq<Resolved>, p: Resolution -> bool)
    requires OnlyDrained(rs) && !p(Acked(Neutral)) && !p(SenderDropped)
    ensures Select(rs, p) == multiset{}
  {
    if rs != [] {
      assert rs[0] in rs;
      DrainedSelectsNothing(rs[1..], p);
    }
  }

  /** The request the step reports on, if what it reports satisfies `p`. */
  function VerdictFor(t: Turn, step: Step, p: Resolution -> bool): multiset<EventId> {
    if Verdict(t, step).Some? && p(Verdict(t, step).value.how) then multiset{Verdict(t, step).value.req} else multiset{}
  }

  lemma {:induction false} AddedSelects(t: Turn, step: Step, p: Resolution -> bool)
    requires !p(Acked(Neutral)) && !p(SenderDropped)
    ensures t.steer.resolved <= Next(t, step).steer.resolved
    ensures Select(Added(t.steer, Next(t, step).steer), p) == VerdictFor(t, step, p)
  {
    VerdictIsReported(t, step);
    var added := Added(t.steer, Next(t, step).steer);
    if Verdict(t, step).Some? {
      SelectOne(added, Verdict(t, step).value, p);
    } else {
      DrainedSelectsNothing(added, p);
    }
  }

  lemma {:induction false} SelectOne(rs: seq<Resolved>, v: Resolved, p: Resolution -> bool)
    requires rs == [v]
    ensures Select(rs, p) == if p(v.how) then multiset{v.req} else multiset{}
  {
    assert rs[1..] == [];
  }

  lemma VerdictSucceeds(t: Turn, step: Step)
    ensures VerdictFor(t, step, IsSuccess) == SuccessRead(t, step)
  {
    if Verdict(t, step).Some? {
      VerdictMeans(t, step, Verdict(t, step).value.req);
    }
    if t.steer.pending.Some? {
      VerdictMeans(t, step, t.steer.pending.value.req);
    }
  }

  lemma VerdictFallsBack(t: Turn, step: Step)
    ensures VerdictFor(t, step, CallsForFallback) == FallbackCaused(t, step)
  {
    if Verdict(t, step).Some? {
      VerdictMeans(t, step, Verdict(t, step).value.req);
    }
    if t.steer.channel.Some? {
      VerdictMeans(t, step, t.steer.channel.value);
    }
    if t.steer.pending.Some? {
      VerdictMeans(t, step, t.steer.pending.value.req);
    }
  }

  /** What a step puts in the mail, told by what it read or failed to write. */
  lemma {:induction false} StepSelects(t: Turn, step: Step)
    ensures t.steer.resolved <= Next(t, step).steer.resolved
    ensures Select(Added(t.steer, Next(t, step).steer), IsSuccess) == SuccessRead(t, step)
    ensures Select(Added(t.steer, Next(t, step).steer), CallsForFallback) == FallbackCaused(t, step)
  {
    AddedSelects(t, step, IsSuccess);
    VerdictSucceeds(t, step);
    AddedSelects(t, step, CallsForFallback);
    VerdictFallsBack(t, step);
  }

  /** Removals and fallbacks so far, with those still in the mail. */
  function Removals(s: Sys): multiset<EventId> {
    s.removed + Select(s.mailbox, IsSuccess)
  }

  function Fallbacks(s: Sys): multiset<EventId> {
    s.fallbacks + Select(s.mailbox, CallsForFallback)
  }

  lemma {:induction false} TurnStepCauses(s: Sys, step: Step)
    requires step.Iterate?
    ensures Removals(StepTurn(s, step)) == Removals(s) + SuccessRead(s.turn, step)
    ensures Fallbacks(StepTurn(s, step)) == Fallbacks(s) + FallbackCaused(s.turn, step)
  {
    StepSelects(s.turn, step);
    var added := Added(s.turn.steer, Next(s.turn, step).steer);
    SelectConcat(s.mailbox, added, IsSuccess);
    SelectConcat(s.mailbox, added, CallsForFallback);
    var u := StepTurn(s, step);
    assert u.mailbox == s.mailbox + added && u.removed == s.removed && u.fallbacks == s.fallbacks;
  }

  lemma {:induction false} TakeMailFields(s: Sys, i: nat)
    requires i < |s.mailbox|
    ensures var u, m := TakeMail(s, i), s.mailbox[i];
      && u.mailbox == s.mailbox[..i] + s.mailbox[i + 1..]
      && u.removed == s.removed + (if IsSuccess(m.how) then multiset{m.req} else multiset{})
      && u.fallbacks == s.fallbacks + (if CallsForFallback(m.how) then multiset{m.req} else multiset{})
  {
    assert Decide(s.mailbox[i].how).remove == IsSuccess(s.mailbox[i].how);
    assert Decide(s.mailbox[i].how).fallback == CallsForFallback(s.mailbox[i].how);
  }

  lemma Regroup(a: multiset<EventId>, b: multiset<EventId>, x: multiset<EventId>)
    ensures (a + x) + b == a + (b + x)
  {
  }

  lemma {:induction false} TakeMailCauses(s: Sys, i: nat)
    requires i < |s.mailbox|
    ensures Removals(TakeMail(s, i)) == Removals(s)
    ensures Fallbacks(TakeMail(s, i)) == Fallbacks(s)
  {
    var m, u := s.mailbox[i], TakeMail(s, i);
    TakeMailFields(s, i);
    SelectWithout(s.mailbox, i, IsSuccess);
    Regroup(s.removed, Select(u.mailbox, IsSuccess), if IsSuccess(m.how) then multiset{m.req} else multiset{});
    SelectWithout(s.mailbox, i, CallsForFallback);
    Regroup(s.fallbacks, Select(u.mailbox, CallsForFallback),
            if CallsForFallback(m.how) then multiset{m.req} else multiset{});
  }

  lemma OthersCauseNothing(s: Sys, input: Input)
    requires !input.TurnStep? && !input.Deliver?
    ensures var u := After(s, input);
      u.removed == s.removed && u.fallbacks == s.fallbacks && u.mailbox == s.mailbox
  {
  }

  lemma {:induction false} InputCauses(s: Sys, x: Input)
    ensures Removals(After(s, x)) == Removals(s) + SuccessNow(s.turn, x)
    ensures Fallbacks(After(s, x)) == Fallbacks(s) + FallbackNow(s.turn, x)
  {
    if x.TurnStep? {
      TurnStepCauses(s, Iterate(x.beforeTop, x.beforeWake, x.handling, x.wake));
    } else if x.Deliver? {
      if x.i < |s.mailbox| {
        TakeMailCauses(s, x.i);
      }
    } else {
      OthersCauseNothing(s, x);
    }
  }

  /**
   * In every run the events removed for good are those whose own success reply was
   * read, and the cancel+merge fallback fires for exactly the steers that were never
   * written or that the agent answered with -32601; the rest is still in the mail.
   */
  lemma {:induction false} ActionsHaveCauses(s: Sys, inputs: seq<Input>)
    requires Initial(s)
    ensures Removals(Trace(s, inputs)) == SuccessReads(s, inputs)
    ensures Fallbacks(Trace(s, inputs)) == FallbacksCaused(s, inputs)
    ensures var u := Trace(s, inputs);
      u.mailbox == [] ==> u.removed == SuccessReads(s, inputs) && u.fallbacks == FallbacksCaused(s, inputs)
    decreases inputs
  {
    if inputs != [] {
      var n := |inputs| - 1;
      ActionsHaveCauses(s, inputs[..n]);
      InputCauses(Trace(s, inputs[..n]), inputs[n]);
    }
  }

  // ------------------------------------------------------------ where every event is

  /** Every posted event is pending, withheld, flushed to an agent, removed as delivered, or dropped. */
  predicate Booked(s: Store) {
    s.posted == Contents(s.lane) + s.flushed + s.delivered + s.lost
  }

  lemma GoneRest(before: multiset<EventId>, after: Lane)
    requires Contents(after) <= before
    ensures Contents(after) + Gone(before, after) == before
  {
  }

  lemma {:induction false} PostBooked(s: Store, id: EventId)
    requires Booked(s)
    ensures Booked(StorePost(s, id))
  {
    PushContents(s.lane, id);
    GoneRest(Contents(s.lane) + multiset{id}, Push(s.lane, id));
  }

  lemma WithholdBooked(s: Store, id: EventId)
    requires Booked(s)
    ensures Booked(StoreWithhold(s, id))
  {
    MarkPendingContents(s.lane, id);
  }

  lemma {:induction false} ReleaseBooked(s: Store, id: EventId)
    requires Booked(s)
    ensures Booked(StoreRelease(s, id))
  {
    ReleaseContents(s.lane, id);
    GoneRest(Contents(s.lane), Release(s.lane, id));
  }

  lemma RemoveBooked(s: Store, id: EventId)
    requires Booked(s)
    ensures Booked(StoreRemove(s, id))
  {
    RemoveEventContents(s.lane, id);
    assert Contents(RemoveEvent(s.lane, id)) <= Contents(s.lane);
    GoneRest(Contents(s.lane), RemoveEvent(s.lane, id));
  }

  lemma FlushBooked(s: Store)
    requires Booked(s)
    ensures Booked(StoreFlush(s))
  {
    FlushContents(s.lane);
    GoneRest(Contents(s.lane), Flush(s.lane));
  }

  lemma ExpireBooked(s: Store)
    requires Booked(s)
    ensures Booked(StoreExpire(s))
  {
    RecoverContents(s.lane);
    GoneRest(Contents(s.lane), Recover(s.lane));
  }

  lemma DrainBooked(s: Store)
    requires Booked(s)
    ensures Booked(StoreDrain(s))
  {
    GoneRest(Contents(s.lane), Drain(s.lane));
  }

  lemma {:induction false} DeliverBooked(s: Sys, i: nat)
    requires Booked(s.store) && i < |s.mailbox|
    ensures Booked(TakeMail(s, i).store)
  {
    if Decide(s.mailbox[i].how).remove {
      RemoveBooked(s.store, s.mailbox[i].req);
    } else {
      ReleaseBooked(s.store, s.mailbox[i].req);
    }
  }

  lemma TurnKeepsStore(s: Sys, input: Input)
    requires input.TurnStep? || input.NewTurn?
    ensures After(s, input).store == s.store
  {
  }

  /** What the main loop does to the store on its own. */
  function StoreAfter(s: Store, input: Input): Store {
    match input
    case Enqueue(id) => StorePost(s, id)
    case FlushBatch => StoreFlush(s)
    case Expire => StoreExpire(s)
    case DrainChannel => StoreDrain(s)
    case _ => s
  }

  predicate Bulk(input: Input) {
    input.Enqueue? || input.FlushBatch? || input.Expire? || input.DrainChannel?
  }

  lemma BulkIs(s: Sys, input: Input)
    requires Bulk(input)
    ensures After(s, input) == s.(store := StoreAfter(s.store, input))
  {
  }

  lemma BulkBooked(s: Store, input: Input)
    requires Booked(s)
    ensures Booked(StoreAfter(s, input))
  {
    match input
    case Enqueue(id) => PostBooked(s, id);
    case FlushBatch => FlushBooked(s);
    case Expire => ExpireBooked(s);
    case DrainChannel => DrainBooked(s);
    case _ =>
  }

  lemma PostIs(s: Sys, id: EventId)
    ensures After(s, Post(id)).store ==
      if s.turn.result.None? && s.turn.steer.channel.None? then StoreWithhold(StorePost(s.store, id), id)
      else StorePost(s.store, id)
  {
  }

  lemma PostedBooked(s: Sys, id: EventId)
    requires Booked(s.store)
    ensures Booked(After(s, Post(id)).store)
  {
    PostIs(s, id);
    PostBooked(s.store, id);
    WithholdBooked(StorePost(s.store, id), id);
  }

  lemma DeliverIs(s: Sys, i: nat)
    ensures After(s, Deliver(i)) == if i < |s.mailbox| then TakeMail(s, i) else s
  {
  }

  lemma {:induction false} AfterBooked(s: Sys, input: Input)
    requires Booked(s.store)
    ensures Booked(After(s, input).store)
  {
    if Bulk(input) {
      BulkIs(s, input);
      BulkBooked(s.store, input);
    } else if input.Post? {
      PostedBooked(s, input.id);
    } else if input.Deliver? {
      DeliverIs(s, input.i);
      if input.i < |s.mailbox| {
        DeliverBooked(s, input.i);
      }
    } else {
      TurnKeepsStore(s, input);
    }
  }

  /** No event is ever lost track of or duplicated, whatever the inputs. */
  lemma {:induction false} EventsConserved(s: Sys, inputs: seq<Input>)
    requires Initial(s)
    ensures Booked(Trace(s, inputs).store)
    decreases inputs
  {
    if inputs != [] {
      EventsConserved(s, inputs[..|inputs| - 1]);
      AfterBooked(Trace(s, inputs[..|inputs| - 1]), inputs[|inputs| - 1]);
    }
  }

  /** Withheld, or dropped while it was. */
  predicate Kept(s: Store, id: EventId) {
    id in s.lane.withheld || id in s.lost
  }

  predicate Finished(s: Store, id: EventId) {
    id in s.delivered || id in s.lost
  }

  /**
   * While the steer of an event is on its way the event is withheld (or was dropped with
   * the channel); once removed as delivered it is nowhere else.
   */
  predicate Placed(s: Sys, id: EventId) {
    && s.accepted[id] <= s.store.posted[id]
    && (id in Awaiting(s) ==> Kept(s.store, id))
    && (id in s.removed ==> Finished(s.store, id))
  }

  lemma PostKeeps(s: Store, id: EventId, x: EventId)
    ensures Kept(s, x) ==> Kept(StorePost(s, id), x) && Kept(StoreWithhold(StorePost(s, id), id), x)
    ensures Finished(s, x) ==> Finished(StorePost(s, id), x) && Finished(StoreWithhold(StorePost(s, id), id), x)
    ensures id in StoreWithhold(StorePost(s, id), id).lane.withheld
  {
    PushContents(s.lane, id);
    assert Push(s.lane, id).withheld == s.lane.withheld;
  }

  /** A new steer is on its way exactly when the running turn's channel took it. */
  lemma PostAwaits(s: Sys, id: EventId)
    ensures Awaiting(PostEvent(s, id)) ==
      Awaiting(s) + (if s.turn.result.None? && s.turn.steer.channel.None? then multiset{id} else multiset{})
  {
    var u := PostEvent(s, id);
    assert u.mailbox == s.mailbox;
    if s.turn.result.None? {
      assert u.turn.steer == Receive(s.turn.steer, id);
    }
  }

  lemma {:induction false} PostPlaced(s: Sys, id: EventId, x: EventId)
    requires Placed(s, x)
    ensures Placed(PostEvent(s, id), x)
  {
    PostAwaits(s, id);
    PostKeeps(s.store, id, x);
    PostKeeps(s.store, id, id);
    assert PostEvent(s, id).removed == s.removed;
  }

  /** The steer whose outcome is taken was the only one on its way for that event. */
  lemma TakenIsAlone(s: Sys, i: nat)
    requires Accounted(s) && i < |s.mailbox|
    requires s.accepted[s.mailbox[i].req] <= 1
    ensures s.mailbox[i].req in Awaiting(s) && s.mailbox[i].req !in Awaiting(TakeMail(s, i))
  {
    var id, u := s.mailbox[i].req, TakeMail(s, i);
    TakeMailAccounted(s, i);
    assert Mail(s)[id] == Mail(u)[id] + 1;
    assert u.turn == s.turn;
  }

  /** Acting on one event leaves the other withheld ones withheld. */
  lemma OthersStay(s: Store, id: EventId, x: EventId)
    requires x != id && Kept(s, x)
    ensures Kept(StoreRemove(s, id), x) && Kept(StoreRelease(s, id), x)
  {
    if x in s.lane.withheld {
      RemoveEventContents(s.lane, id);
      ReleaseContents(s.lane, id);
      assert multiset(s.lane.withheld)[x] > 0;
      assert x in multiset(Release(s.lane, id).withheld);
    }
  }

  lemma RemovalFinishes(s: Store, id: EventId)
    requires Kept(s, id)
    ensures Finished(StoreRemove(s, id), id)
  {
    if id in s.lane.withheld {
      RemoveEventContents(s.lane, id);
      assert multiset(s.lane.withheld)[id] > 0;
      assert Gone(Contents(s.lane), RemoveEvent(s.lane, id))[id] > 0;
    }
  }

  lemma TakeOwnPlaced(s: Sys, i: nat)
    requires Accounted(s) && i < |s.mailbox|
    requires Placed(s, s.mailbox[i].req) && s.store.posted[s.mailbox[i].req] <= 1
    ensures Placed(TakeMail(s, i), s.mailbox[i].req)
  {
    TakenIsAlone(s, i);
    RemovalFinishes(s.store, s.mailbox[i].req);
  }

  lemma TakeOtherPlaced(s: Sys, i: nat, x: EventId)
    requires Accounted(s) && i < |s.mailbox|
    requires Placed(s, x) && x != s.mailbox[i].req
    ensures Placed(TakeMail(s, i), x)
  {
    var u := TakeMail(s, i);
    TakeMailAccounted(s, i);
    assert u.turn == s.turn && Mail(u)[x] == Mail(s)[x] && Awaiting(u)[x] == Awaiting(s)[x];
    assert u.removed[x] == s.removed[x] && u.accepted == s.accepted && u.store.posted == s.store.posted;
    if Kept(s.store, x) {
      OthersStay(s.store, s.mailbox[i].req, x);
    }
  }

  lemma TakePlaced(s: Sys, i: nat, x: EventId)
    requires Accounted(s) && i < |s.mailbox| && Placed(s, x) && s.store.posted[x] <= 1
    ensures Placed(TakeMail(s, i), x)
  {
    if s.mailbox[i].req == x {
      TakeOwnPlaced(s, i);
    } else {
      TakeOtherPlaced(s, i, x);
    }
  }

  /** Placement only looks at the requests on their way and at the store. */
  lemma StillPlaced(s: Sys, u: Sys, x: EventId)
    requires Placed(s, x) && Awaiting(u) == Awaiting(s)
    requires u.accepted == s.accepted && u.removed == s.removed && u.store.posted == s.store.posted
    requires Kept(s.store, x) ==> Kept(u.store, x)
    requires Finished(s.store, x) ==> Finished(u.store, x)
    ensures Placed(u, x)
  {
  }

  lemma EnqueueKeeps(s: Store, id: EventId, x: EventId)
    ensures Kept(s, x) ==> Kept(StorePost(s, id), x)
    ensures Finished(s, x) ==> Finished(StorePost(s, id), x)
    ensures s.posted <= StorePost(s, id).posted
  {
    PostKeeps(s, id, x);
  }

  lemma {:induction false} EnqueuePlaced(s: Sys, id: EventId, x: EventId)
    requires Placed(s, x)
    ensures Placed(s.(store := StorePost(s.store, id)), x)
  {
    EnqueueKeeps(s.store, id, x);
    var u := s.(store := StorePost(s.store, id));
    assert Awaiting(u) == Awaiting(s);
  }

  lemma {:induction false} BulkPlaced(s: Sys, input: Input, x: EventId)
    requires Placed(s, x) && Bulk(input) && Spares(s, input, x)
    ensures Placed(After(s, input), x)
  {
    BulkIs(s, input);
    if input.Enqueue? {
      EnqueuePlaced(s, input.id, x);
    } else {
      FlushContents(s.store.lane);
      if x in s.store.lane.withheld {
        assert Contents(s.store.lane)[x] > 0;
      }
      StillPlaced(s, s.(store := StoreAfter(s.store, input)), x);
    }
  }

  lemma {:induction false} StepPlaced(s: Sys, step: Step, x: EventId)
    requires Accounted(s) && Placed(s, x) && step.Iterate?
    ensures Placed(StepTurn(s, step), x)
  {
    StepMail(s, step);
    StillPlaced(s, StepTurn(s, step), x);
  }

  lemma {:induction false} NewTurnPlaced(s: Sys, input: Input, x: EventId)
    requires Accounted(s) && Placed(s, x) && input.NewTurn?
    ensures Placed(After(s, input), x)
  {
    NewTurnAccounted(s, input);
    StillPlaced(s, After(s, input), x);
  }

  /** The input is no expiry that finds the event withheld. */
  predicate Spares(s: Sys, input: Input, x: EventId) {
    input.Expire? ==> x !in s.store.lane.withheld
  }

  lemma StepIs(s: Sys, input: Input)
    requires input.TurnStep?
    ensures After(s, input) == StepTurn(s, Iterate(input.beforeTop, input.beforeWake, input.handling, input.wake))
  {
  }

  lemma PostPlacedAfter(s: Sys, id: EventId, x: EventId)
    requires Placed(s, x)
    ensures Placed(After(s, Post(id)), x)
  {
    PostPlaced(s, id, x);
  }

  lemma {:induction false} AfterPlaced(s: Sys, input: Input, x: EventId)
    requires Accounted(s) && Placed(s, x) && s.store.posted[x] <= 1 && Spares(s, input, x)
    ensures Placed(After(s, input), x)
  {
    if Bulk(input) {
      BulkPlaced(s, input, x);
    } else if input.Post? {
      PostPlacedAfter(s, input.id, x);
    } else if input.Deliver? {
      DeliverIs(s, input.i);
      if input.i < |s.mailbox| {
        TakePlaced(s, input.i, x);
      }
    } else if input.TurnStep? {
      StepIs(s, input);
      StepPlaced(s, Iterate(input.beforeTop, input.beforeWake, input.handling, input.wake), x);
    } else {
      NewTurnPlaced(s, input, x);
    }
  }

  lemma PostedGrows(s: Sys, input: Input)
    ensures s.store.posted <= After(s, input).store.posted
  {
  }

  predicate DeliveredTwice(s: Sys, id: EventId) {
    id in s.removed && id in s.store.flushed
  }

  lemma PlacedOnce(s: Sys, id: EventId)
    requires Booked(s.store) && Placed(s, id) && s.store.posted[id] <= 1
    ensures !DeliveredTwice(s, id)
  {
    var w := s.store;
    assert w.posted[id] == Contents(w.lane)[id] + w.flushed[id] + w.delivered[id] + w.lost[id];
  }

  ghost predicate SparedAt(s: Sys, inputs: seq<Input>, k: nat, id: EventId)
    requires k < |inputs|
  {
    Spares(Trace(s, inputs[..k]), inputs[k], id)
  }

  /** No expiry of the run finds the event withheld. */
  ghost predicate Spared(s: Sys, inputs: seq<Input>, id: EventId) {
    forall k :: 0 <= k < |inputs| ==> SparedAt(s, inputs, k, id)
  }

  lemma SparedInit(s: Sys, inputs: seq<Input>, id: EventId)
    requires inputs != [] && Spared(s, inputs, id)
    ensures Spared(s, inputs[..|inputs| - 1], id)
  {
    var n := |inputs| - 1;
    forall k | 0 <= k < n ensures SparedAt(s, inputs[..n], k, id) {
      assert inputs[..n][..k] == inputs[..k] && SparedAt(s, inputs, k, id);
    }
  }

  lemma {:induction false} PlacedAlways(s: Sys, inputs: seq<Input>, id: EventId)
    requires Initial(s) && Trace(s, inputs).store.posted[id] <= 1 && Spared(s, inputs, id)
    ensures Placed(Trace(s, inputs), id)
    decreases inputs
  {
    if inputs != [] {
      var n := |inputs| - 1;
      var v := Trace(s, inputs[..n]);
      PostedGrows(v, inputs[n]);
      assert v.store.posted[id] <= Trace(s, inputs).store.posted[id];
      SparedInit(s, inputs, id);
      PlacedAlways(s, inputs[..n], id);
      OneActionPerSteer(s, inputs[..n]);
      assert SparedAt(s, inputs, n, id);
      AfterPlaced(v, inputs[n], id);
    }
  }

  /**
   * An event posted once whose steer succeeded is never handed to an agent by normal
   * dispatch as well, in any run in which no expiry finds it withheld; other expiries
   * do no harm.
   */
  lemma {:induction false} NeverDeliveredTwice(s: Sys, inputs: seq<Input>, id: EventId)
    requires Initial(s) && Trace(s, inputs).store.posted[id] <= 1 && Spared(s, inputs, id)
    ensures !DeliveredTwice(Trace(s, inputs), id)
  {
    PlacedAlways(s, inputs, id);
    EventsConserved(s, inputs);
    PlacedOnce(Trace(s, inputs), id);
  }

  lemma TraceSnoc(s: Sys, a: seq<Input>, x: Input)
    ensures Trace(s, a + [x]) == After(Trace(s, a), x)
  {
    assert (a + [x])[..|a|] == a;
  }

  lemma {:induction false} TraceConcat(s: Sys, a: seq<Input>, b: seq<Input>)
    ensures Trace(s, a + b) == Trace(Trace(s, a), b)
    decreases b
  {
    if b == [] {
      assert a + b == a;
    } else {
      var n := |b| - 1;
      assert a + b == (a + b[..n]) + [b[n]] && b == b[..n] + [b[n]];
      TraceConcat(s, a, b[..n]);
      TraceSnoc(s, a + b[..n], b[n]);
      TraceSnoc(Trace(s, a), b[..n], b[n]);
    }
  }

  lemma BulkGrows(s: Store, input: Input, id: EventId)
    ensures s.posted[id] <= StoreAfter(s, input).posted[id] && s.lost[id] <= StoreAfter(s, input).lost[id]
  {
  }

  lemma PostGrows(s: Store, x: EventId, id: EventId)
    ensures s.posted[id] <= StorePost(s, x).posted[id] && s.lost[id] <= StorePost(s, x).lost[id]
    ensures StoreWithhold(s, x).posted == s.posted && StoreWithhold(s, x).lost == s.lost
  {
  }

  lemma ActionGrows(s: Store, x: EventId, id: EventId)
    ensures StoreRemove(s, x).posted == StoreRelease(s, x).posted == s.posted
    ensures s.lost[id] <= StoreRemove(s, x).lost[id] && s.lost[id] <= StoreRelease(s, x).lost[id]
  {
  }

  lemma TakeMailStore(s: Sys, i: nat)
    requires i < |s.mailbox|
    ensures TakeMail(s, i).store == StoreRemove(s.store, s.mailbox[i].req) ||
      TakeMail(s, i).store == StoreRelease(s.store, s.mailbox[i].req)
  {
  }

  lemma GrowsOnce(s: Sys, input: Input, id: EventId)
    ensures s.store.posted[id] <= After(s, input).store.posted[id]
    ensures s.store.lost[id] <= After(s, input).store.lost[id]
  {
    if Bulk(input) {
      BulkIs(s, input);
      BulkGrows(s.store, input, id);
    } else if input.Post? {
      PostIs(s, input.id);
      PostGrows(s.store, input.id, id);
      PostGrows(StorePost(s.store, input.id), input.id, id);
    } else if input.Deliver? {
      DeliverIs(s, input.i);
      if input.i < |s.mailbox| {
        TakeMailStore(s, input.i);
        ActionGrows(s.store, s.mailbox[input.i].req, id);
      }
    } else {
      TurnKeepsStore(s, input);
    }
  }

  lemma {:induction false} TraceGrows(s: Sys, c: seq<Input>, id: EventId)
    ensures s.store.posted[id] <= Trace(s, c).store.posted[id]
    ensures s.store.lost[id] <= Trace(s, c).store.lost[id]
    decreases c
  {
    if c != [] {
      var n := |c| - 1;
      TraceGrows(s, c[..n], id);
      GrowsOnce(Trace(s, c[..n]), c[n], id);
    }
  }

  // ------------------------------------------------------------ the side table empties

  /** Every withheld event has a steer on its way, counted with repetition. */
  predicate Justified(s: Sys) {
    multiset(s.store.lane.withheld) <= Awaiting(s)
  }

  lemma WithheldOnPost(l: Lane, id: EventId)
    ensures multiset(Push(l, id).withheld) == multiset(l.withheld)
    ensures multiset(MarkPending(Push(l, id), id).withheld) <= multiset(l.withheld) + multiset{id}
  {
  }

  lemma PostJustified(s: Sys, id: EventId)
    requires Justified(s)
    ensures Justified(After(s, Post(id)))
  {
    PostIs(s, id);
    PostAwaits(s, id);
    WithheldOnPost(s.store.lane, id);
  }

  /** A release takes one occurrence of the event out of the side table, if there is one; a removal all. */
  lemma WithheldOnRelease(l: Lane, id: EventId)
    ensures multiset(Release(l, id).withheld) == multiset(l.withheld) - multiset{id}
  {
    var i := Position(l.withheld, id);
    if i < |l.withheld| {
      WithoutContents(l.withheld, i);
    } else {
      assert multiset(l.withheld)[id] == 0;
    }
  }

  lemma WithheldOnRemoval(l: Lane, id: EventId)
    ensures multiset(RemoveEvent(l, id).withheld) <= multiset(l.withheld) - multiset{id}
  {
    RetainContents(l.withheld, id);
  }

  lemma TakeJustified(s: Sys, i: nat)
    requires Accounted(s) && Justified(s) && i < |s.mailbox|
    ensures Justified(TakeMail(s, i))
  {
    var u, id := TakeMail(s, i), s.mailbox[i].req;
    TakeMailAccounted(s, i);
    assert u.turn == s.turn;
    assert Awaiting(u) + multiset{id} == Awaiting(s);
    WithheldOnRelease(s.store.lane, id);
    WithheldOnRemoval(s.store.lane, id);
    assert multiset(u.store.lane.withheld) <= multiset(s.store.lane.withheld) - multiset{id};
  }

  lemma BulkJustified(s: Sys, input: Input)
    requires Justified(s) && Bulk(input)
    ensures Justified(After(s, input))
  {
    BulkIs(s, input);
    var u := After(s, input);
    assert Awaiting(u) == Awaiting(s);
    assert u.store.lane.withheld == s.store.lane.withheld || u.store.lane.withheld == [];
  }

  lemma AfterJustified(s: Sys, input: Input)
    requires Accounted(s) && Justified(s)
    ensures Justified(After(s, input))
  {
    if Bulk(input) {
      BulkJustified(s, input);
    } else if input.Post? {
      PostJustified(s, input.id);
    } else if input.Deliver? {
      DeliverIs(s, input.i);
      if input.i < |s.mailbox| {
        TakeJustified(s, input.i);
      }
    } else if input.TurnStep? {
      StepIs(s, input);
      StepMail(s, Iterate(input.beforeTop, input.beforeWake, input.handling, input.wake));
      TurnKeepsStore(s, input);
    } else {
      NewTurnAccounted(s, input);
      TurnKeepsStore(s, input);
    }
  }

  /**
   * In every run an event is withheld only while a steer for it is on its way; so nothing
   * is withheld once the turn is over and the mailbox empty.
   */
  lemma {:induction false} SideTableEmpties(s: Sys, inputs: seq<Input>)
    requires Initial(s)
    ensures var u := Trace(s, inputs);
      && multiset(u.store.lane.withheld) <= Awaiting(u)
      && (u.turn.result.Some? && u.mailbox == [] ==> u.store.lane.withheld == [])
    decreases inputs
  {
    if inputs != [] {
      var n := |inputs| - 1;
      SideTableEmpties(s, inputs[..n]);
      OneActionPerSteer(s, inputs[..n]);
      AfterJustified(Trace(s, inputs[..n]), inputs[n]);
    }
    OneActionPerSteer(s, inputs);
    var u := Trace(s, inputs);
    if u.store.lane.withheld != [] {
      assert u.store.lane.withheld[0] in multiset(u.store.lane.withheld);
      assert u.store.lane.withheld[0] in Awaiting(u);
    }
  }

  // ------------------------------------------------------------------ the main loop

  /** The steer fork of the relay arm, after the event was pushed; `sent` is the outcome of `send_steer`. */
  method TryNativeSteer(queue: EventQueue, ch: Channel, id: EventId, sent: bool) returns (native: bool)
    modifies queue
    ensures native == sent
    ensures queue.LaneOf(ch) == if sent then MarkPending(old(queue.LaneOf(ch)), id) else old(queue.LaneOf(ch))
    ensures forall c :: c != ch ==> queue.LaneOf(c) == old(queue.LaneOf(c))
  {
    if !sent {
      return false;
    }
    var withheld := queue.MarkNativeSteerPending(ch, id);
    native := true;
  }

  /** The SteerAck arm: applies the decided action and says whether to signal the fallback. */
  method OnSteerAck(queue: EventQueue, ch: Channel, m: Resolved) returns (fallback: bool)
    modifies queue
    ensures fallback <==> CallsForFallback(m.how)
    ensures queue.LaneOf(ch) ==
      if IsSuccess(m.how) then RemoveEvent(old(queue.LaneOf(ch)), m.req) else Release(old(queue.LaneOf(ch)), m.req)
    ensures forall c :: c != ch ==> queue.LaneOf(c) == old(queue.LaneOf(c))
  {
    var act := Decide(m.how);
    if act.remove {
      queue.RemoveById(ch, m.req);
    }
    if act.release {
      queue.ReleaseNativeSteer(ch, m.req);
    }
    fallback := act.fallback;
  }
}
