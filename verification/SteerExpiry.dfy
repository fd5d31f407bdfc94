/** When one in-flight expiry makes one event reach the agent twice. */
module SteerExpiry {
  import opened Prelude
  import opened SteerTurn
  import opened SteerQueue
  import opened SteerSystem
  import opened SteerClock

  // ------------------------------------------------- can the steer still succeed

  /** The iteration that the read loop is in began before its deadline. */
  predicate HasTime(t: Turn) {
    t.result.None? && t.time.now < NextDeadline(t.time)
  }

  /**
   * The steer waits for the prompt; or it is on the wire; or it waits in the channel and
   * there is time for the iterations that have to come first, or a reply to the steer
   * before it to grant some.
   */
  predicate CanSucceed(t: Timed, id: EventId) {
    var turn := t.sys.turn;
    match t.stage
    case Idle => false
    case Waiting => turn.result.None? && turn.steer.channel == Some(id)
    case Running =>
      HasTime(turn) &&
      (Carries(turn.steer, id) ||
       (turn.steer.channel == Some(id) && (t.now < turn.time.hardDeadline || turn.steer.pending.Some?)))
  }

  predicate InMail(s: Sys, id: EventId) {
    Resolved(id, Acked(Success)) in s.mailbox
  }

  /** A success of this steer is on its way to the main loop, or can still come about. */
  predicate Live(t: Timed, id: EventId) {
    InMail(t.sys, id) || CanSucceed(t, id)
  }

  // ----------------------------------------------------------- runs that go on

  lemma TimelineSnoc(t: Timed, hs: seq<Happening>, h: Happening)
    ensures Timeline(t, hs + [h]) == Happen(Timeline(t, hs), h)
  {
    assert (hs + [h])[..|hs|] == hs;
  }

  lemma {:induction false} TimelineConcat(t: Timed, a: seq<Happening>, b: seq<Happening>)
    ensures Timeline(t, a + b) == Timeline(Timeline(t, a), b)
    decreases b
  {
    if b == [] {
      assert a + b == a;
    } else {
      var n := |b| - 1;
      assert a + b == (a + b[..n]) + [b[n]] && b == b[..n] + [b[n]];
      TimelineConcat(t, a, b[..n]);
      TimelineSnoc(t, a + b[..n], b[n]);
      TimelineSnoc(Timeline(t, a), b[..n], b[n]);
    }
  }

  lemma TimelineOne(t: Timed, h: Happening)
    ensures Timeline(t, [h]) == Happen(t, h)
  {
    assert [h][..0] == [] && Timeline(t, []) == t;
  }

  lemma TimelineCons(t: Timed, h: Happening, c: seq<Happening>)
    ensures Timeline(t, [h] + c) == Timeline(Happen(t, h), c)
  {
    TimelineConcat(t, [h], c);
    TimelineOne(t, h);
  }

  predicate NoExpiry(c: seq<Happening>) {
    forall k :: 0 <= k < |c| ==> c[k] != Do(Expire)
  }

  lemma NoExpiryConcat(a: seq<Happening>, b: seq<Happening>)
    requires NoExpiry(a) && NoExpiry(b)
    ensures NoExpiry(a + b)
  {
  }

  // ------------------------------------------------------------ the steer succeeds

  /** The script removes the event as delivered, posts nothing and takes back no dispatch. */
  predicate Removes(t: Timed, c: seq<Happening>, id: EventId) {
    var u := Timeline(t, c).sys;
    && NoExpiry(c) && id in u.removed && u.store.posted == t.sys.store.posted
    && t.sys.store.flushed[id] <= u.store.flushed[id]
  }

  lemma RemovesCons(t: Timed, h: Happening, c: seq<Happening>, id: EventId)
    requires h != Do(Expire) && Happen(t, h).sys.store == t.sys.store && Removes(Happen(t, h), c, id)
    ensures Removes(t, [h] + c, id)
  {
    TimelineCons(t, h, c);
    NoExpiryConcat([h], c);
  }

  lemma TakeSuccess(s: Sys, i: nat, id: EventId)
    requires i < |s.mailbox| && s.mailbox[i] == Resolved(id, Acked(Success))
    ensures var u := After(s, Deliver(i));
      id in u.removed && u.store.posted == s.store.posted && u.store.flushed == s.store.flushed
  {
    DeliverIs(s, i);
  }

  lemma FinishMail(t: Timed, id: EventId) returns (c: seq<Happening>)
    requires InMail(t.sys, id)
    ensures Removes(t, c, id)
  {
    var i: nat :| i < |t.sys.mailbox| && t.sys.mailbox[i] == Resolved(id, Acked(Success));
    c := [Do(Deliver(i))];
    TakeSuccess(t.sys, i, id);
    DoIs(t, Deliver(i));
    TimelineOne(t, Do(Deliver(i)));
  }

  /** An iteration that ends now. */
  function AtNow(t: Timed, wake: Wake): Happening {
    Do(TurnStep(0, Gap(t), 0, wake))
  }

  function Reading(m: Message): Wake {
    Read(Parsed(m))
  }

  /** The turn as it wakes up now. */
  function Woken(t: Timed): Turn {
    t.sys.turn.(time := Pass(t.sys.turn.time, Gap(t)))
  }

  predicate Ready(t: Timed) {
    Synced(t) && t.stage.Running? && HasTime(t.sys.turn)
  }

  lemma NowSteps(t: Timed, wake: Wake)
    requires Ready(t) && (wake.Steer? || (wake.Read? && wake.line.Parsed?))
    ensures var u := Happen(t, AtNow(t, wake));
      && u.sys.turn == HandleWake(Woken(t), 0, wake)
      && u.sys.store == t.sys.store && u.sys.mailbox == t.sys.mailbox + Adds(t.sys.turn, StepOf(AtNow(t, wake).input))
      && u.now == t.now && u.stage.Running? && Synced(u) && u.limits == t.limits
  {
    StepAdds(t, AtNow(t, wake).input);
    HappenSynced(t, AtNow(t, wake));
  }

  lemma FinishWire(t: Timed, id: EventId) returns (c: seq<Happening>)
    requires Ready(t) && Carries(t.sys.turn.steer, id)
    ensures Removes(t, c, id)
  {
    var wake := Reading(Message(Some(IdNumber(t.sys.turn.steer.pending.value.id)), Absent, None));
    var h := AtNow(t, wake);
    NowSteps(t, wake);
    AddsVerdict(t.sys.turn, StepOf(h.input), id, Acked(Success));
    var rest := FinishMail(Happen(t, h), id);
    c := [h] + rest;
    RemovesCons(t, h, rest, id);
  }

  lemma FinishWrite(t: Timed, id: EventId) returns (c: seq<Happening>)
    requires Ready(t) && t.sys.turn.steer.channel == Some(id) && t.now < NextDeadline(t.sys.turn.time)
    requires t.sys.turn.steer.pending.None? && t.sys.turn.steer.activeRun.Some?
    ensures Removes(t, c, id)
  {
    var h := AtNow(t, Steer(true));
    NowSteps(t, Steer(true));
    var rest := FinishWire(Happen(t, h), id);
    c := [h] + rest;
    RemovesCons(t, h, rest, id);
  }

  /** A line with the run id comes first. */
  lemma FinishRun(t: Timed, id: EventId) returns (c: seq<Happening>)
    requires Ready(t) && t.sys.turn.steer.channel == Some(id) && t.sys.turn.steer.pending.None?
    requires t.now < t.sys.turn.time.hardDeadline
    ensures Removes(t, c, id)
  {
    var wake := Reading(Message(None, SessionUpdate(false, SetRun(0)), None));
    var h := AtNow(t, wake);
    NowSteps(t, wake);
    var rest := FinishWrite(Happen(t, h), id);
    c := [h] + rest;
    RemovesCons(t, h, rest, id);
  }

  /** The success of the steer before grants a fresh budget and frees the wire. */
  lemma FinishChannel(t: Timed, id: EventId) returns (c: seq<Happening>)
    requires Ready(t) && t.sys.turn.steer.channel == Some(id)
    requires t.now < t.sys.turn.time.hardDeadline || t.sys.turn.steer.pending.Some?
    ensures Removes(t, c, id)
  {
    if t.sys.turn.steer.pending.None? {
      c := FinishRun(t, id);
    } else {
      var wake := Reading(Message(Some(IdNumber(t.sys.turn.steer.pending.value.id)), Absent, None));
      var h := AtNow(t, wake);
      NowSteps(t, wake);
      var rest := FinishRun(Happen(t, h), id);
      c := [h] + rest;
      RemovesCons(t, h, rest, id);
    }
  }

  lemma FinishWaiting(t: Timed, id: EventId) returns (c: seq<Happening>)
    requires Synced(t) && t.stage.Waiting? && t.sys.turn.result.None? && t.sys.turn.steer.channel == Some(id)
    ensures Removes(t, c, id)
  {
    var h := Begin(0, 0, 1, Some(0));
    NewTurnIs(t.sys, NewTurn(Gap(t) + h.writing, SettingsOf(t, h.expectedId), t.now + t.limits.maxTurn, h.nextId, h.activeRun));
    BegunSynced(t, h);
    var rest := FinishRun(Happen(t, h), id);
    c := [h] + rest;
    RemovesCons(t, h, rest, id);
  }

  lemma FinishLive(t: Timed, id: EventId) returns (c: seq<Happening>)
    requires Synced(t) && Live(t, id)
    ensures Removes(t, c, id)
  {
    if InMail(t.sys, id) {
      c := FinishMail(t, id);
    } else if t.stage.Waiting? {
      c := FinishWaiting(t, id);
    } else if Carries(t.sys.turn.steer, id) {
      c := FinishWire(t, id);
    } else {
      c := FinishChannel(t, id);
    }
  }

  // --------------------------------------------------------- the event is dispatched

  /** The same moment, mail and turn; only dispatches in between. */
  predicate Beside(t: Timed, u: Timed) {
    && u.now == t.now && u.stage == t.stage && u.limits == t.limits
    && u.sys.mailbox == t.sys.mailbox && u.sys.removed == t.sys.removed && u.sys.store.posted == t.sys.store.posted
    && (!t.stage.Idle? ==> u.sys.turn == t.sys.turn)
  }

  /** One batch was dispatched. */
  predicate BatchOut(t: Timed, u: Timed) {
    && u.sys.store == StoreFlush(t.sys.store) && u.deadline.None?
  }

  lemma DispatchBeside(t: Timed, h: Happening)
    requires Synced(t) && h.Dispatch? && t.deadline.None? && !t.stage.Idle?
    ensures var u := Happen(Happen(t, h), FinishOther); Beside(t, u) && BatchOut(t, u)
  {
    BulkIs(t.sys, FlushBatch);
  }

  lemma FreshDispatch(t: Timed, h: Happening)
    requires Synced(t) && h.Dispatch? && t.deadline.None? && t.stage.Idle?
    ensures var u := Happen(t, h);
      && Synced(u) && u.stage.Waiting? && u.now == t.now && u.limits == t.limits && u.sys.store == StoreFlush(t.sys.store)
      && u.sys.mailbox == t.sys.mailbox && u.sys.removed == t.sys.removed
      && u.sys.turn.result.None? && u.sys.turn.steer.channel == t.sys.turn.steer.channel && u.sys.turn.steer.pending.None?
      && u.sys.turn.time.now == u.now
  {
    var flushed := After(t.sys, FlushBatch);
    BulkIs(t.sys, FlushBatch);
    NewTurnIs(flushed, TurnOf(t, h));
    DispatchedSynced(t, h);
  }

  /** The task of a dispatch that gives up at once. */
  lemma GivesUp(u: Timed)
    requires Synced(u) && u.stage.Waiting? && u.sys.turn.result.None?
    requires u.sys.turn.steer.channel.None? && u.sys.turn.steer.pending.None? && u.sys.turn.time.now == u.now
    ensures var v := Happen(Happen(u, AtNow(u, Eof)), Finish);
      && v.stage.Idle? && v.deadline.None? && v.now == u.now && v.limits == u.limits && v.sys.store == u.sys.store
      && v.sys.mailbox == u.sys.mailbox && v.sys.removed == u.sys.removed
  {
    var step := StepOf(AtNow(u, Eof).input);
    EofEnds(u.sys.turn, step);
    StepAdds(u, AtNow(u, Eof).input);
    assert SteerTurn.Next(u.sys.turn, step).steer == Leave(u.sys.turn.steer, Acked(Neutral));
  }

  const DISPATCH := Dispatch(0, 1, None)

  /** One more batch, in no time: its task ends, or gives up, at once. */
  lemma Cycle(t: Timed) returns (c: seq<Happening>)
    requires Synced(t) && Settled(t.sys.turn) && t.deadline.None?
    ensures NoExpiry(c) && Beside(t, Timeline(t, c)) && BatchOut(t, Timeline(t, c))
  {
    var u := Happen(t, DISPATCH);
    if t.stage.Idle? {
      EndedHoldsNothing(t.sys.turn, 0);
      FreshDispatch(t, DISPATCH);
      GivesUp(u);
      c := [DISPATCH] + ([AtNow(u, Eof)] + [Finish]);
      TimelineCons(t, DISPATCH, [AtNow(u, Eof)] + [Finish]);
      TimelineCons(u, AtNow(u, Eof), [Finish]);
      TimelineOne(Happen(u, AtNow(u, Eof)), Finish);
    } else {
      DispatchBeside(t, DISPATCH);
      c := [DISPATCH] + [FinishOther];
      TimelineCons(t, DISPATCH, [FinishOther]);
      TimelineOne(u, FinishOther);
    }
  }

  lemma FlushTakesHead(l: Lane, id: EventId)
    requires id in l.queue[..Min(MAX_BATCH_EVENTS, |l.queue|)]
    ensures id in Gone(Contents(l), Flush(l))
  {
    var n := Min(MAX_BATCH_EVENTS, |l.queue|);
    TakeContents(l.queue, n);
    assert multiset(l.queue[..n])[id] > 0;
  }

  lemma {:induction false} StaysSynced(t: Timed, c: seq<Happening>)
    requires Synced(t) && Settled(t.sys.turn)
    ensures Synced(Timeline(t, c)) && Settled(Timeline(t, c).sys.turn)
    decreases c
  {
    if c != [] {
      var n := |c| - 1;
      StaysSynced(t, c[..n]);
      HappenSynced(Timeline(t, c[..n]), c[n]);
      HappenSettled(Timeline(t, c[..n]), c[n]);
    }
  }

  lemma {:induction false} SettledTrace(s: Sys, inputs: seq<Input>)
    requires Settled(s.turn)
    ensures Settled(Trace(s, inputs).turn)
    decreases inputs
  {
    if inputs != [] {
      SettledTrace(s, inputs[..|inputs| - 1]);
      AfterSettled(Trace(s, inputs[..|inputs| - 1]), inputs[|inputs| - 1]);
    }
  }

  lemma AfterSettled(s: Sys, x: Input)
    requires Settled(s.turn)
    ensures Settled(After(s, x).turn)
  {
    if x.TurnStep? {
      StepIs(s, x);
      NextSettled(s.turn, StepOf(x));
    } else if x.Post? {
      NextSettled(s.turn, Offer(x.id));
    } else if x.NewTurn? {
      NewTurnIs(s, x);
      assert ReqsOf([]) == [];
    } else if x.Deliver? {
      DeliverIs(s, x.i);
    } else {
      BulkIs(s, x);
    }
  }

  lemma HappenSettled(t: Timed, h: Happening)
    requires Settled(t.sys.turn)
    ensures Settled(Happen(t, h).sys.turn)
  {
    HappenIsTrace(t, h);
    SettledTrace(t.sys, InputsOf(t, h));
  }

  lemma BesideFurther(t: Timed, u: Timed, v: Timed)
    requires Beside(t, u) && Beside(u, v)
    ensures Beside(t, v)
  {
  }

  /** Dispatching batch after batch hands every queued event to an agent. */
  lemma {:induction false} FlushOut(t: Timed, id: EventId) returns (c: seq<Happening>)
    requires Synced(t) && Settled(t.sys.turn) && t.deadline.None? && id in t.sys.store.lane.queue
    ensures NoExpiry(c) && Beside(t, Timeline(t, c)) && id in Timeline(t, c).sys.store.flushed
    decreases |t.sys.store.lane.queue|
  {
    var q := t.sys.store.lane.queue;
    var n := Min(MAX_BATCH_EVENTS, |q|);
    var first := Cycle(t);
    var u := Timeline(t, first);
    assert u.sys.store.lane.queue == q[n..];
    if id in q[..n] {
      FlushTakesHead(t.sys.store.lane, id);
      c := first;
    } else {
      assert q == q[..n] + q[n..];
      StaysSynced(t, first);
      var rest := FlushOut(u, id);
      c := first + rest;
      TimelineConcat(t, first, rest);
      NoExpiryConcat(first, rest);
      BesideFurther(t, u, Timeline(u, rest));
    }
  }

  // ------------------------------------------------------------------ both together

  /** The event is withheld, and early enough to survive the depth cap when it is put back. */
  predicate InReach(l: Lane, id: EventId) {
    id in l.withheld[..Min(MAX_PENDING_PER_CHANNEL, |l.withheld|)]
  }

  lemma RecoveredInReach(l: Lane, id: EventId)
    requires InReach(l, id)
    ensures id in Recover(l).queue
  {
    var n := Min(MAX_PENDING_PER_CHANNEL, |l.withheld|);
    var i: nat :| i < n && l.withheld[..n][i] == id;
    assert Recover(l).queue[i] == id;
  }

  /** One expiry, at the very beginning. */
  predicate OneExpiry(c: seq<Happening>) {
    c != [] && c[0] == Do(Expire) && NoExpiry(c[1..])
  }

  ghost predicate Doubles(t: Timed, c: seq<Happening>, id: EventId) {
    OneExpiry(c) && Timeline(t, c).sys.store.posted[id] <= 1 && DeliveredTwice(Timeline(t, c).sys, id)
  }

  /** An expiry now can be continued so that the event reaches the agent both ways, without its being posted again. */
  ghost predicate CanDeliverTwice(t: Timed, id: EventId) {
    exists c :: Doubles(t, c, id)
  }

  lemma ExpiredIs(t: Timed)
    requires Due(t)
    ensures Happen(t, Do(Expire)) == t.(sys := t.sys.(store := StoreExpire(t.sys.store)), deadline := None)
  {
    BulkIs(t.sys, Expire);
  }

  lemma BesideLive(t: Timed, u: Timed, id: EventId)
    requires Beside(t, u) && Live(t, id)
    ensures Live(u, id)
  {
  }

  lemma {:induction false} ScriptDoubles(t: Timed, id: EventId) returns (c: seq<Happening>)
    requires Synced(t) && Settled(t.sys.turn) && Due(t)
    requires InReach(t.sys.store.lane, id) && Live(t, id) && t.sys.store.posted[id] <= 1
    ensures Doubles(t, c, id)
  {
    var e := Happen(t, Do(Expire));
    ExpiredIs(t);
    RecoveredInReach(t.sys.store.lane, id);
    var flush := FlushOut(e, id);
    var f := Timeline(e, flush);
    StaysSynced(e, flush);
    BesideLive(e, f, id);
    var finish := FinishLive(f, id);
    c := [Do(Expire)] + (flush + finish);
    TimelineCons(t, Do(Expire), flush + finish);
    TimelineConcat(e, flush, finish);
    NoExpiryConcat(flush, finish);
    assert c[1..] == flush + finish;
  }

  // ----------------------------------------------------------- what cannot succeed

  lemma GoesOnInTime(t: Turn, step: Step)
    requires step.Iterate? && SteerTurn.Next(t, step).result.None?
    ensures InTime(t, step) && HasTime(t)
  {
  }

  lemma SuccessNeedsTime(t: Timed, input: Input, id: EventId)
    requires input.TurnStep? && CanStep(t, input) && Resolved(id, Acked(Success)) in Adds(t.sys.turn, StepOf(input))
    ensures CanSucceed(t, id)
  {
    AddsVerdict(t.sys.turn, StepOf(input), id, Acked(Success));
    RunsWhenReporting(t, input);
  }

  lemma SteppedCannot(t: Timed, input: Input, id: EventId)
    requires Synced(t) && input.TurnStep? && CanStep(t, input) && !CanSucceed(t, id)
    ensures !CanSucceed(Stepped(t, input), id)
  {
    var turn, step, u := t.sys.turn, StepOf(input), Stepped(t, input);
    StepAdds(t, input);
    StepFacts(turn, step);
    if CanSucceed(u, id) {
      if t.stage.Waiting? {
        EofEnds(turn, step);
      }
      GoesOnInTime(turn, step);
      StepHolds(turn, step, id);
      if ReportsSuccess(turn, step) {
        ReportsOwn(turn, step);
      }
    }
  }

  lemma SteppedDies(t: Timed, input: Input, id: EventId)
    requires Synced(t) && input.TurnStep? && CanStep(t, input) && !Live(t, id)
    ensures !Live(Stepped(t, input), id) && Stepped(t, input).sys.removed == t.sys.removed
  {
    StepAdds(t, input);
    SteppedCannot(t, input, id);
    if Resolved(id, Acked(Success)) in Adds(t.sys.turn, StepOf(input)) {
      SuccessNeedsTime(t, input, id);
    }
  }

  lemma DeliveredDies(t: Timed, i: nat, id: EventId)
    requires i < |t.sys.mailbox| == |t.arrived| && !Live(t, id)
    ensures !Live(Delivered(t, i), id) && Delivered(t, i).sys.removed[id] == t.sys.removed[id]
  {
    DeliveredIs(t, i);
    assert t.sys.mailbox[i] in t.sys.mailbox;
    assert t.sys.mailbox[i] == Resolved(t.sys.mailbox[i].req, t.sys.mailbox[i].how);
    TakenRemoves(t.sys, i, id);
  }

  lemma PostSteer(s: Sys, x: EventId)
    ensures var u := After(s, Post(x)).turn;
      && u.steer.channel == (if s.turn.result.None? && s.turn.steer.channel.None? then Some(x) else s.turn.steer.channel)
      && u.steer.pending == s.turn.steer.pending && u.time == s.turn.time && u.result == s.turn.result
  {
  }

  lemma DoDies(t: Timed, input: Input, id: EventId)
    requires !Live(t, id) && input != Post(id) && (Bulk(input) || input.Post?)
    ensures var u := t.(sys := After(t.sys, input)); !Live(u, id) && u.sys.removed == t.sys.removed
  {
    if input.Post? {
      PostTurn(t.sys, input.id);
      PostSteer(t.sys, input.id);
    } else {
      BulkIs(t.sys, input);
    }
  }

  lemma DispatchedDies(t: Timed, h: Happening, id: EventId)
    requires Synced(t) && Settled(t.sys.turn) && !Live(t, id) && h.Dispatch? && t.deadline.None?
    ensures !Live(Happen(t, h), id) && Happen(t, h).sys.removed == t.sys.removed
  {
    if t.stage.Idle? {
      EndedHoldsNothing(t.sys.turn, id);
      FreshDispatch(t, h);
    } else {
      BulkIs(t.sys, FlushBatch);
    }
  }

  lemma BegunDies(t: Timed, h: Happening, id: EventId)
    requires Synced(t) && !Live(t, id) && h.Begin? && Legal(t, h)
    ensures !Live(Begun(t, h), id) && Begun(t, h).sys.removed == t.sys.removed
  {
    NewTurnIs(t.sys, NewTurn(Gap(t) + h.writing, SettingsOf(t, h.expectedId), t.now + t.limits.maxTurn,
                             h.nextId, h.activeRun));
  }

  /** A steer that cannot succeed any more never will, unless its event is posted again. */
  lemma {:induction false} HappenDies(t: Timed, h: Happening, id: EventId)
    requires Synced(t) && Settled(t.sys.turn) && !Live(t, id) && h != Do(Post(id))
    ensures !Live(Happen(t, h), id) && Happen(t, h).sys.removed[id] == t.sys.removed[id]
  {
    if Legal(t, h) {
      match h
      case Do(Deliver(i)) => DeliveredDies(t, i, id);
      case Do(TurnStep(_, _, _, _)) => SteppedDies(t, h.input, id);
      case Do(Expire) => ExpiredIs(t);
      case Do(input) => DoDies(t, input, id);
      case Dispatch(_, _, _) => DispatchedDies(t, h, id);
      case Begin(_, _, _, _) => BegunDies(t, h, id);
      case _ =>
    }
  }

  lemma {:induction false} TimelineGrows(t: Timed, c: seq<Happening>, id: EventId)
    ensures t.sys.store.posted[id] <= Timeline(t, c).sys.store.posted[id]
    ensures t.sys.store.lost[id] <= Timeline(t, c).sys.store.lost[id]
    decreases c
  {
    if c != [] {
      TimelineGrows(t, c[..|c| - 1], id);
      HappenGrows(Timeline(t, c[..|c| - 1]), c[|c| - 1], id);
    }
  }

  lemma {:induction false} DeadForGood(t: Timed, c: seq<Happening>, id: EventId)
    requires Synced(t) && Settled(t.sys.turn) && !Live(t, id)
    requires Timeline(t, c).sys.store.posted[id] <= t.sys.store.posted[id]
    ensures !Live(Timeline(t, c), id) && Timeline(t, c).sys.removed[id] == t.sys.removed[id]
    decreases c
  {
    if c != [] {
      var n := |c| - 1;
      var u := Timeline(t, c[..n]);
      TimelineGrows(t, c[..n], id);
      HappenGrows(u, c[n], id);
      assert Happen(u, c[n]) == Timeline(t, c);
      DeadForGood(t, c[..n], id);
      StaysSynced(t, c[..n]);
      if c[n] == Do(Post(id)) {
        if Legal(u, c[n]) {
          PostedAgain(u, id);
        }
      } else {
        HappenDies(u, c[n], id);
      }
    }
  }

  // ------------------------------------------------------------------ the condition

  predicate PassesAt(t: Timed, hs: seq<Happening>, k: nat, id: EventId)
    requires k < |hs|
  {
    Passes(Timeline(t, hs[..k]), hs[k], id)
  }

  /** No expiry of the run finds the event withheld. */
  predicate Passed(t: Timed, hs: seq<Happening>, id: EventId) {
    forall k :: 0 <= k < |hs| ==> PassesAt(t, hs, k, id)
  }

  lemma PassedInit(t: Timed, hs: seq<Happening>, id: EventId)
    requires hs != [] && Passed(t, hs, id)
    ensures Passed(t, hs[..|hs| - 1], id) && Passes(Timeline(t, hs[..|hs| - 1]), hs[|hs| - 1], id)
  {
    var n := |hs| - 1;
    assert PassesAt(t, hs, n, id);
    forall k | 0 <= k < n ensures PassesAt(t, hs[..n], k, id) {
      assert hs[..n][..k] == hs[..k] && PassesAt(t, hs, k, id);
    }
  }

  lemma {:induction false} PassedPlaced(t: Timed, hs: seq<Happening>, id: EventId)
    requires Opening(t) && Passed(t, hs, id) && Timeline(t, hs).sys.store.posted[id] <= 1
    ensures Placed(Timeline(t, hs).sys, id)
    decreases hs
  {
    if hs == [] {
      var inputs: seq<Input> := [];
      PlacedAlways(t.sys, inputs, id);
    } else {
      var n := |hs| - 1;
      PassedInit(t, hs, id);
      HappenGrows(Timeline(t, hs[..n]), hs[n], id);
      PassedPlaced(t, hs[..n], id);
      TimelineBooks(t, hs[..n]);
      HappenPlaced(Timeline(t, hs[..n]), hs[n], id);
    }
  }

  /** An expiry that is not due, or finds the event not withheld, lets it pass for good. */
  lemma PassedOnward(t: Timed, hs: seq<Happening>, c: seq<Happening>, id: EventId)
    requires Passed(t, hs, id) && OneExpiry(c) && Passes(Timeline(t, hs), Do(Expire), id)
    ensures Passed(t, hs + c, id)
  {
    var all := hs + c;
    forall k | 0 <= k < |all| ensures PassesAt(t, all, k, id) {
      if k < |hs| {
        assert all[..k] == hs[..k] && PassesAt(t, hs, k, id);
      } else if k == |hs| {
        assert all[..k] == hs;
      } else {
        assert all[k] == c[1..][k - |hs| - 1];
      }
    }
  }

  lemma PassedNotTwice(t: Timed, hs: seq<Happening>, c: seq<Happening>, id: EventId)
    requires Opening(t) && Passed(t, hs, id) && OneExpiry(c) && Passes(Timeline(t, hs), Do(Expire), id)
    ensures !Doubles(Timeline(t, hs), c, id)
  {
    TimelineConcat(t, hs, c);
    if Timeline(t, hs + c).sys.store.posted[id] <= 1 {
      PassedOnward(t, hs, c, id);
      PassedPlaced(t, hs + c, id);
      TimelineBooks(t, hs + c);
      PlacedOnce(Timeline(t, hs + c).sys, id);
    }
  }

  lemma OutOfReachIsLost(s: Store, id: EventId)
    requires Booked(s) && s.posted[id] <= 1
    requires id in s.lane.withheld && !InReach(s.lane, id)
    ensures id in StoreExpire(s).lost
  {
    var l, r := s.lane, Recover(s.lane);
    assert multiset(l.withheld)[id] > 0;
    assert s.posted[id] == multiset(l.queue)[id] + multiset(l.withheld)[id] + s.flushed[id] + s.delivered[id] + s.lost[id];
    assert |l.withheld| > MAX_PENDING_PER_CHANNEL;
    assert r.queue == l.withheld[..MAX_PENDING_PER_CHANNEL];
    assert Contents(r)[id] == 0;
  }

  lemma LostNotFlushed(w: Store, id: EventId)
    requires Booked(w) && w.posted[id] <= 1 && id in w.lost
    ensures id !in w.flushed
  {
    assert w.posted[id] == Contents(w.lane)[id] + w.flushed[id] + w.delivered[id] + w.lost[id];
  }

  lemma ExpiryFirst(t: Timed, c: seq<Happening>)
    requires OneExpiry(c)
    ensures Timeline(t, c) == Timeline(Happen(t, Do(Expire)), c[1..])
  {
    assert c == [Do(Expire)] + c[1..];
    TimelineCons(t, Do(Expire), c[1..]);
  }

  /** What the depth cap drops at the expiry is not dispatched later. */
  lemma LostStays(t: Timed, c: seq<Happening>, id: EventId)
    requires Due(t) && Booked(t.sys.store) && t.sys.store.posted[id] <= 1 && OneExpiry(c)
    requires id in t.sys.store.lane.withheld && !InReach(t.sys.store.lane, id)
    ensures id in Timeline(t, c).sys.store.lost
  {
    OutOfReachIsLost(t.sys.store, id);
    ExpiredIs(t);
    ExpiryFirst(t, c);
    TimelineGrows(Happen(t, Do(Expire)), c[1..], id);
  }

  lemma LostNotTwice(t: Timed, hs: seq<Happening>, c: seq<Happening>, id: EventId)
    requires Opening(t) && Due(Timeline(t, hs)) && Timeline(t, hs).sys.store.posted[id] <= 1 && OneExpiry(c)
    requires var l := Timeline(t, hs).sys.store.lane; id in l.withheld && !InReach(l, id)
    ensures !Doubles(Timeline(t, hs), c, id)
  {
    TimelineBooks(t, hs);
    LostStays(Timeline(t, hs), c, id);
    TimelineConcat(t, hs, c);
    TimelineBooks(t, hs + c);
    if Timeline(t, hs + c).sys.store.posted[id] <= 1 {
      LostNotFlushed(Timeline(t, hs + c).sys.store, id);
    }
  }

  lemma DeadNotTwice(t: Timed, c: seq<Happening>, id: EventId)
    requires Synced(t) && Settled(t.sys.turn) && Booked(t.sys.store) && Placed(t.sys, id) && t.sys.store.posted[id] <= 1
    requires id in t.sys.store.lane.withheld && !Live(t, id)
    ensures !Doubles(t, c, id)
  {
    WithheldIsOnlyThere(t.sys, id);
    if Timeline(t, c).sys.store.posted[id] <= 1 {
      DeadForGood(t, c, id);
    }
  }

  /**
   * After any run none of whose expiries found the event withheld, an expiry now can
   * deliver it twice if and only if the deadline has passed and finds the event withheld,
   * not beyond the depth cap, while its steer's success is on its way to the main loop or
   * can still come about.
   */
  lemma {:induction false} ExpiryDoublesIff(t: Timed, hs: seq<Happening>, id: EventId)
    requires Opening(t) && Passed(t, hs, id) && Timeline(t, hs).sys.store.posted[id] <= 1
    ensures var u := Timeline(t, hs);
      CanDeliverTwice(u, id) <==> Due(u) && InReach(u.sys.store.lane, id) && Live(u, id)
  {
    var u := Timeline(t, hs);
    TimelineSynced(t, hs);
    TimelineBooks(t, hs);
    PassedPlaced(t, hs, id);
    if Due(u) && InReach(u.sys.store.lane, id) && Live(u, id) {
      var c := ScriptDoubles(u, id);
    } else {
      forall c | OneExpiry(c) ensures !Doubles(u, c, id) {
        if Passes(u, Do(Expire), id) {
          PassedNotTwice(t, hs, c, id);
        } else if !InReach(u.sys.store.lane, id) {
          LostNotTwice(t, hs, c, id);
        } else {
          DeadNotTwice(u, c, id);
        }
      }
    }
  }

  /** In particular, while the steer is on the wire of an iteration begun in time, what decides is whether a passed deadline finds the event withheld. */
  lemma OnTheWireDoublesIff(t: Timed, hs: seq<Happening>, id: EventId)
    requires Opening(t) && Passed(t, hs, id) && Timeline(t, hs).sys.store.posted[id] <= 1
    requires var u := Timeline(t, hs);
      && u.stage.Running? && HasTime(u.sys.turn) && Carries(u.sys.turn.steer, id)
      && |u.sys.store.lane.withheld| <= MAX_PENDING_PER_CHANNEL
    ensures var u := Timeline(t, hs);
      CanDeliverTwice(u, id) <==> Due(u) && id in u.sys.store.lane.withheld
  {
    var u := Timeline(t, hs);
    ExpiryDoublesIff(t, hs, id);
    assert u.sys.store.lane.withheld[..|u.sys.store.lane.withheld|] == u.sys.store.lane.withheld;
  }
}
