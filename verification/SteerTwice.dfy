/** The lags at which an event can reach the agent twice: exactly those that add up to the buffer. */
module SteerTwice {
  import opened Prelude
  import opened SteerTurn
  import opened SteerQueue
  import opened SteerSystem
  import opened SteerClock

  ghost predicate Reaches(t: Timed, u: Timed, lags: Lags) {
    exists hs :: OnSchedule(t, hs, lags) && Timeline(t, hs) == u
  }

  lemma ReachesItself(t: Timed, lags: Lags)
    ensures Reaches(t, t, lags)
  {
    var hs: seq<Happening> := [];
    assert OnSchedule(t, hs, lags) && Timeline(t, hs) == t;
  }

  lemma ReachesNext(t: Timed, u: Timed, h: Happening, lags: Lags)
    requires Reaches(t, u, lags) && StepInTime(u, h, lags) && AcksInTime(Happen(u, h), lags)
    ensures Reaches(t, Happen(u, h), lags)
  {
    var hs :| OnSchedule(t, hs, lags) && Timeline(t, hs) == u;
    var longer := hs + [h];
    assert longer[..|longer| - 1] == hs && longer[|longer| - 1] == h;
    assert OnSchedule(t, longer, lags) && Timeline(t, longer) == Happen(u, h);
  }

  // -------------------------------------------------------------- one steered event

  /** The event 5 was posted to the turn of a channel dispatched at time 0, and nothing else. */
  predicate Steered(u: Timed, l: Limits, lane: Lane) {
    && u.limits == l && u.deadline == Some(l.maxTurn + BUFFER) && u.stage.Running?
    && u.sys.store.lane == lane && u.sys.store.posted == multiset{5}
  }

  /** Its steer is on the wire, and a line was just read. */
  predicate OnTheWire(u: Timed, l: Limits, hard: Time) {
    && Steered(u, l, Lane([], [5])) && u.sys.mailbox == [] && u.arrived == []
    && u.sys.turn.result.None? && u.sys.turn.settings == Settings(0, l.idle, l.maxTurn)
    && u.sys.turn.steer.pending == Some(Pending(1, 5)) && u.sys.turn.steer.resolved == []
    && u.sys.turn.time.now == u.now && u.sys.turn.time.hardDeadline == hard
    && u.sys.turn.time.idleDeadline == u.now + l.idle
  }

  /** Nothing dispatched yet. */
  function Quiet(l: Limits): Timed {
    var turn := Start(Settings(0, 0, 0), 0, 0, None, None, 0, None).(result := Some(Replied));
    Timed(l, Sys(turn, Store(Lane([], []), multiset{}, multiset{}, multiset{}, multiset{}), [],
                 multiset{}, multiset{}, multiset{}, multiset{}),
          0, None, Idle, 0, 0, [])
  }

  lemma QuietOpens(l: Limits)
    requires Configured(l)
    ensures Opening(Quiet(l))
  {
    assert ReqsOf([]) == [];
  }

  /** A loop that has done nothing yet, with what waits in its channel. */
  predicate Running(t: Turn, l: Limits, start: Time, channel: Option<Req>) {
    && t.result.None? && t.settings == Settings(0, l.idle, l.maxTurn)
    && t.time.now == start && t.time.idleDeadline == start + l.idle && t.time.hardDeadline == start + l.maxTurn
    && t.steer.channel == channel && t.steer.pending.None? && t.steer.nextId == 1 && t.steer.activeRun == Some(7)
    && t.steer.resolved == []
  }

  /** Dispatched at 0, and the prompt is sent after the start lag. */
  predicate Started(u: Timed, l: Limits, start: Time) {
    && u.limits == l && u.now == start && u.deadline == Some(l.maxTurn + BUFFER) && u.stage.Running?
    && u.arrived == [] && u.sys.mailbox == []
    && u.sys.store.lane == Lane([], []) && u.sys.store.posted == multiset{}
    && Running(u.sys.turn, l, start, None)
  }

  const DISPATCH := Dispatch(0, 1, Some(7))
  const BEGIN := Begin(0, 0, 1, Some(7))

  predicate Queued(u: Timed, l: Limits, now: Time) {
    && u.limits == l && u.now == now && u.deadline == Some(l.maxTurn + BUFFER) && u.stage.Waiting?
    && u.dispatched == 0 && u.arrived == [] && u.sys.mailbox == []
    && u.sys.store.lane == Lane([], []) && u.sys.store.posted == multiset{}
    && Untouched(u.sys.turn) && u.sys.turn.steer.channel.None? && u.sys.turn.time.now <= now
  }

  lemma QuietDispatches(l: Limits)
    requires Configured(l)
    ensures Queued(Happen(Quiet(l), DISPATCH), l, 0)
  {
    var q := Quiet(l);
    BulkIs(q.sys, FlushBatch);
    NewTurnIs(After(q.sys, FlushBatch),
              NewTurn(Gap(q), SettingsOf(q, DISPATCH.expectedId), q.now + l.maxTurn, DISPATCH.nextId, DISPATCH.activeRun));
  }

  lemma QueuedBegins(u: Timed, l: Limits, now: Time)
    requires Queued(u, l, now)
    ensures Started(Happen(u, BEGIN), l, now)
  {
    NewTurnIs(u.sys, NewTurn(Gap(u) + BEGIN.writing, SettingsOf(u, BEGIN.expectedId), u.now + l.maxTurn,
                             BEGIN.nextId, BEGIN.activeRun));
  }

  lemma ReachStarted(l: Limits, lags: Lags) returns (u: Timed)
    requires Configured(l)
    ensures Started(u, l, lags.start) && Reaches(Quiet(l), u, lags)
  {
    var q := Quiet(l);
    ReachesItself(q, lags);
    var d := Happen(q, DISPATCH);
    QuietDispatches(l);
    ReachesNext(q, q, DISPATCH, lags);
    var e := Happen(d, Elapse(lags.start));
    assert Queued(e, l, lags.start);
    ReachesNext(q, d, Elapse(lags.start), lags);
    QueuedBegins(e, l, lags.start);
    ReachesNext(q, e, BEGIN, lags);
    u := Happen(e, BEGIN);
  }

  const POST := Do(Post(5))
  const WRITE := Do(TurnStep(0, 0, 0, Steer(true)))

  /** Posted, taken by the turn's channel, and withheld. */
  predicate Taken(v: Timed, l: Limits, start: Time) {
    && Steered(v, l, Lane([], [5])) && v.now == start && v.arrived == [] && v.sys.mailbox == []
    && Running(v.sys.turn, l, start, Some(5))
  }

  lemma PostIsWithheld(s: Store)
    requires s.lane == Lane([], []) && s.posted == multiset{}
    ensures var u := StoreWithhold(StorePost(s, 5), 5); u.lane == Lane([], [5]) && u.posted == multiset{5}
  {
    assert Push(Lane([], []), 5) == Lane([5], []);
    assert Position([5], 5) == 0 && Without([5], 0) == [];
  }

  lemma PostedTurn(s: Sys, l: Limits, start: Time)
    requires Running(s.turn, l, start, None)
    ensures Running(After(s, Post(5)).turn, l, start, Some(5))
  {
  }

  lemma PostIsTaken(u: Timed, l: Limits, start: Time)
    requires Started(u, l, start)
    ensures Taken(Happen(u, POST), l, start)
  {
    var v := Happen(u, POST);
    DoIs(u, Post(5));
    PostIs(u.sys, 5);
    PostTurn(u.sys, 5);
    PostIsWithheld(u.sys.store);
    PostedTurn(u.sys, l, start);
    assert v == u.(sys := After(u.sys, Post(5)));
  }

  lemma WrittenOut(v: Timed, l: Limits, start: Time)
    requires Configured(l) && Taken(v, l, start)
    ensures OnTheWire(Happen(v, WRITE), l, start + l.maxTurn) && Happen(v, WRITE).now == start
    ensures !ReportsSuccess(v.sys.turn, StepOf(WRITE.input))
  {
    StepAdds(v, WRITE.input);
    assert SteerTurn.Next(v.sys.turn, StepOf(WRITE.input)).steer == WriteSteer(v.sys.turn.steer, true);
  }

  lemma ReachTaken(l: Limits, lags: Lags) returns (v: Timed)
    requires Configured(l)
    ensures Taken(v, l, lags.start) && Reaches(Quiet(l), v, lags)
  {
    var s := ReachStarted(l, lags);
    PostIsTaken(s, l, lags.start);
    ReachesNext(Quiet(l), s, POST, lags);
    v := Happen(s, POST);
  }

  lemma ReachWire(l: Limits, lags: Lags) returns (u: Timed)
    requires Configured(l)
    ensures OnTheWire(u, l, lags.start + l.maxTurn) && u.now == lags.start && Reaches(Quiet(l), u, lags)
  {
    var v := ReachTaken(l, lags);
    WrittenOut(v, l, lags.start);
    ReachesNext(Quiet(l), v, WRITE, lags);
    u := Happen(v, WRITE);
  }

  // ----------------------------------------------------------------- the turn goes on

  /** A line that is no reply, read after `gap`. */
  function LineAfter(gap: nat): Happening {
    Do(TurnStep(0, gap, 0, Read(Parsed(Message(None, GooseUsage, None)))))
  }

  lemma LineTurn(t: Turn, gap: nat)
    requires t.result.None? && t.time.now < NextDeadline(t.time)
    ensures var step := StepOf(LineAfter(gap).input);
      var u := SteerTurn.Next(t, step);
      && u.result.None? && u.settings == t.settings && u.steer == t.steer
      && u.time.now == t.time.now + gap && u.time.hardDeadline == t.time.hardDeadline
      && u.time.idleDeadline == u.time.now + t.settings.idle
      && !ReportsSuccess(t, step)
  {
  }

  lemma LineKeepsOn(u: Timed, l: Limits, hard: Time, gap: nat)
    requires Configured(l) && OnTheWire(u, l, hard) && u.now < hard
    ensures OnTheWire(Happen(u, LineAfter(gap)), l, hard) && Happen(u, LineAfter(gap)).now == u.now + gap
    ensures !ReportsSuccess(u.sys.turn, StepOf(LineAfter(gap).input))
  {
    LineTurn(u.sys.turn, gap);
    StepAdds(u, LineAfter(gap).input);
  }

  /** Lines within the idle timeout keep the turn running up to its hard deadline. */
  lemma {:induction false} KeepOn(u: Timed, l: Limits, hard: Time, until: Time, lags: Lags) returns (v: Timed)
    requires Configured(l) && OnTheWire(u, l, hard) && u.now <= until < hard && Reaches(Quiet(l), u, lags)
    ensures OnTheWire(v, l, hard) && v.now == until && Reaches(Quiet(l), v, lags)
    decreases until - u.now
  {
    if u.now == until {
      v := u;
    } else {
      var gap := Min(l.idle, until - u.now);
      LineKeepsOn(u, l, hard, gap);
      ReachesNext(Quiet(l), u, LineAfter(gap), lags);
      v := KeepOn(Happen(u, LineAfter(gap)), l, hard, until, lags);
    }
  }

  function ReplyAfter(gap: nat): Happening {
    Do(TurnStep(0, gap, 0, Read(Parsed(Message(Some(IdNumber(1)), Absent, None)))))
  }

  /** The success was read at `read` and waits in the mailbox. */
  predicate Reported(u: Timed, l: Limits, read: Time) {
    Steered(u, l, Lane([], [5])) && u.sys.mailbox == [Resolved(5, Acked(Success))] && u.arrived == [read] && read <= u.now
  }

  lemma ReplyReports(u: Timed, l: Limits, hard: Time, gap: nat)
    requires Configured(l) && OnTheWire(u, l, hard) && u.now < hard
    ensures Reported(Happen(u, ReplyAfter(gap)), l, u.now + gap) && Happen(u, ReplyAfter(gap)).now == u.now + gap
  {
    var turn, step := u.sys.turn, StepOf(ReplyAfter(gap).input);
    StepAdds(u, ReplyAfter(gap).input);
    assert Verdict(turn, step) == Some(Resolved(5, Acked(Success)));
    AddsTheSuccess(turn, step);
    assert Adds(turn, step) == [Resolved(5, Acked(Success))];
  }

  lemma ReplyInTime(u: Timed, l: Limits, hard: Time, gap: nat, lags: Lags)
    requires OnTheWire(u, l, hard) && u.now < hard && u.now + gap <= hard + lags.wake
    requires Reported(Happen(u, ReplyAfter(gap)), l, u.now + gap) && Happen(u, ReplyAfter(gap)).now == u.now + gap
    ensures StepInTime(u, ReplyAfter(gap), lags) && AcksInTime(Happen(u, ReplyAfter(gap)), lags)
  {
  }

  lemma ReachRead(l: Limits, lags: Lags) returns (u: Timed)
    requires Configured(l)
    ensures var read := lags.start + l.maxTurn + lags.wake;
      Reported(u, l, read) && u.now == read && Reaches(Quiet(l), u, lags)
  {
    var hard, gap := lags.start + l.maxTurn, 1 + lags.wake;
    var w := ReachWire(l, lags);
    var v := KeepOn(w, l, hard, hard - 1, lags);
    ReplyReports(v, l, hard, gap);
    ReplyInTime(v, l, hard, gap, lags);
    ReachesNext(Quiet(l), v, ReplyAfter(gap), lags);
    u := Happen(v, ReplyAfter(gap));
  }

  lemma ReachReported(l: Limits, lags: Lags) returns (u: Timed)
    requires Configured(l)
    ensures var read := lags.start + l.maxTurn + lags.wake;
      Reported(u, l, read) && u.now == read + lags.ack && Reaches(Quiet(l), u, lags)
  {
    var r := ReachRead(l, lags);
    u := Happen(r, Elapse(lags.ack));
    ReachesNext(Quiet(l), r, Elapse(lags.ack), lags);
  }

  // --------------------------------------------------------------------- both ways

  const EXPIRE := Do(Input.Expire)
  const DELIVER := Do(Deliver(0))

  lemma ExpiresBack(u: Timed, l: Limits, read: Time)
    requires Reported(u, l, read) && l.maxTurn + BUFFER <= u.now
    ensures var v := Happen(u, EXPIRE);
      && v.deadline.None? && v.stage.Running? && v.now == u.now && v.sys.mailbox == u.sys.mailbox && v.arrived == u.arrived
      && v.sys.store.lane == Lane([5], []) && v.sys.store.posted == multiset{5}
  {
    BulkIs(u.sys, Input.Expire);
  }

  lemma DispatchesIt(v: Timed)
    requires v.deadline.None? && v.stage.Running? && v.sys.store.lane == Lane([5], [])
    ensures var w := Happen(v, DISPATCH);
      && 5 in w.sys.store.flushed && w.now == v.now && w.sys.mailbox == v.sys.mailbox && w.arrived == v.arrived
      && w.sys.store.posted == v.sys.store.posted
  {
    BulkIs(v.sys, FlushBatch);
    assert Flush(Lane([5], [])) == Lane([], []);
  }

  lemma RemovesIt(w: Timed)
    requires w.sys.mailbox == [Resolved(5, Acked(Success))] && |w.arrived| == 1
    ensures var x := Happen(w, DELIVER);
      && 5 in x.sys.removed && x.sys.store.flushed == w.sys.store.flushed && x.sys.store.posted == w.sys.store.posted
      && x.sys.mailbox == []
  {
    DeliverIs(w.sys, 0);
    TakeMailFields(w.sys, 0);
  }

  /** Lags that add up to the buffer are enough: the event is dispatched although its steer succeeded. */
  lemma {:induction false} LateDeliversTwice(l: Limits, lags: Lags) returns (u: Timed)
    requires Configured(l) && BUFFER <= lags.start + lags.wake + lags.ack
    ensures Reaches(Quiet(l), u, lags) && u.sys.store.posted[5] == 1 && DeliveredTwice(u.sys, 5)
  {
    var q := Quiet(l);
    var r := ReachReported(l, lags);
    ExpiresBack(r, l, lags.start + l.maxTurn + lags.wake);
    ReachesNext(q, r, EXPIRE, lags);
    var v := Happen(r, EXPIRE);
    DispatchesIt(v);
    ReachesNext(q, v, DISPATCH, lags);
    var w := Happen(v, DISPATCH);
    RemovesIt(w);
    ReachesNext(q, w, DELIVER, lags);
    u := Happen(w, DELIVER);
  }

  /** Some run within the lags delivers an event twice that was posted once. */
  ghost predicate TwiceWithin(l: Limits, lags: Lags) {
    exists t, hs, id :: TwiceIn(t, hs, id, l, lags)
  }

  ghost predicate TwiceIn(t: Timed, hs: seq<Happening>, id: EventId, l: Limits, lags: Lags) {
    && Opening(t) && t.limits == l && OnSchedule(t, hs, lags)
    && Timeline(t, hs).sys.store.posted[id] <= 1 && DeliveredTwice(Timeline(t, hs).sys, id)
  }

  /**
   * With any configured limits an event can reach the agent twice if and only if the lags
   * of prompts, reads and handling add up to the hundred seconds of the buffer.
   */
  lemma {:induction false} TwiceIff(l: Limits, lags: Lags)
    requires Configured(l)
    ensures TwiceWithin(l, lags) <==> 100_000_000_000 <= lags.start + lags.wake + lags.ack
  {
    if BUFFER <= lags.start + lags.wake + lags.ack {
      var u := LateDeliversTwice(l, lags);
      var hs :| OnSchedule(Quiet(l), hs, lags) && Timeline(Quiet(l), hs) == u;
      QuietOpens(l);
      assert TwiceIn(Quiet(l), hs, 5, l, lags);
    } else if TwiceWithin(l, lags) {
      var t, hs, id :| TwiceIn(t, hs, id, l, lags);
      OnceOnSchedule(t, hs, id, lags);
    }
  }

  /** In particular a prompt sent a hundred seconds after its dispatch is late enough, everything else being on time. */
  lemma SlowStartDeliversTwice(l: Limits)
    requires Configured(l)
    ensures TwiceWithin(l, Lags(BUFFER, 0, 0)) && !TwiceWithin(l, Lags(BUFFER - 1, 0, 0))
  {
    TwiceIff(l, Lags(BUFFER, 0, 0));
    TwiceIff(l, Lags(BUFFER - 1, 0, 0));
  }
}
