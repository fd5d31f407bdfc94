/** What the harness adds to the circuits: an open one means a vacant slot, and that bounds all starts of a slot. */
module SlotStarts {
  import opened Prelude
  import opened Slots
  import opened SlotCircuits
  import C = Circuit
  import A = CircuitAnswers

  function Current(log: seq<C.Entry>): C.Slot {
    C.SlotAt(log, |log|)
  }

  predicate Open(log: seq<C.Entry>) {
    Current(log).openUntil.Some?
  }

  /**
   * Crashes find the circuit closed; a question about a vacant slot finds it open, but for
   * the first one of a slot that never came up.
   */
  predicate Fits(log: seq<C.Entry>, k: nat, up: bool)
    requires k < |log|
  {
    && (log[k].input.Crash? ==> log[k].before.openUntil.None?)
    && (log[k].input.Refill? && log[k].before.openUntil.None? ==> k == 0 && !up)
  }

  predicate Orderly(log: seq<C.Entry>, up: bool) {
    forall k :: 0 <= k < |log| ==> Fits(log, k, up)
  }

  /** `up`: the slot came up at the start. */
  predicate Guarded(role: Role, log: seq<C.Entry>, up: bool) {
    && (Open(log) ==> role == Vacant)
    && (role == Vacant && !Open(log) ==> log == [] && !up)
    && Orderly(log, up)
  }

  lemma CrashAnswer(s: C.Slot, now: C.Time, jitter: C.Jitter)
    requires s.openUntil.None?
    ensures var e := C.Enter(s, now, C.Crash(jitter)); e.after.openUntil.Some? <==> !C.Allows(e)
  {
  }

  lemma RefillAnswer(s: C.Slot, now: C.Time)
    ensures var e := C.Enter(s, now, C.Refill);
      (e.after.openUntil.Some? <==> !C.Allows(e)) && (s.openUntil.None? ==> C.Allows(e))
  {
  }

  lemma GuardedLonger(log: seq<C.Entry>, e: C.Entry, up: bool)
    requires Orderly(log, up) && e.before == Current(log)
    requires e.input.Crash? ==> !Open(log)
    requires e.input.Refill? && !Open(log) ==> log == [] && !up
    ensures Orderly(log + [e], up) && Current(log + [e]) == e.after
  {
    var longer := log + [e];
    forall k | 0 <= k < |longer| ensures Fits(longer, k, up) {
      if k < |log| {
        assert Fits(log, k, up) && longer[k] == log[k];
      }
    }
  }

  /** A crash that the circuit answers takes a slot that was not vacant to where the answer says. */
  lemma CrashGuards(role: Role, log: seq<C.Entry>, up: bool, now: C.Time, jitter: C.Jitter)
    requires Guarded(role, log, up) && role != Vacant
    ensures var e := EntryOf(log, now, C.Crash(jitter));
      Guarded(if C.Allows(e) then Respawning else Vacant, log + [e], up)
  {
    CrashAnswer(Current(log), now, jitter);
    GuardedLonger(log, EntryOf(log, now, C.Crash(jitter)), up);
  }

  lemma RefillGuards(log: seq<C.Entry>, up: bool, now: C.Time)
    requires Guarded(Vacant, log, up)
    ensures var e := EntryOf(log, now, C.Refill);
      Guarded(if C.Allows(e) then Respawning else Vacant, log + [e], up)
  {
    RefillAnswer(Current(log), now);
    GuardedLonger(log, EntryOf(log, now, C.Refill), up);
  }

  lemma FailureGuards(role: Role, log: seq<C.Entry>, up: bool, now: C.Time)
    requires Guarded(role, log, up)
    ensures Guarded(Vacant, log + [EntryOf(log, now, C.SpawnFailed)], up)
  {
    GuardedLonger(log, EntryOf(log, now, C.SpawnFailed), up);
  }

  /** Neither role means more to the circuit than the other, unless the slot is vacant. */
  lemma SameGuards(role: Role, after: Role, log: seq<C.Entry>, up: bool)
    requires Guarded(role, log, up) && (role == Vacant <==> after == Vacant)
    ensures Guarded(after, log, up)
  {
  }

  predicate WardOk(w: Ward, i: nat, up: bool) {
    && WardSized(w) && i < |w.logs|
    && Guarded(RoleOf(w.world, i), w.logs[i], up)
  }

  /** The move's effect on the slot, and on its circuit. */
  lemma MoveIs(w: Ward, m: Move, i: nat)
    requires WardSized(w) && Slots.Ok(w.world) && i < |w.logs|
    ensures var v, step := NextWard(w, m), StepOf(w, m);
      && WardSized(v) && |v.logs| == |w.logs|
      && RoleOf(v.world, i) ==
           (if Subject(w.world, step) == Some(i) && Enabled(w.world, step, i) then Target(w.world, step) else RoleOf(w.world, i))
      && v.logs[i] ==
           (if Entered(w, m).Some? && Asking(w.world, m.what).value.slot == i then w.logs[i] + [Entered(w, m).value]
            else w.logs[i])
  {
    WorldNext(w, m);
    FollowsDiagram(w.world, StepOf(w, m), i);
    BookedLog(w, m, NextWorld(w, m), i);
  }

  /** Nothing is asked, and the slot is as vacant as before. */
  lemma QuietGuards(w: Ward, m: Move, i: nat, up: bool)
    requires WardOk(w, i, up) && Slots.Ok(w.world) && m.what.Quiet?
    ensures WardOk(NextWard(w, m), i, up)
  {
    MoveIs(w, m, i);
    SameGuards(RoleOf(w.world, i), RoleOf(NextWard(w, m).world, i), w.logs[i], up);
  }

  lemma ResultGuards(w: Ward, m: Move, i: nat, up: bool)
    requires WardOk(w, i, up) && Slots.Ok(w.world) && m.what.Result?
    ensures WardOk(NextWard(w, m), i, up)
  {
    MoveIs(w, m, i);
    var step := StepOf(w, m);
    if m.what.slot == i && i in w.world.sent {
      ComesFrom(w.world, step, i);
      if !m.what.healthy {
        CrashGuards(RoleOf(w.world, i), w.logs[i], up, w.now + m.wait, m.what.jitter);
      }
    }
  }

  lemma PanicIsOut(w: World, i: nat)
    requires Sized(w) && Slots.Ok(w) && i < |w.idle| && i in w.panicked
    ensures i in w.out
  {
    assert SlotOk(w, i);
  }

  lemma PanicAsks(w: Ward, m: Move, i: nat)
    requires WardSized(w) && m.what.Panic? && m.what.slot == i < |w.logs| && i in w.world.panicked && i in w.world.out
    ensures Asking(w.world, m.what) == Some(Question(i, C.Crash(m.what.jitter)))
    ensures var e := EntryOf(w.logs[i], w.now + m.wait, C.Crash(m.what.jitter));
      Entered(w, m) == Some(e) && StepOf(w, m) == OnPanic(i, C.Allows(e))
  {
  }

  lemma PanicElsewhere(w: Ward, m: Move, i: nat)
    requires WardSized(w) && i < |w.logs| && m.what.Panic? && !(m.what.slot == i && i in w.world.panicked)
    ensures Asking(w.world, m.what).Some? ==> Asking(w.world, m.what).value.slot != i
    ensures StepOf(w, m).OnPanic? && StepOf(w, m).slot == m.what.slot
  {
  }

  lemma PanicGuards(w: Ward, m: Move, i: nat, up: bool)
    requires WardOk(w, i, up) && Slots.Ok(w.world) && m.what.Panic?
    ensures WardOk(NextWard(w, m), i, up)
  {
    MoveIs(w, m, i);
    if m.what.slot == i && i in w.world.panicked {
      PanicIsOut(w.world, i);
      PanicAsks(w, m, i);
      ComesFrom(w.world, StepOf(w, m), i);
      CrashGuards(RoleOf(w.world, i), w.logs[i], up, w.now + m.wait, m.what.jitter);
    } else {
      PanicElsewhere(w, m, i);
    }
  }

  lemma MaintainGuards(w: Ward, m: Move, i: nat, up: bool)
    requires WardOk(w, i, up) && Slots.Ok(w.world) && m.what.Maintain?
    ensures WardOk(NextWard(w, m), i, up)
  {
    MoveIs(w, m, i);
    if m.what.slot == i && RoleOf(w.world, i) == Vacant {
      RefillGuards(w.logs[i], up, w.now + m.wait);
    }
  }

  lemma TakeGuards(w: Ward, m: Move, i: nat, up: bool)
    requires WardOk(w, i, up) && Slots.Ok(w.world) && m.what.Take?
    ensures WardOk(NextWard(w, m), i, up)
  {
    MoveIs(w, m, i);
    if w.world.arrived != [] && w.world.arrived[0].slot == i {
      ComesFrom(w.world, StepOf(w, m), i);
      if !w.world.arrived[0].ok {
        FailureGuards(RoleOf(w.world, i), w.logs[i], up, w.now + m.wait);
      }
    }
  }

  lemma NextGuards(w: Ward, m: Move, i: nat, up: bool)
    requires WardOk(w, i, up) && Slots.Ok(w.world)
    ensures WardOk(NextWard(w, m), i, up)
  {
    match m.what
    case Quiet(_) => QuietGuards(w, m, i, up);
    case Result(_, _, _) => ResultGuards(w, m, i, up);
    case Panic(_, _) => PanicGuards(w, m, i, up);
    case Maintain(_) => MaintainGuards(w, m, i, up);
    case Take => TakeGuards(w, m, i, up);
  }

  lemma {:induction false} AlwaysGuarded(idle: seq<bool>, moves: seq<Move>, i: nat)
    requires i < |idle|
    ensures WardOk(RunWard(idle, moves), i, idle[i])
    decreases moves
  {
    if moves != [] {
      var n := |moves| - 1;
      AlwaysGuarded(idle, moves[..n], i);
      var steps := WardIsRun(idle, moves[..n]);
      AlwaysOk(idle, steps);
      NextGuards(RunWard(idle, moves[..n]), moves[n], i, idle[i]);
    }
  }

  /**
   * In every run a slot whose circuit is open is vacant. So a crash never finds it open:
   * none is answered with a probe, or refused by a circuit that was open already.
   */
  lemma {:induction false} OpenMeansVacant(idle: seq<bool>, moves: seq<Move>, i: nat)
    requires i < |idle|
    ensures var w := RunWard(idle, moves);
      && |w.logs| == |idle| == |w.world.idle|
      && (Open(w.logs[i]) ==> RoleOf(w.world, i) == Vacant)
      && forall k :: 0 <= k < |w.logs[i]| && w.logs[i][k].input.Crash? ==>
           w.logs[i][k].before.openUntil.None? && w.logs[i][k].answer != C.Answer.Verdict(C.HalfOpenProbe)
  {
    AlwaysGuarded(idle, moves, i);
    LogsFollow(idle, moves, i);
    var log := RunWard(idle, moves).logs[i];
    forall k | 0 <= k < |log| && log[k].input.Crash?
      ensures log[k].before.openUntil.None? && log[k].answer != C.Answer.Verdict(C.HalfOpenProbe)
    {
      assert Fits(log, k, idle[i]) && C.Linked(log, k);
    }
  }

  // ----------------------------------------------------------------- all the starts

  /** The first start of a slot that did not come up: no crash comes before it. */
  predicate First(e: C.Entry) {
    e.input.Refill? && e.before.openUntil.None?
  }

  predicate Restarts(e: C.Entry) {
    C.Allows(e) && !First(e)
  }

  /** The times of the starts among the first `n` entries, but for a first one. */
  function RestartTimes(log: seq<C.Entry>, n: nat): seq<C.Time>
    requires n <= |log|
  {
    if n == 0 then []
    else RestartTimes(log, n - 1) + (if Restarts(log[n - 1]) then [log[n - 1].at] else [])
  }

  /** After a probe its own time is the one to remember; the one before it is long past. */
  lemma ProbeKeepsRate(rs: seq<C.Time>, s: C.Slot, clock: C.Time, at: C.Time)
    requires C.Rated(rs) && C.RateOk(rs, s, clock) && clock <= at && s.openUntil.Some? && at >= s.openUntil.value
    ensures C.Rated(rs + [at]) && C.RateOk(rs + [at], C.Slot(C.Seeded(at), None), at)
  {
    C.RatedSnoc(rs, at);
    var more := rs + [at];
    assert |rs| >= 1 ==> more[|more| - 2] == rs[|rs| - 1];
  }

  lemma RestartStep(rs: seq<C.Time>, s: C.Slot, clock: C.Time, at: C.Time, input: C.Input)
    requires C.Rated(rs) && C.RateOk(rs, s, clock) && clock <= at
    requires input.Crash? ==> s.openUntil.None?
    ensures var e := C.Enter(s, at, input);
      var more := if Restarts(e) then rs + [at] else rs;
      C.Rated(more) && C.RateOk(more, e.after, at) && e.at == at
  {
    var e := C.Enter(s, at, input);
    if input.Refill? && s.openUntil.Some? && C.Allows(e) {
      ProbeKeepsRate(rs, s, clock, at);
    } else {
      C.RateStep(rs, s, clock, at, input);
    }
  }

  lemma {:induction false} RestartsRated(log: seq<C.Entry>, up: bool, n: nat)
    requires C.Follows(log) && Orderly(log, up) && n <= |log|
    ensures C.Rated(RestartTimes(log, n)) && C.RateOk(RestartTimes(log, n), C.SlotAt(log, n), C.ClockAt(log, n))
  {
    if n > 0 {
      RestartsRated(log, up, n - 1);
      RestartAt(log, up, n);
    }
  }

  lemma RestartAt(log: seq<C.Entry>, up: bool, n: nat)
    requires C.Follows(log) && Orderly(log, up) && 0 < n <= |log|
    requires C.Rated(RestartTimes(log, n - 1)) && C.RateOk(RestartTimes(log, n - 1), C.SlotAt(log, n - 1), C.ClockAt(log, n - 1))
    ensures C.Rated(RestartTimes(log, n)) && C.RateOk(RestartTimes(log, n), C.SlotAt(log, n), C.ClockAt(log, n))
  {
    var e := log[n - 1];
    assert C.Linked(log, n - 1) && Fits(log, n - 1, up);
    RestartStep(RestartTimes(log, n - 1), e.before, C.ClockAt(log, n - 1), e.at, e.input);
    RestartTimesNext(log, n);
  }

  lemma RestartTimesNext(log: seq<C.Entry>, n: nat)
    requires 0 < n <= |log|
    ensures RestartTimes(log, n) ==
      if Restarts(log[n - 1]) then RestartTimes(log, n - 1) + [log[n - 1].at] else RestartTimes(log, n - 1)
  {
  }

  /** The starts are the restarts, after the first start of a slot that did not come up. */
  lemma {:induction false} StartsAreRestarts(log: seq<C.Entry>, up: bool, n: nat)
    requires C.Follows(log) && Orderly(log, up) && n <= |log|
    ensures AllowTimes(log, n) ==
      if n > 0 && First(log[0]) then [log[0].at] + RestartTimes(log, n) else RestartTimes(log, n)
  {
    if n > 0 {
      StartsAreRestarts(log, up, n - 1);
      assert Fits(log, n - 1, up) && C.Linked(log, n - 1);
    }
  }

  /** Any three of the starts from the `from`th on span at least a minute. */
  ghost predicate Spaced(starts: seq<C.Time>, from: nat) {
    forall a, b :: from <= a && b == a + 2 && b < |starts| ==> starts[a] + 60_000_000_000 <= starts[b]
  }

  /**
   * In every run any three starts of a slot, respawns and probes alike, span at least a
   * minute; of a slot that did not come up the first start of all is not counted.
   */
  lemma {:induction false} StartsSpaced(idle: seq<bool>, moves: seq<Move>, i: nat)
    requires i < |idle|
    ensures |RunWard(idle, moves).starts| == |idle|
    ensures Spaced(RunWard(idle, moves).starts[i], if idle[i] then 0 else 1)
  {
    AlwaysGuarded(idle, moves, i);
    LogsFollow(idle, moves, i);
    StartsAreAllowed(idle, moves, i);
    var log := RunWard(idle, moves).logs[i];
    RestartsRated(log, idle[i], |log|);
    StartsAreRestarts(log, idle[i], |log|);
    if log != [] && First(log[0]) {
      assert Fits(log, 0, idle[i]) && C.Linked(log, 0);
      FirstSpaced(log[0].at, RestartTimes(log, |log|));
    }
  }

  lemma FirstSpaced(first: C.Time, rs: seq<C.Time>)
    requires C.Rated(rs)
    ensures Spaced([first] + rs, 1)
  {
    var all := [first] + rs;
    assert forall k :: 1 <= k < |all| ==> all[k] == rs[k - 1];
  }

  // ------------------------------------------------------------ a vacant slot comes back

  lemma MaintainIs(w: Ward, m: Move, i: nat)
    requires WardSized(w) && i < |w.logs| && m.what == Maintain(i) && RoleOf(w.world, i) == Vacant
    ensures Asking(w.world, m.what) == Some(Question(i, C.Refill))
    ensures var e := EntryOf(w.logs[i], w.now + m.wait, C.Refill);
      Entered(w, m) == Some(e) && StepOf(w, m) == Refill(i, C.Allows(e))
  {
  }

  /** What a refill asked now is answered. */
  lemma RefillNow(log: seq<C.Entry>, now: C.Time)
    requires C.Follows(log) && C.ClockAt(log, |log|) <= now
    ensures C.Allows(EntryOf(log, now, C.Refill)) <==> A.LetsThrough(log, |log|, now)
  {
    var e := EntryOf(log, now, C.Refill);
    LogSnoc(log, now, C.Refill);
    A.RefillIff(log + [e], |log|);
    A.OpenedPrefix(log, e, |log|);
  }

  lemma MaintainMoves(w: Ward, m: Move, i: nat)
    requires WardSized(w) && Slots.Ok(w.world) && i < |w.logs| && m.what == Maintain(i) && RoleOf(w.world, i) == Vacant
    ensures var v := NextWard(w, m);
      WardSized(v) && i < |v.world.idle| &&
      RoleOf(v.world, i) == if C.Allows(EntryOf(w.logs[i], w.now + m.wait, C.Refill)) then Respawning else Vacant
  {
    MaintainIs(w, m, i);
    MoveIs(w, m, i);
  }

  lemma MaintainStarts(w: Ward, m: Move, i: nat)
    requires WardSized(w) && i < |w.logs| && m.what == Maintain(i) && RoleOf(w.world, i) == Vacant
    ensures var v := NextWard(w, m);
      && |v.starts| == |w.starts|
      && v.starts[i] == if C.Allows(EntryOf(w.logs[i], w.now + m.wait, C.Refill)) then w.starts[i] + [w.now + m.wait]
                        else w.starts[i]
  {
    MaintainIs(w, m, i);
    StartsIffAllowed(w, m, i);
    BookedStart(w, m, NextWorld(w, m), i);
  }

  /** The slot is respawned, as of now, if so; else it stays as it was. */
  predicate Restarted(w: Ward, v: Ward, i: nat, now: C.Time, so: bool) {
    && WardSized(v) && i < |v.world.idle| && i < |w.starts|
    && RoleOf(v.world, i) == (if so then Respawning else Vacant)
    && v.starts[i] == (if so then w.starts[i] + [now] else w.starts[i])
  }

  lemma MaintainRestarts(w: Ward, m: Move, i: nat)
    requires WardSized(w) && Slots.Ok(w.world) && i < |w.logs| && m.what == Maintain(i) && RoleOf(w.world, i) == Vacant
    requires C.Follows(w.logs[i]) && C.ClockAt(w.logs[i], |w.logs[i]|) <= w.now
    ensures Restarted(w, NextWard(w, m), i, w.now + m.wait, A.LetsThrough(w.logs[i], |w.logs[i]|, w.now + m.wait))
  {
    RefillNow(w.logs[i], w.now + m.wait);
    MaintainMoves(w, m, i);
    MaintainStarts(w, m, i);
  }

  lemma {:induction false} WorldOk(idle: seq<bool>, moves: seq<Move>)
    ensures Slots.Ok(RunWard(idle, moves).world)
  {
    var steps := WardIsRun(idle, moves);
    AlwaysOk(idle, steps);
  }

  /** A vacant slot, and a maintenance move for it. */
  predicate Maintains(w: Ward, m: Move, i: nat) {
    WardSized(w) && i < |w.logs| && m.what == Maintain(i) && RoleOf(w.world, i) == Vacant
  }

  /**
   * After any run, maintenance starts a respawn task for a vacant slot if and only if the
   * slot's circuit was not opened since something was last let through, or the cooldown
   * of its latest opening has passed. So no vacant slot is given up for good.
   */
  lemma {:induction false} VacantComesBack(idle: seq<bool>, moves: seq<Move>, i: nat, m: Move) returns (w: Ward, v: Ward)
    requires i < |idle| && Maintains(RunWard(idle, moves), m, i)
    ensures w == RunWard(idle, moves) && v == NextWard(w, m) && i < |w.logs|
    ensures Restarted(w, v, i, w.now + m.wait, A.LetsThrough(w.logs[i], |w.logs[i]|, w.now + m.wait))
  {
    WorldOk(idle, moves);
    LogsFollow(idle, moves, i);
    w := RunWard(idle, moves);
    MaintainRestarts(w, m, i);
    v := NextWard(w, m);
  }
}
