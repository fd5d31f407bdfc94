/**
 * The slots together with their circuits: every crash, refill and failed spawn of a slot
 * is put to the slot's own circuit, and its answer decides the respawn.
 */
module SlotCircuits {
  import opened Prelude
  import opened Slots
  import C = Circuit

  /** The history of each slot's circuit, and the times respawn tasks were started for it. */
  datatype Ward = Ward(world: World, now: C.Time, logs: seq<seq<C.Entry>>, starts: seq<seq<C.Time>>)

  predicate IsQuiet(s: Step) {
    s.Dispatch? || s.Sends? || s.Panics? || s.RespawnEnds?
  }

  /** A step that no circuit is asked about. */
  type QuietStep = s: Step | IsQuiet(s) witness Dispatch(0)

  datatype Happening =
    | Quiet(step: QuietStep)
    | Result(slot: nat, healthy: bool, jitter: C.Jitter)
    | Panic(slot: nat, jitter: C.Jitter)
    | Maintain(slot: nat)
    | Take

  datatype Move = Move(wait: nat, what: Happening)

  datatype Question = Question(slot: nat, input: C.Input)

  /** The circuit that is asked, and what it is told. */
  function Asking(w: World, h: Happening): Option<Question>
    requires Sized(w)
  {
    match h
    case Quiet(_) => None
    case Result(i, healthy, jitter) =>
      if i < |w.idle| && i in w.sent && !healthy then Some(Question(i, C.Crash(jitter))) else None
    case Panic(i, jitter) =>
      if i < |w.idle| && i in w.panicked && i in w.out then Some(Question(i, C.Crash(jitter))) else None
    case Maintain(i) =>
      if i < |w.idle| && !Alive(w, i) && !w.flying[i] then Some(Question(i, C.Refill)) else None
    case Take =>
      if w.arrived != [] && w.arrived[0].slot < |w.idle| && !w.arrived[0].ok
      then Some(Question(w.arrived[0].slot, C.SpawnFailed)) else None
  }

  predicate WardSized(w: Ward) {
    Sized(w.world) && |w.logs| == |w.starts| == |w.world.idle|
  }

  function EntryOf(log: seq<C.Entry>, now: C.Time, input: C.Input): C.Entry {
    C.Enter(C.SlotAt(log, |log|), now, input)
  }

  /** The entry the move adds to a circuit's history. */
  function Entered(w: Ward, m: Move): Option<C.Entry>
    requires WardSized(w)
  {
    match Asking(w.world, m.what)
    case None => None
    case Some(q) => if q.slot < |w.logs| then Some(EntryOf(w.logs[q.slot], w.now + m.wait, q.input)) else None
  }

  /** The step of the slots that the move amounts to, once the circuit has answered. */
  function StepOf(w: Ward, m: Move): Step
    requires WardSized(w)
  {
    var entry := Entered(w, m);
    var allowed := entry.Some? && C.Allows(entry.value);
    match m.what
    case Quiet(step) => step
    case Result(i, healthy, _) => OnResult(i, healthy, allowed)
    case Panic(i, _) => OnPanic(i, allowed)
    case Maintain(i) => Refill(i, allowed)
    case Take => Collect
  }

  lemma SizeStays(w: World, step: Step)
    requires Sized(w)
    ensures |Slots.Next(w, step).idle| == |w.idle|
  {
  }

  /** A respawn task is started when one more is running. */
  function StartsAfter(starts: seq<seq<C.Time>>, before: World, after: World, now: C.Time): (r: seq<seq<C.Time>>)
    ensures |r| == |starts|
    ensures forall i :: 0 <= i < |r| ==>
      r[i] == if after.spawning[i] > before.spawning[i] then starts[i] + [now] else starts[i]
  {
    seq(|starts|, i requires 0 <= i < |starts| =>
      if after.spawning[i] > before.spawning[i] then starts[i] + [now] else starts[i])
  }

  /** The new books when the slots have come to `after`. */
  function Booked(w: Ward, m: Move, after: World): (v: Ward)
    requires WardSized(w) && Sized(after) && |after.idle| == |w.world.idle|
    ensures WardSized(v)
  {
    var q, entry := Asking(w.world, m.what), Entered(w, m);
    Ward(after, w.now + m.wait,
         if entry.Some? then w.logs[q.value.slot := w.logs[q.value.slot] + [entry.value]] else w.logs,
         StartsAfter(w.starts, w.world, after, w.now + m.wait))
  }

  function NextWorld(w: Ward, m: Move): (after: World)
    requires WardSized(w)
    ensures Sized(after) && |after.idle| == |w.world.idle|
  {
    SizeStays(w.world, StepOf(w, m));
    Slots.Next(w.world, StepOf(w, m))
  }

  function NextWard(w: Ward, m: Move): (v: Ward)
    requires WardSized(w)
    ensures WardSized(v)
  {
    Booked(w, m, NextWorld(w, m))
  }

  function RunWard(idle: seq<bool>, moves: seq<Move>): (w: Ward)
    ensures WardSized(w)
  {
    if moves == [] then Ward(Start(idle), 0, seq(|idle|, i => []), seq(|idle|, i => []))
    else NextWard(RunWard(idle, moves[..|moves| - 1]), moves[|moves| - 1])
  }

  // ------------------------------------------------------------ what carries over

  /** With their circuits the slots do nothing they could not do alone, so every theorem about them holds. */
  lemma {:induction false} WardIsRun(idle: seq<bool>, moves: seq<Move>) returns (steps: seq<Step>)
    ensures RunWard(idle, moves).world == Slots.Run(idle, steps) && SendsOrPanics(steps)
    decreases moves
  {
    if moves == [] {
      steps := [];
    } else {
      var n := |moves| - 1;
      var w := RunWard(idle, moves[..n]);
      var before := WardIsRun(idle, moves[..n]);
      steps := before + [StepOf(w, moves[n])];
      RunSnoc(idle, before, StepOf(w, moves[n]));
      WorldNext(w, moves[n]);
    }
  }

  lemma WorldNext(w: Ward, m: Move)
    requires WardSized(w)
    ensures NextWard(w, m).world == Slots.Next(w.world, StepOf(w, m)) && !StepOf(w, m).SendsAndPanics?
  {
  }

  lemma LogSnoc(log: seq<C.Entry>, now: C.Time, input: C.Input)
    requires C.Follows(log) && C.ClockAt(log, |log|) <= now
    ensures C.Follows(log + [EntryOf(log, now, input)])
    ensures C.ClockAt(log + [EntryOf(log, now, input)], |log| + 1) == now
  {
    var e := EntryOf(log, now, input);
    var longer := log + [e];
    forall k | 0 <= k < |longer| ensures C.Linked(longer, k) {
      if k < |log| {
        assert C.Linked(log, k) && longer[k] == log[k];
        assert C.SlotAt(longer, k) == C.SlotAt(log, k) && C.ClockAt(longer, k) == C.ClockAt(log, k);
      } else {
        assert longer[k] == e && C.SlotAt(longer, k) == C.SlotAt(log, k) && C.ClockAt(longer, k) == C.ClockAt(log, k);
      }
    }
  }

  lemma BookedLog(w: Ward, m: Move, after: World, i: nat)
    requires WardSized(w) && Sized(after) && |after.idle| == |w.world.idle| && i < |w.logs|
    ensures var v := Booked(w, m, after);
      && v.now == w.now + m.wait && |v.logs| == |w.logs|
      && v.logs[i] == if Entered(w, m).Some? && Asking(w.world, m.what).value.slot == i then w.logs[i] + [Entered(w, m).value] else w.logs[i]
  {
  }

  lemma EnteredIs(w: Ward, m: Move)
    requires WardSized(w) && Asking(w.world, m.what).Some?
    ensures var q := Asking(w.world, m.what).value;
      q.slot < |w.logs| && Entered(w, m) == Some(EntryOf(w.logs[q.slot], w.now + m.wait, q.input))
  {
  }

  /** What the move adds to the history of a slot's circuit: the answer to what it is asked, if it is. */
  lemma NextLog(w: Ward, m: Move, i: nat) returns (asked: Option<C.Input>, next: seq<C.Entry>, now: C.Time)
    requires WardSized(w) && i < |w.logs|
    ensures |NextWard(w, m).logs| == |w.logs| && next == NextWard(w, m).logs[i] && now == NextWard(w, m).now
    ensures now == w.now + m.wait
    ensures next == if asked.Some? then w.logs[i] + [EntryOf(w.logs[i], w.now + m.wait, asked.value)] else w.logs[i]
  {
    BookedLog(w, m, NextWorld(w, m), i);
    var q := Asking(w.world, m.what);
    asked, next, now := None, NextWard(w, m).logs[i], NextWard(w, m).now;
    if q.Some? {
      EnteredIs(w, m);
      asked := if q.value.slot == i then Some(q.value.input) else None;
    }
  }

  ghost predicate UpTo(log: seq<C.Entry>, now: C.Time) {
    C.Follows(log) && C.ClockAt(log, |log|) <= now
  }

  lemma {:induction false} UpToNext(log: seq<C.Entry>, before: C.Time, now: C.Time, asked: Option<C.Input>, next: seq<C.Entry>)
    requires UpTo(log, before) && before <= now
    requires next == if asked.Some? then log + [EntryOf(log, now, asked.value)] else log
    ensures UpTo(next, now)
  {
    if asked.Some? {
      LogSnoc(log, now, asked.value);
    }
  }

  lemma {:induction false} LogUpTo(idle: seq<bool>, moves: seq<Move>, i: nat) returns (log: seq<C.Entry>, now: C.Time)
    requires i < |idle|
    ensures |RunWard(idle, moves).logs| == |idle|
    ensures log == RunWard(idle, moves).logs[i] && now == RunWard(idle, moves).now
    ensures UpTo(log, now)
    decreases moves
  {
    if moves == [] {
      log, now := [], 0;
    } else {
      var n := |moves| - 1;
      var before, earlier := LogUpTo(idle, moves[..n], i);
      var asked, next, later := NextLog(RunWard(idle, moves[..n]), moves[n], i);
      UpToNext(before, earlier, later, asked, next);
      log, now := next, later;
    }
  }

  /**
   * The history of every slot's circuit is one that the circuit theorems speak of, so
   * they hold of every slot in every run.
   */
  lemma {:induction false} LogsFollow(idle: seq<bool>, moves: seq<Move>, i: nat)
    requires i < |idle|
    ensures var w := RunWard(idle, moves);
      |w.logs| == |idle| && C.Follows(w.logs[i]) && C.ClockAt(w.logs[i], |w.logs[i]|) <= w.now
  {
    var log, now := LogUpTo(idle, moves, i);
  }

  // ------------------------------------------------------------- starts of respawns

  /** The move starts a respawn task for the slot. */
  predicate StartsRespawn(w: Ward, m: Move, i: nat)
    requires WardSized(w)
  {
    NextWorld(w, m).spawning[i] > w.world.spawning[i]
  }

  predicate Allowed(w: Ward, m: Move, i: nat)
    requires WardSized(w)
  {
    Entered(w, m).Some? && Asking(w.world, m.what).value.slot == i && C.Allows(Entered(w, m).value)
  }

  /** The steps that start a respawn task. */
  predicate StepStarts(w: World, step: Step, i: nat)
    requires Sized(w)
  {
    match step
    case OnResult(j, healthy, allowed) => j == i < |w.idle| && i in w.sent && !healthy && allowed
    case OnPanic(j, allowed) => j == i < |w.idle| && i in w.panicked && i in w.out && allowed
    case Refill(j, allowed) => j == i < |w.idle| && !Alive(w, i) && !w.flying[i] && allowed
    case _ => false
  }

  lemma StepSpawns(w: World, step: Step, i: nat)
    requires Sized(w)
    ensures Slots.Next(w, step).spawning[i] > w.spawning[i] <==> StepStarts(w, step, i)
  {
    match step
    case OnResult(j, healthy, allowed) => ResultSpawns(w, j, healthy, allowed, i);
    case OnPanic(j, allowed) => PanicSpawns(w, j, allowed, i);
    case Refill(j, allowed) => RefillSpawns(w, j, allowed, i);
    case RespawnEnds(j, ok) => EndSpawns(w, j, ok, i);
    case Collect => CollectSpawns(w, i);
    case _ =>
  }

  lemma ResultSpawns(w: World, j: nat, healthy: bool, allowed: bool, i: nat)
    requires Sized(w)
    ensures HandleResult(w, j, healthy, allowed).spawning[i] > w.spawning[i] <==>
      j == i < |w.idle| && i in w.sent && !healthy && allowed
  {
  }

  lemma PanicSpawns(w: World, j: nat, allowed: bool, i: nat)
    requires Sized(w)
    ensures RecoverPanicked(w, j, allowed).spawning[i] > w.spawning[i] <==>
      j == i < |w.idle| && i in w.panicked && i in w.out && allowed
  {
  }

  lemma RefillSpawns(w: World, j: nat, allowed: bool, i: nat)
    requires Sized(w)
    ensures RefillSlot(w, j, allowed).spawning[i] > w.spawning[i] <==>
      j == i < |w.idle| && !Alive(w, i) && !w.flying[i] && allowed
  {
  }

  lemma EndSpawns(w: World, j: nat, ok: bool, i: nat)
    ensures EndRespawn(w, j, ok).spawning[i] <= w.spawning[i]
  {
  }

  lemma CollectSpawns(w: World, i: nat)
    requires Sized(w)
    ensures CollectOne(w).spawning == w.spawning
  {
  }

  lemma FailedSpawnAllowsNothing(log: seq<C.Entry>, now: C.Time)
    ensures !C.Allows(EntryOf(log, now, C.SpawnFailed))
  {
  }

  /** A respawn task is started for a slot exactly when its circuit was asked and allows it. */
  lemma StartsIffAllowed(w: Ward, m: Move, i: nat)
    requires WardSized(w) && i < |w.world.idle|
    ensures StartsRespawn(w, m, i) <==> Allowed(w, m, i)
  {
    WorldNext(w, m);
    StepSpawns(w.world, StepOf(w, m), i);
    var q := Asking(w.world, m.what);
    if m.what.Take? && q.Some? {
      FailedSpawnAllowsNothing(w.logs[q.value.slot], w.now + m.wait);
    }
    AllowedStep(w, m, i);
  }

  lemma AllowedStep(w: Ward, m: Move, i: nat)
    requires WardSized(w) && i < |w.world.idle| && !(m.what.Take? && Entered(w, m).Some? && C.Allows(Entered(w, m).value))
    ensures StepStarts(w.world, StepOf(w, m), i) <==> Allowed(w, m, i)
  {
  }

  /** The times at which a circuit allowed a start, among its first `n` entries. */
  function AllowTimes(log: seq<C.Entry>, n: nat): seq<C.Time>
    requires n <= |log|
  {
    if n == 0 then []
    else AllowTimes(log, n - 1) + (if C.Allows(log[n - 1]) then [log[n - 1].at] else [])
  }

  lemma {:induction false} AllowTimesPrefix(log: seq<C.Entry>, e: C.Entry, n: nat)
    requires n <= |log|
    ensures AllowTimes(log + [e], n) == AllowTimes(log, n)
  {
    if n > 0 {
      AllowTimesPrefix(log, e, n - 1);
    }
  }

  lemma AllowSnoc(log: seq<C.Entry>, e: C.Entry)
    ensures AllowTimes(log + [e], |log| + 1) == AllowTimes(log, |log|) + (if C.Allows(e) then [e.at] else [])
  {
    AllowTimesPrefix(log, e, |log|);
  }

  lemma BookedStart(w: Ward, m: Move, after: World, i: nat)
    requires WardSized(w) && Sized(after) && |after.idle| == |w.world.idle| && i < |w.logs|
    ensures |Booked(w, m, after).starts| == |w.logs|
    ensures Booked(w, m, after).starts[i] ==
      if after.spawning[i] > w.world.spawning[i] then w.starts[i] + [w.now + m.wait] else w.starts[i]
  {
  }

  lemma {:induction false} NextStarts(w: Ward, m: Move, i: nat)
    requires WardSized(w) && i < |w.logs| && w.starts[i] == AllowTimes(w.logs[i], |w.logs[i]|)
    ensures |NextWard(w, m).logs| == |w.logs| && |NextWard(w, m).starts| == |w.logs|
    ensures var v := NextWard(w, m); v.starts[i] == AllowTimes(v.logs[i], |v.logs[i]|)
  {
    StartsIffAllowed(w, m, i);
    BookedLog(w, m, NextWorld(w, m), i);
    BookedStart(w, m, NextWorld(w, m), i);
    var entry := Entered(w, m);
    if entry.Some? && Asking(w.world, m.what).value.slot == i {
      EnteredNow(w, m);
      AllowSnoc(w.logs[i], entry.value);
    }
  }

  lemma EnteredNow(w: Ward, m: Move)
    requires WardSized(w) && Entered(w, m).Some?
    ensures Entered(w, m).value.at == w.now + m.wait
  {
  }

  /** Respawn tasks are started for a slot at exactly the times at which its circuit allowed one. */
  lemma {:induction false} StartsAreAllowed(idle: seq<bool>, moves: seq<Move>, i: nat)
    requires i < |idle|
    ensures var w := RunWard(idle, moves);
      |w.logs| == |idle| == |w.starts| && w.starts[i] == AllowTimes(w.logs[i], |w.logs[i]|)
    decreases moves
  {
    if moves != [] {
      var n := |moves| - 1;
      StartsAreAllowed(idle, moves[..n], i);
      NextStarts(RunWard(idle, moves[..n]), moves[n], i);
    }
  }

  /** In any run nothing is allowed for a slot within five minutes of its circuit opening. */
  lemma {:induction false} SlotsCoolDown(idle: seq<bool>, moves: seq<Move>, i: nat, a: nat, b: nat)
    requires i < |idle| == |RunWard(idle, moves).logs|
    requires var log := RunWard(idle, moves).logs[i]; a < b < |log| && C.Opens(log[a]) && C.Allows(log[b])
    ensures var log := RunWard(idle, moves).logs[i]; log[b].at >= log[a].at + C.COOLDOWN
  {
    LogsFollow(idle, moves, i);
    C.CooldownHolds(RunWard(idle, moves).logs[i], a, b);
  }

  /** Of the respawns a slot's circuit answers with a backoff, any three span at least a minute. */
  lemma {:induction false} SlotsRate(idle: seq<bool>, moves: seq<Move>, i: nat)
    requires i < |idle|
    ensures |RunWard(idle, moves).logs| == |idle|
    ensures var log := RunWard(idle, moves).logs[i]; C.Rated(C.Respawns(log, |log|))
  {
    LogsFollow(idle, moves, i);
    var log := RunWard(idle, moves).logs[i];
    C.AtMostTwoRespawnsPerMinute(log, |log|);
  }
}
