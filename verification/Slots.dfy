/**
 * The life of the agent slots: idle in the pool, checked out to a prompt task, being
 * respawned in the background, or vacant. Everything that can happen is one step.
 */
module Slots {
  import opened Prelude
  import C = Circuit

  datatype Respawned = Respawned(slot: nat, ok: bool)

  /**
   * `out` are the slots in the pool's task map. A prompt task is running, has sent its
   * result, or has panicked; a respawn task is running or its result has arrived. The two
   * flags record what must never happen.
   */
  datatype World = World(
    idle: seq<bool>,
    out: multiset<nat>,
    running: multiset<nat>,
    sent: multiset<nat>,
    panicked: multiset<nat>,
    flying: seq<bool>,
    spawning: multiset<nat>,
    arrived: seq<Respawned>,
    overwrote: bool,
    lost: bool)

  datatype Step =
    | Dispatch(slot: nat)
    | Sends(slot: nat)
    | Panics(slot: nat)
    | SendsAndPanics(slot: nat)
    | OnResult(slot: nat, healthy: bool, allowed: bool)
    | OnPanic(slot: nat, allowed: bool)
    | Refill(slot: nat, allowed: bool)
    | RespawnEnds(slot: nat, ok: bool)
    | Collect

  predicate Alive(w: World, i: nat)
    requires i < |w.idle|
  {
    w.idle[i] || i in w.out
  }

  function ReturnAgent(w: World, i: nat): (v: World)
    requires i < |w.idle|
    ensures |v.idle| == |w.idle| && |v.flying| == |w.flying|
  {
    w.(idle := w.idle[i := true], overwrote := w.overwrote || w.idle[i])
  }

  function StartRespawn(w: World, i: nat): (v: World)
    requires i < |w.flying|
    ensures |v.idle| == |w.idle| && |v.flying| == |w.flying|
  {
    w.(flying := w.flying[i := true], spawning := w.spawning + multiset{i})
  }

  /** The guard's result goes into a channel with room for one result per slot. */
  function Deliver(w: World, r: Respawned): (v: World)
    ensures |v.idle| == |w.idle| && |v.flying| == |w.flying|
  {
    if |w.arrived| < |w.idle| then w.(arrived := w.arrived + [r]) else w.(lost := true)
  }

  predicate Sized(w: World) {
    |w.flying| == |w.idle|
  }

  function DispatchTo(w: World, i: nat): (v: World)
    ensures |v.idle| == |w.idle| && |v.flying| == |w.flying|
  {
    if i < |w.idle| && w.idle[i] then
      w.(idle := w.idle[i := false], out := w.out + multiset{i}, running := w.running + multiset{i})
    else w
  }

  function TaskSends(w: World, i: nat): (v: World)
    ensures |v.idle| == |w.idle| && |v.flying| == |w.flying|
  {
    if i in w.running then w.(running := w.running - multiset{i}, sent := w.sent + multiset{i}) else w
  }

  function TaskPanics(w: World, i: nat): (v: World)
    ensures |v.idle| == |w.idle| && |v.flying| == |w.flying|
  {
    if i in w.running then w.(running := w.running - multiset{i}, panicked := w.panicked + multiset{i}) else w
  }

  function TaskDoesBoth(w: World, i: nat): (v: World)
    ensures |v.idle| == |w.idle| && |v.flying| == |w.flying|
  {
    if i in w.running then
      w.(running := w.running - multiset{i}, sent := w.sent + multiset{i}, panicked := w.panicked + multiset{i})
    else w
  }

  /** `healthy`: the agent goes back to the pool; else it is respawned if its circuit allows. */
  function HandleResult(w: World, i: nat, healthy: bool, allowed: bool): (v: World)
    requires Sized(w)
    ensures |v.idle| == |w.idle| && |v.flying| == |w.flying|
  {
    if i in w.sent && i < |w.idle| then
      var u := w.(sent := w.sent - multiset{i}, out := w.out[i := 0]);
      if healthy then ReturnAgent(u, i) else if allowed then StartRespawn(u, i) else u
    else w
  }

  function RecoverPanicked(w: World, i: nat, allowed: bool): (v: World)
    requires Sized(w)
    ensures |v.idle| == |w.idle| && |v.flying| == |w.flying|
  {
    if i in w.panicked && i < |w.idle| then
      var known := w.(panicked := w.panicked - multiset{i});
      if i !in w.out then known
      else
        var u := known.(out := known.out - multiset{i});
        if allowed then StartRespawn(u, i) else u
    else w
  }

  function RefillSlot(w: World, i: nat, allowed: bool): (v: World)
    requires Sized(w)
    ensures |v.idle| == |w.idle| && |v.flying| == |w.flying|
  {
    if i < |w.idle| && !Alive(w, i) && !w.flying[i] && allowed then StartRespawn(w, i) else w
  }

  function EndRespawn(w: World, i: nat, ok: bool): (v: World)
    ensures |v.idle| == |w.idle| && |v.flying| == |w.flying|
  {
    if i in w.spawning then Deliver(w.(spawning := w.spawning - multiset{i}), Respawned(i, ok)) else w
  }

  function CollectOne(w: World): (v: World)
    requires Sized(w)
    ensures |v.idle| == |w.idle| && |v.flying| == |w.flying|
  {
    if w.arrived != [] && w.arrived[0].slot < |w.idle| then
      var r := w.arrived[0];
      var u := w.(arrived := w.arrived[1..], flying := w.flying[r.slot := false]);
      if r.ok then ReturnAgent(u, r.slot) else u
    else w
  }

  /** One step; a step that cannot happen changes nothing. */
  function Next(w: World, step: Step): (v: World)
    requires Sized(w)
    ensures Sized(v)
  {
    match step
    case Dispatch(i) => DispatchTo(w, i)
    case Sends(i) => TaskSends(w, i)
    case Panics(i) => TaskPanics(w, i)
    case SendsAndPanics(i) => TaskDoesBoth(w, i)
    case OnResult(i, healthy, allowed) => HandleResult(w, i, healthy, allowed)
    case OnPanic(i, allowed) => RecoverPanicked(w, i, allowed)
    case Refill(i, allowed) => RefillSlot(w, i, allowed)
    case RespawnEnds(i, ok) => EndRespawn(w, i, ok)
    case Collect => CollectOne(w)
  }

  /** A start with whatever slots came up. */
  function Start(idle: seq<bool>): World {
    World(idle, multiset{}, multiset{}, multiset{}, multiset{}, seq(|idle|, i => false), multiset{}, [], false, false)
  }

  function Run(idle: seq<bool>, steps: seq<Step>): (w: World)
    ensures Sized(w)
  {
    if steps == [] then Start(idle) else Next(Run(idle, steps[..|steps| - 1]), steps[|steps| - 1])
  }

  // ---------------------------------------------------------------------- invariant

  function One(b: bool): nat {
    if b then 1 else 0
  }

  /** Results of a slot waiting in the channel. */
  function Waiting(arrived: seq<Respawned>, i: nat): nat {
    if arrived == [] then 0 else One(arrived[0].slot == i) + Waiting(arrived[1..], i)
  }

  /** A slot is in one place, and each place has exactly one thing standing for it. */
  ghost predicate SlotOk(w: World, i: nat)
    requires Sized(w)
  {
    if i < |w.idle| then
      && One(w.idle[i]) + w.out[i] + One(w.flying[i]) <= 1
      && w.out[i] == w.running[i] + w.sent[i] + w.panicked[i]
      && One(w.flying[i]) == w.spawning[i] + Waiting(w.arrived, i)
    else
      w.out[i] + w.running[i] + w.sent[i] + w.panicked[i] + w.spawning[i] + Waiting(w.arrived, i) == 0
  }

  ghost predicate Ok(w: World)
    requires Sized(w)
  {
    !w.overwrote && !w.lost && forall i: nat :: SlotOk(w, i)
  }

  lemma {:induction false} WaitingSnoc(arrived: seq<Respawned>, r: Respawned, i: nat)
    ensures Waiting(arrived + [r], i) == Waiting(arrived, i) + One(r.slot == i)
    decreases arrived
  {
    if arrived != [] {
      assert (arrived + [r])[1..] == arrived[1..] + [r];
      WaitingSnoc(arrived[1..], r, i);
    } else {
      assert (arrived + [r])[1..] == [];
    }
  }

  lemma {:induction false} WaitingMember(arrived: seq<Respawned>, k: nat)
    requires k < |arrived|
    ensures Waiting(arrived, arrived[k].slot) >= 1
    decreases arrived
  {
    if k > 0 {
      WaitingMember(arrived[1..], k - 1);
    }
  }

  /** The results of one slot, left out. */
  function Others(arrived: seq<Respawned>, i: nat): (r: seq<Respawned>) {
    if arrived == [] then []
    else if arrived[0].slot == i then Others(arrived[1..], i)
    else [arrived[0]] + Others(arrived[1..], i)
  }

  lemma {:induction false} OthersCount(arrived: seq<Respawned>, i: nat, j: nat)
    ensures Waiting(Others(arrived, i), j) == if i == j then 0 else Waiting(arrived, j)
    ensures |arrived| == |Others(arrived, i)| + Waiting(arrived, i)
    decreases arrived
  {
    if arrived != [] {
      OthersCount(arrived[1..], i, j);
      if arrived[0].slot != i {
        assert Others(arrived, i)[1..] == Others(arrived[1..], i);
      }
    }
  }

  function Limit(i: nat, n: nat): nat {
    if i < n then 1 else 0
  }

  ghost predicate OneEach(arrived: seq<Respawned>, n: nat) {
    forall i: nat :: Waiting(arrived, i) <= Limit(i, n)
  }

  /** As many results as slots at most, if no slot has two. */
  lemma {:induction false} AtMostOneEach(arrived: seq<Respawned>, n: nat)
    requires OneEach(arrived, n)
    ensures |arrived| <= n
    decreases n
  {
    if n == 0 {
      if arrived != [] {
        WaitingMember(arrived, 0);
      }
    } else {
      var others := Others(arrived, n - 1);
      forall j: nat ensures Waiting(others, j) <= Limit(j, n - 1) {
        OthersCount(arrived, n - 1, j);
      }
      OthersCount(arrived, n - 1, n - 1);
      AtMostOneEach(others, n - 1);
    }
  }

  /** While a respawn task still runs there is room in the channel for its result. */
  lemma RoomForOne(w: World, i: nat)
    requires Sized(w) && Ok(w) && i in w.spawning
    ensures |w.arrived| < |w.idle|
  {
    assert SlotOk(w, i);
    var more := w.arrived + [Respawned(i, true)];
    forall j: nat ensures Waiting(more, j) <= Limit(j, |w.idle|) {
      WaitingSnoc(w.arrived, Respawned(i, true), j);
      assert SlotOk(w, j);
    }
    AtMostOneEach(more, |w.idle|);
  }

  lemma DispatchOk(w: World, i: nat)
    requires Sized(w) && Ok(w)
    ensures Ok(DispatchTo(w, i))
  {
    forall j: nat ensures SlotOk(DispatchTo(w, i), j) {
      assert SlotOk(w, j);
    }
  }

  lemma SendsOk(w: World, i: nat)
    requires Sized(w) && Ok(w)
    ensures Ok(TaskSends(w, i))
  {
    forall j: nat ensures SlotOk(TaskSends(w, i), j) {
      assert SlotOk(w, j);
    }
  }

  lemma PanicsOk(w: World, i: nat)
    requires Sized(w) && Ok(w)
    ensures Ok(TaskPanics(w, i))
  {
    forall j: nat ensures SlotOk(TaskPanics(w, i), j) {
      assert SlotOk(w, j);
    }
  }

  lemma ResultOk(w: World, i: nat, healthy: bool, allowed: bool)
    requires Sized(w) && Ok(w)
    ensures Ok(HandleResult(w, i, healthy, allowed))
  {
    assert SlotOk(w, i);
    forall j: nat ensures SlotOk(HandleResult(w, i, healthy, allowed), j) {
      assert SlotOk(w, j);
    }
  }

  lemma PanicOk(w: World, i: nat, allowed: bool)
    requires Sized(w) && Ok(w)
    ensures Ok(RecoverPanicked(w, i, allowed))
  {
    assert SlotOk(w, i);
    forall j: nat ensures SlotOk(RecoverPanicked(w, i, allowed), j) {
      assert SlotOk(w, j);
    }
  }

  lemma RefillOk(w: World, i: nat, allowed: bool)
    requires Sized(w) && Ok(w)
    ensures Ok(RefillSlot(w, i, allowed))
  {
    forall j: nat ensures SlotOk(RefillSlot(w, i, allowed), j) {
      assert SlotOk(w, j);
    }
  }

  lemma RespawnEndsOk(w: World, i: nat, ok: bool)
    requires Sized(w) && Ok(w)
    ensures Ok(EndRespawn(w, i, ok))
  {
    if i in w.spawning {
      RoomForOne(w, i);
      forall j: nat ensures SlotOk(EndRespawn(w, i, ok), j) {
        WaitingSnoc(w.arrived, Respawned(i, ok), j);
        assert SlotOk(w, j);
      }
    }
  }

  lemma CollectOk(w: World)
    requires Sized(w) && Ok(w)
    ensures Ok(CollectOne(w))
  {
    if w.arrived != [] && w.arrived[0].slot < |w.idle| {
      assert SlotOk(w, w.arrived[0].slot);
      forall j: nat ensures SlotOk(CollectOne(w), j) {
        assert SlotOk(w, j);
      }
    }
  }

  lemma NextOk(w: World, step: Step)
    requires Sized(w) && Ok(w) && !step.SendsAndPanics?
    ensures Ok(Next(w, step))
  {
    match step
    case Dispatch(i) => DispatchOk(w, i);
    case Sends(i) => SendsOk(w, i);
    case Panics(i) => PanicsOk(w, i);
    case SendsAndPanics(_) =>
    case OnResult(i, healthy, allowed) => ResultOk(w, i, healthy, allowed);
    case OnPanic(i, allowed) => PanicOk(w, i, allowed);
    case Refill(i, allowed) => RefillOk(w, i, allowed);
    case RespawnEnds(i, ok) => RespawnEndsOk(w, i, ok);
    case Collect => CollectOk(w);
  }

  /** A prompt task ends by sending its result or by a panic, never by both. */
  ghost predicate SendsOrPanics(steps: seq<Step>) {
    forall k :: 0 <= k < |steps| ==> !steps[k].SendsAndPanics?
  }

  lemma {:induction false} AlwaysOk(idle: seq<bool>, steps: seq<Step>)
    requires SendsOrPanics(steps)
    ensures Ok(Run(idle, steps))
    decreases steps
  {
    if steps != [] {
      var n := |steps| - 1;
      AlwaysOk(idle, steps[..n]);
      NextOk(Run(idle, steps[..n]), steps[n]);
    } else {
      assert forall i: nat :: SlotOk(Start(idle), i);
    }
  }

  // ------------------------------------------------------------------------ theorems

  datatype Role = Idle | CheckedOut | Respawning | Vacant

  ghost predicate Has(w: World, i: nat, role: Role)
    requires Sized(w) && i < |w.idle|
  {
    match role
    case Idle => w.idle[i]
    case CheckedOut => i in w.out
    case Respawning => w.flying[i]
    case Vacant => !w.idle[i] && i !in w.out && !w.flying[i]
  }

  /** Every slot is in exactly one state at all times. */
  lemma {:induction false} ExactlyOneRole(idle: seq<bool>, steps: seq<Step>, i: nat)
    requires SendsOrPanics(steps) && i < |Run(idle, steps).idle|
    ensures exists role :: Only(Run(idle, steps), i, role)
  {
    AlwaysOk(idle, steps);
    var w := Run(idle, steps);
    assert SlotOk(w, i);
    var role := if w.idle[i] then Idle else if i in w.out then CheckedOut else if w.flying[i] then Respawning else Vacant;
    assert Only(w, i, role);
  }

  ghost predicate Only(w: World, i: nat, role: Role)
    requires Sized(w) && i < |w.idle|
  {
    Has(w, i, role) && forall other :: Has(w, i, other) ==> other == role
  }

  function RoleOf(w: World, i: nat): Role
    requires Sized(w) && i < |w.idle|
  {
    if w.idle[i] then Idle else if i in w.out then CheckedOut else if w.flying[i] then Respawning else Vacant
  }

  /** The slot a step is about. */
  function Subject(w: World, step: Step): Option<nat> {
    if step.Collect? then if w.arrived == [] then None else Some(w.arrived[0].slot)
    else Some(step.slot)
  }

  /** The step can happen to its slot. */
  predicate Enabled(w: World, step: Step, i: nat)
    requires Sized(w) && i < |w.idle|
  {
    match step
    case Dispatch(_) => RoleOf(w, i) == Idle
    case OnResult(_, _, _) => i in w.sent
    case OnPanic(_, _) => i in w.panicked
    case Refill(_, allowed) => RoleOf(w, i) == Vacant && allowed
    case Collect => true
    case _ => false
  }

  /** Where a step takes its slot: the state diagram. */
  function Target(w: World, step: Step): Role
    requires step.Dispatch? || step.OnResult? || step.OnPanic? || step.Refill? || (step.Collect? && w.arrived != [])
  {
    match step
    case Dispatch(_) => CheckedOut
    case OnResult(_, healthy, allowed) => if healthy then Idle else if allowed then Respawning else Vacant
    case OnPanic(_, allowed) => if allowed then Respawning else Vacant
    case Refill(_, _) => Respawning
    case Collect => if w.arrived[0].ok then Idle else Vacant
  }

  /** A result or a panic is only ever that of a checked-out slot, and a respawn's that of a respawning one. */
  lemma ComesFrom(w: World, step: Step, i: nat)
    requires Sized(w) && Ok(w) && i < |w.idle| && Subject(w, step) == Some(i) && Enabled(w, step, i)
    ensures (step.OnResult? || step.OnPanic?) ==> RoleOf(w, i) == CheckedOut
    ensures step.Collect? ==> RoleOf(w, i) == Respawning
  {
    assert SlotOk(w, i);
    if step.Collect? {
      WaitingMember(w.arrived, 0);
    }
  }

  lemma DispatchMoves(w: World, step: Step, i: nat)
    requires Sized(w) && Ok(w) && i < |w.idle| && step.Dispatch?
    ensures RoleOf(DispatchTo(w, step.slot), i) == if step.slot == i && w.idle[i] then CheckedOut else RoleOf(w, i)
  {
    assert SlotOk(w, i);
  }

  lemma RefillMoves(w: World, step: Step, i: nat)
    requires Sized(w) && i < |w.idle| && step.Refill?
    ensures RoleOf(RefillSlot(w, step.slot, step.allowed), i) ==
      if step.slot == i && RoleOf(w, i) == Vacant && step.allowed then Respawning else RoleOf(w, i)
  {
  }

  lemma ResultMoves(w: World, step: Step, i: nat)
    requires Sized(w) && Ok(w) && i < |w.idle| && step.OnResult?
    ensures RoleOf(HandleResult(w, step.slot, step.healthy, step.allowed), i) ==
      if step.slot == i && i in w.sent then Target(w, step) else RoleOf(w, i)
  {
    assert SlotOk(w, i);
  }

  lemma PanicMoves(w: World, step: Step, i: nat)
    requires Sized(w) && Ok(w) && i < |w.idle| && step.OnPanic?
    ensures RoleOf(RecoverPanicked(w, step.slot, step.allowed), i) ==
      if step.slot == i && i in w.panicked then Target(w, step) else RoleOf(w, i)
  {
    assert SlotOk(w, i);
  }

  lemma CollectMoves(w: World, i: nat)
    requires Sized(w) && Ok(w) && i < |w.idle|
    ensures RoleOf(CollectOne(w), i) ==
      if w.arrived != [] && w.arrived[0].slot == i then Target(w, Collect) else RoleOf(w, i)
  {
    assert SlotOk(w, i);
    if w.arrived != [] && w.arrived[0].slot == i {
      WaitingMember(w.arrived, 0);
    }
  }

  /** Each step moves its own slot along the diagram, or nowhere, and no other slot at all. */
  lemma FollowsDiagram(w: World, step: Step, i: nat)
    requires Sized(w) && Ok(w) && !step.SendsAndPanics? && i < |w.idle|
    ensures |Next(w, step).idle| == |w.idle|
    ensures RoleOf(Next(w, step), i) ==
      if Subject(w, step) == Some(i) && Enabled(w, step, i) then Target(w, step) else RoleOf(w, i)
  {
    match step
    case OnResult(_, _, _) => ResultMoves(w, step, i);
    case OnPanic(_, _) => PanicMoves(w, step, i);
    case Collect => CollectMoves(w, i);
    case Dispatch(_) => DispatchMoves(w, step, i);
    case Refill(_, _) => RefillMoves(w, step, i);
    case Sends(_) =>
    case Panics(_) =>
    case RespawnEnds(_, _) =>
    case SendsAndPanics(_) =>
  }

  /** No agent put back displaces another one, and no respawn result is lost to a full channel. */
  lemma {:induction false} NothingOverwrittenOrLost(idle: seq<bool>, steps: seq<Step>)
    requires SendsOrPanics(steps)
    ensures var w := Run(idle, steps); !w.overwrote && !w.lost && |w.arrived| <= |w.idle|
  {
    AlwaysOk(idle, steps);
    var w := Run(idle, steps);
    forall i: nat ensures Waiting(w.arrived, i) <= Limit(i, |w.idle|) {
      assert SlotOk(w, i);
    }
    AtMostOneEach(w.arrived, |w.idle|);
  }

  /** A slot that is respawning has one respawn task or one waiting result; any other slot has neither. */
  lemma {:induction false} OneRespawnPerSlot(idle: seq<bool>, steps: seq<Step>, i: nat)
    requires SendsOrPanics(steps) && i < |Run(idle, steps).idle|
    ensures var w := Run(idle, steps);
      w.spawning[i] + Waiting(w.arrived, i) == if w.flying[i] then 1 else 0
  {
    AlwaysOk(idle, steps);
    assert SlotOk(Run(idle, steps), i);
  }

  function LiveCount(w: World): nat {
    Count(w.idle) + |w.out|
  }

  function Count(flags: seq<bool>): nat {
    if flags == [] then 0 else One(flags[0]) + Count(flags[1..])
  }

  lemma {:induction false} CountZero(flags: seq<bool>)
    ensures Count(flags) == 0 <==> forall i :: 0 <= i < |flags| ==> !flags[i]
    decreases flags
  {
    if flags != [] {
      CountZero(flags[1..]);
      assert forall i :: 1 <= i < |flags| ==> flags[i] == flags[1..][i - 1];
    }
  }

  ghost predicate AllVacant(w: World)
    requires Sized(w)
  {
    forall i :: 0 <= i < |w.idle| ==> Has(w, i, Vacant)
  }

  ghost predicate NoneFlying(w: World) {
    forall i :: 0 <= i < |w.flying| ==> !w.flying[i]
  }

  lemma VacantIsDead(w: World)
    requires Sized(w) && Ok(w)
    ensures LiveCount(w) == 0 && NoneFlying(w) <==> AllVacant(w)
  {
    CountZero(w.idle);
    if AllVacant(w) {
      forall i: nat ensures w.out[i] == 0 {
        assert SlotOk(w, i);
        assert i < |w.idle| ==> Has(w, i, Vacant);
      }
      assert w.out == multiset{};
      assert forall i :: 0 <= i < |w.idle| ==> Has(w, i, Vacant) && !w.idle[i] && !w.flying[i];
    }
  }

  /** The test on which the harness gives up, made after a crash or a panic, holds exactly when every slot is vacant. */
  lemma GivesUpIffAllVacant(idle: seq<bool>, steps: seq<Step>)
    requires SendsOrPanics(steps)
    ensures var w := Run(idle, steps); LiveCount(w) == 0 && NoneFlying(w) <==> AllVacant(w)
  {
    AlwaysOk(idle, steps);
    VacantIsDead(Run(idle, steps));
  }

  lemma RunSnoc(idle: seq<bool>, steps: seq<Step>, step: Step)
    ensures Run(idle, steps + [step]) == Next(Run(idle, steps), step)
  {
    assert (steps + [step])[..|steps|] == steps;
  }

  /** A task that sent its result and then panicked, while nothing of it was looked at yet. */
  lemma DoubleEnd()
    ensures var w := Run([true], [Dispatch(0), SendsAndPanics(0)]);
      w == Start([false]).(out := multiset{0}, sent := multiset{0}, panicked := multiset{0})
  {
    assert [Dispatch(0)] == [] + [Dispatch(0)];
    assert [Dispatch(0), SendsAndPanics(0)] == [Dispatch(0)] + [SendsAndPanics(0)];
    RunSnoc([true], [], Dispatch(0));
    RunSnoc([true], [Dispatch(0)], SendsAndPanics(0));
    assert Run([true], []) == Start([true]);
    assert [true][0 := false] == [false];
  }

  lemma AfterDoubleEnd(w: World)
    requires w == Start([false]).(out := multiset{0}, sent := multiset{0}, panicked := multiset{0})
    ensures Next(Next(w, OnPanic(0, true)), OnResult(0, true, true)) ==
      Start([true]).(flying := [true], spawning := multiset{0})
  {
    var v := Next(w, OnPanic(0, true));
    assert v == Start([false]).(sent := multiset{0}, flying := [true], spawning := multiset{0}) by {
      assert [false][0 := true] == [true];
      assert v.flying == [true];
    }
    assert v.out[0 := 0] == multiset{};
    assert [false][0 := true] == [true];
  }

  lemma SecondAgent(w: World)
    requires w == Start([true]).(flying := [true], spawning := multiset{0})
    ensures Next(Next(w, RespawnEnds(0, true)), Collect).overwrote
  {
    var v := Next(w, RespawnEnds(0, true));
    assert v.arrived == [Respawned(0, true)] && v.idle[0];
  }

  /** The condition is needed: such a task leads to two agents for its one slot. */
  lemma BothBreaksTheSlot()
    ensures exists steps :: Run([true], steps).overwrote
  {
    var s2 := [Dispatch(0), SendsAndPanics(0)];
    var s3 := s2 + [OnPanic(0, true)];
    var s4 := s3 + [OnResult(0, true, true)];
    var s5 := s4 + [RespawnEnds(0, true)];
    DoubleEnd();
    RunSnoc([true], s2, OnPanic(0, true));
    RunSnoc([true], s3, OnResult(0, true, true));
    AfterDoubleEnd(Run([true], s2));
    RunSnoc([true], s4, RespawnEnds(0, true));
    RunSnoc([true], s5, Collect);
    SecondAgent(Run([true], s4));
    assert Run([true], s5 + [Collect]).overwrote;
  }

  // ------------------------------------------------------------------ the components

  /** The bounded channel on which respawn tasks report. */
  class ResultChannel {
    const capacity: nat
    var queue: seq<Respawned>

    constructor (capacity: nat)
      ensures this.capacity == capacity && queue == []
    {
      this.capacity, queue := capacity, [];
    }

    method TrySend(r: Respawned) returns (ok: bool)
      modifies this
      ensures ok <==> |old(queue)| < capacity
      ensures queue == if ok then old(queue) + [r] else old(queue)
    {
      ok := |queue| < capacity;
      if ok {
        queue := queue + [r];
      }
    }

    method TryRecv() returns (r: Option<Respawned>)
      modifies this
      ensures if old(queue) == [] then r.None? && queue == [] else r == Some(old(queue)[0]) && queue == old(queue)[1..]
    {
      r := None;
      if queue != [] {
        r := Some(queue[0]);
        queue := queue[1..];
      }
    }
  }

  /** Reports for its task, in `Drop` at the latest. */
  class RespawnGuard {
    const index: nat
    const tx: ResultChannel
    var sent: bool

    constructor (index: nat, tx: ResultChannel)
      ensures this.index == index && this.tx == tx && !sent
    {
      this.index, this.tx, sent := index, tx, false;
    }

    /** Consumes the guard: the drop that follows is part of it. */
    method Send(ok: bool)
      requires !sent
      modifies this, tx
      ensures tx.queue == if |old(tx.queue)| < tx.capacity then old(tx.queue) + [Respawned(index, ok)] else old(tx.queue)
    {
      sent := tx.TrySend(Respawned(index, ok));
      Drop();
    }

    method Drop()
      modifies this, tx
      ensures tx.queue ==
        if !old(sent) && |old(tx.queue)| < tx.capacity then old(tx.queue) + [Respawned(index, false)] else old(tx.queue)
    {
      if !sent {
        var _ := tx.TrySend(Respawned(index, false));
      }
    }
  }

  /** A respawn task: whether it runs to its end or panics on the way, one result is reported. */
  method RunRespawnTask(index: nat, tx: ResultChannel, panics: bool, ok: bool)
    modifies tx
    ensures tx.queue ==
      if |old(tx.queue)| < tx.capacity then old(tx.queue) + [Respawned(index, ok && !panics)] else old(tx.queue)
  {
    var guard := new RespawnGuard(index, tx);
    if panics {
      guard.Drop();
    } else {
      guard.Send(ok);
    }
  }

  /** Takes every result that has arrived. */
  function CollectAll(w: World): (v: World)
    requires Sized(w)
    ensures Sized(v)
    decreases |w.arrived|
  {
    if w.arrived == [] || w.arrived[0].slot >= |w.idle| then w else CollectAll(CollectOne(w))
  }

  /** Looks at the slots in turn; `allowed` are the answers of their circuits. */
  function RefillAll(w: World, allowed: seq<bool>): (v: World)
    requires Sized(w) && |allowed| <= |w.idle|
    ensures |v.idle| == |w.idle| && |v.flying| == |w.flying|
  {
    if allowed == [] then w
    else
      var n := |allowed| - 1;
      RefillSlot(RefillAll(w, allowed[..n]), n, allowed[n])
  }

  lemma RefillNext(w: World, allowed: seq<bool>, i: nat)
    requires Sized(w) && i < |allowed| <= |w.idle|
    ensures RefillAll(w, allowed[..i + 1]) == RefillSlot(RefillAll(w, allowed[..i]), i, allowed[i])
  {
    assert allowed[..i + 1][..i] == allowed[..i];
  }

  /** Slots not looked at yet are as before. */
  lemma {:induction false} RefillTouches(w: World, allowed: seq<bool>)
    requires Sized(w) && |allowed| <= |w.idle|
    ensures var v := RefillAll(w, allowed);
      v.idle == w.idle && v.out == w.out && forall j :: |allowed| <= j < |w.flying| ==> v.flying[j] == w.flying[j]
    decreases allowed
  {
    if allowed != [] {
      RefillTouches(w, allowed[..|allowed| - 1]);
    }
  }

  function Answers(cs: seq<C.Slot>, now: C.Time): (r: seq<bool>)
    ensures |r| == |cs| && forall i :: 0 <= i < |r| ==> r[i] == C.Probed(cs[i], now).1
  {
    seq(|cs|, i requires 0 <= i < |cs| => C.Probed(cs[i], now).1)
  }

  /** A slot's circuit after maintenance: it is asked if the slot is vacant. */
  function Asked(w: World, i: nat, c: C.Slot, now: C.Time): C.Slot
    requires Sized(w) && i < |w.idle|
  {
    if !Alive(w, i) && !w.flying[i] then C.Probed(c, now).0 else c
  }

  function AskedUpTo(w: World, cs: seq<C.Slot>, now: C.Time, n: nat): (r: seq<C.Slot>)
    requires Sized(w) && n <= |cs| == |w.idle|
    ensures |r| == |cs| && forall i :: 0 <= i < |r| ==> r[i] == if i < n then Asked(w, i, cs[i], now) else cs[i]
  {
    seq(|cs|, i requires 0 <= i < |cs| => if i < n then Asked(w, i, cs[i], now) else cs[i])
  }

  /** The main loop's side of the slots. The ghost fields are the tasks it has spawned. */
  class Harness {
    const circuits: seq<C.SlotCircuit>
    const respawns: ResultChannel
    var idle: seq<bool>
    var out: multiset<nat>
    var flying: seq<bool>
    ghost var running: multiset<nat>
    ghost var sent: multiset<nat>
    ghost var panicked: multiset<nat>
    ghost var spawning: multiset<nat>
    ghost var overwrote: bool

    ghost function Model(): World reads this, respawns {
      World(idle, out, running, sent, panicked, flying, spawning, respawns.queue, overwrote, false)
    }

    ghost predicate Valid() reads this {
      && |circuits| == |idle| == |flying| == respawns.capacity
      && forall i, j :: 0 <= i < j < |circuits| ==> circuits[i] != circuits[j]
    }

    constructor (idle: seq<bool>)
      ensures Valid() && Model() == Start(idle)
      ensures fresh(respawns) && forall i :: 0 <= i < |circuits| ==> fresh(circuits[i]) && circuits[i].Model() == C.FRESH
    {
      this.idle, out, flying := idle, multiset{}, seq(|idle|, i => false);
      running, sent, panicked, spawning, overwrote := multiset{}, multiset{}, multiset{}, multiset{}, false;
      var channel := new ResultChannel(|idle|);
      respawns := channel;
      var cs: seq<C.SlotCircuit> := [];
      for i := 0 to |idle|
        invariant |cs| == i && fresh(channel) && channel.queue == [] && channel.capacity == |idle|
        invariant forall j :: 0 <= j < i ==> fresh(cs[j]) && cs[j].Model() == C.FRESH
        invariant forall j, k :: 0 <= j < k < i ==> cs[j] != cs[k]
      {
        var c := new C.SlotCircuit();
        cs := cs + [c];
      }
      circuits := cs;
    }

    method PutBack(i: nat)
      requires Valid() && i < |idle|
      modifies this
      ensures Valid() && Model() == ReturnAgent(old(Model()), i)
    {
      overwrote := overwrote || idle[i];
      idle := idle[i := true];
    }

    method Launch(i: nat)
      requires Valid() && i < |idle|
      modifies this
      ensures Valid() && Model() == StartRespawn(old(Model()), i)
    {
      flying := flying[i := true];
      spawning := spawning + multiset{i};
    }

    /** Records the crash and respawns unless the circuit is open. */
    method SpawnRespawnTask(i: nat, now: C.Time, jitter: C.Jitter) returns (spawned: bool)
      requires Valid() && i < |idle|
      modifies this, circuits[i]
      ensures Valid() && (circuits[i].Model(), !spawned) == Judged(old(circuits[i].Model()), now, jitter)
      ensures Model() == if spawned then StartRespawn(old(Model()), i) else old(Model())
    {
      var verdict := circuits[i].RecordCrash(now, jitter);
      spawned := !verdict.CircuitOpen?;
      if spawned {
        Launch(i);
      }
    }

    method HandlePromptResult(i: nat, healthy: bool, now: C.Time, jitter: C.Jitter)
      requires Valid() && i < |idle| && i in sent
      modifies this, circuits[i]
      ensures Valid()
      ensures Model() == HandleResult(old(Model()), i, healthy, !Judged(old(circuits[i].Model()), now, jitter).1)
      ensures circuits[i].Model() ==
        if healthy then old(circuits[i].Model()) else Judged(old(circuits[i].Model()), now, jitter).0
    {
      sent := sent - multiset{i};
      out := out[i := 0];
      if healthy {
        PutBack(i);
      } else {
        var _ := SpawnRespawnTask(i, now, jitter);
      }
    }

    method RecoverPanickedAgent(i: nat, now: C.Time, jitter: C.Jitter)
      requires Valid() && i < |idle| && i in panicked
      modifies this, circuits[i]
      ensures Valid()
      ensures Model() == RecoverPanicked(old(Model()), i, !Judged(old(circuits[i].Model()), now, jitter).1)
      ensures circuits[i].Model() ==
        if i in old(out) then Judged(old(circuits[i].Model()), now, jitter).0 else old(circuits[i].Model())
    {
      var known := DropPanicked(i);
      if known {
        var _ := SpawnRespawnTask(i, now, jitter);
      }
    }

    /** Takes the panicked task out of the task map; false if it is not in there. */
    method DropPanicked(i: nat) returns (known: bool)
      requires Valid() && i < |idle|
      modifies this
      ensures Valid() && (known <==> i in old(out))
      ensures Model() == old(Model()).(
        panicked := old(panicked) - multiset{i},
        out := if known then old(out) - multiset{i} else old(out))
    {
      panicked := panicked - multiset{i};
      known := i in out;
      if known {
        out := out - multiset{i};
      }
    }

    /** The slots' circuits, as values. */
    ghost function Circuits(): (cs: seq<C.Slot>)
      reads circuits
      ensures |cs| == |circuits| && forall i :: 0 <= i < |cs| ==> cs[i] == circuits[i].Model()
    {
      seq(|circuits|, i requires 0 <= i < |circuits| reads circuits => circuits[i].Model())
    }

    /**
     * Maintenance: starts a respawn for every vacant slot whose circuit allows it. Only
     * the circuits of vacant slots are asked.
     */
    method RefillSlots(now: C.Time)
      requires Valid()
      modifies this, circuits
      ensures Valid()
      ensures Model() == RefillAll(old(Model()), Answers(old(Circuits()), now))
      ensures Circuits() == AskedUpTo(old(Model()), old(Circuits()), now, |circuits|)
    {
      ghost var was, cs := Model(), Circuits();
      ghost var answers := Answers(cs, now);
      for i := 0 to |circuits|
        invariant Valid() && Model() == RefillAll(was, answers[..i])
        invariant Circuits() == AskedUpTo(was, cs, now, i)
      {
        RefillNext(was, answers, i);
        RefillOne(i, now, was, answers[..i]);
        assert Circuits() == AskedUpTo(was, cs, now, i + 1);
      }
      assert answers[..|circuits|] == answers;
    }

    method RefillOne(i: nat, now: C.Time, ghost was: World, ghost before: seq<bool>)
      requires Valid() && i < |idle| && Sized(was) && |was.idle| == |idle|
      requires |before| == i && Model() == RefillAll(was, before)
      modifies this, circuits[i]
      ensures Valid()
      ensures Model() == RefillSlot(old(Model()), i, C.Probed(old(Circuits())[i], now).1)
      ensures Circuits() == old(Circuits())[i := Asked(was, i, old(Circuits())[i], now)]
    {
      RefillTouches(was, before);
      if idle[i] || i in out || flying[i] {
        assert Circuits() == old(Circuits());
        return;
      }
      var ok := circuits[i].CanRefill(now);
      if ok {
        Launch(i);
      }
    }

    /** Takes the results of finished respawn tasks; a failure opens its slot's circuit. */
    method CollectRespawned(now: C.Time)
      requires Valid() && forall k :: 0 <= k < |respawns.queue| ==> respawns.queue[k].slot < |idle|
      modifies this, respawns, circuits
      ensures Valid() && Model() == CollectAll(old(Model()))
      ensures forall i :: 0 <= i < |circuits| ==>
        circuits[i].Model() == Told(old(respawns.queue), i, old(circuits[i].Model()), now)
    {
      ghost var results := respawns.queue;
      ghost var k := 0;
      assert results[..0] == [];
      while respawns.queue != []
        invariant Valid() && CollectAll(Model()) == CollectAll(old(Model()))
        invariant 0 <= k <= |results| && respawns.queue == results[k..]
        invariant forall j :: 0 <= j < |results| ==> results[j].slot < |idle|
        invariant forall i :: 0 <= i < |circuits| ==>
          circuits[i].Model() == Told(results[..k], i, old(circuits[i].Model()), now)
        decreases |respawns.queue|
      {
        CollectOneResult(now);
        ToldNext(results, k);
        k := k + 1;
      }
      assert results[..k] == results;
    }

    method CollectOneResult(now: C.Time)
      requires Valid() && respawns.queue != [] && respawns.queue[0].slot < |idle|
      modifies this, respawns, circuits
      ensures Valid() && Model() == CollectOne(old(Model()))
      ensures forall i :: 0 <= i < |circuits| ==>
        circuits[i].Model() == ToldOne(old(respawns.queue[0]), i, old(circuits[i].Model()), now)
    {
      var r := respawns.TryRecv();
      var i := r.value.slot;
      flying := flying[i := false];
      if r.value.ok {
        PutBack(i);
      } else {
        circuits[i].MarkSpawnFailed(now);
      }
    }
  }

  /** A slot's circuit after respawn results: a failure of the slot opens it from now on. */
  function Told(results: seq<Respawned>, i: nat, c: C.Slot, now: C.Time): C.Slot {
    if Respawned(i, false) in results then C.FailedSpawn(c, now) else c
  }

  function ToldOne(r: Respawned, i: nat, c: C.Slot, now: C.Time): C.Slot {
    if r == Respawned(i, false) then C.FailedSpawn(c, now) else c
  }

  lemma ToldNext(results: seq<Respawned>, k: nat)
    requires k < |results|
    ensures forall i, c, now :: Told(results[..k + 1], i, c, now) == ToldOne(results[k], i, Told(results[..k], i, c, now), now)
  {
    assert results[..k + 1] == results[..k] + [results[k]];
  }

  /** A crash as the circuit judges it; true when it forbids a respawn. */
  function Judged(c: C.Slot, now: C.Time, jitter: C.Jitter): (C.Slot, bool) {
    var (after, verdict) := C.Crashed(c, now, jitter);
    (after, verdict.CircuitOpen?)
  }
}
