/**
 * The deferred start of the agent pool: listening, waking, ready, or waiting to retry.
 * Times are in seconds.
 */
module Wake {
  import opened Prelude
  import opened Powers

  type Time = nat
  type Text = string

  const U32_MAX: nat := 0xFFFF_FFFF
  const U64_MAX: nat := 0xFFFF_FFFF_FFFF_FFFF
  const INITIAL_RETRY_DELAY := 5
  const MAX_RETRY_DELAY := 300

  type U32 = n: nat | n <= U32_MAX

  datatype Lifecycle<P> =
    | Listening
    | Waking(attempt: U32)
    | Ready(pool: P)
    | Failed(attempt: U32, retryAt: Time, error: Text)

  datatype Rejection = WrongAttempt | NotWaking

  // ------------------------------------------------------------------- the backoff

  /** `1_u64.checked_shl`. */
  function CheckedShl(exponent: nat): Option<nat> {
    if exponent < 64 then Some(Pow2(exponent) % (U64_MAX + 1)) else None
  }

  function SaturatingAdd(a: U32, b: U32): U32 {
    Min(a + b, U32_MAX)
  }

  function RetryDelay(attempt: U32): nat {
    var exponent := Min(Max(attempt - 1, 0), 63);
    var shifted := CheckedShl(exponent);
    var multiplier := if shifted.Some? then shifted.value else U64_MAX;
    Min(Min(INITIAL_RETRY_DELAY * multiplier, U64_MAX), MAX_RETRY_DELAY)
  }

  /**
   * The delay is five seconds doubled per earlier failure, at most five minutes, for
   * every attempt: neither the shift, the product nor the saturation ever shows.
   */
  lemma RetryDelayIsCappedDoubling(attempt: U32)
    requires attempt >= 1
    ensures RetryDelay(attempt) == Min(300, 5 * Pow2(attempt - 1))
  {
    var exponent := Min(attempt - 1, 63);
    ShiftFits(exponent);
    assert Pow2(6) == 64;
    if exponent >= 6 {
      Pow2Grows(6, attempt - 1);
      Pow2Grows(6, exponent);
    }
  }

  /** No bit is shifted out. */
  lemma ShiftFits(exponent: nat)
    requires exponent < 64
    ensures CheckedShl(exponent) == Some(Pow2(exponent))
  {
    var top := 7;
    assert Pow2(top) == 0x80;
    FiftySixMore(top);
    Pow2Grows(exponent, top + 56);
  }

  lemma EightMore(n: nat)
    ensures Pow2(n + 8) == 0x100 * Pow2(n)
  {
    FourMore(n);
    FourMore(n + 4);
  }

  lemma FourMore(n: nat)
    ensures Pow2(n + 4) == 0x10 * Pow2(n)
  {
    assert Pow2(n + 2) == 4 * Pow2(n);
    assert Pow2(n + 4) == 4 * Pow2(n + 2);
  }

  lemma FiftySixMore(n: nat)
    ensures Pow2(n + 56) == 0x100_0000_0000_0000 * Pow2(n)
  {
    EightMore(n);
    EightMore(n + 8);
    EightMore(n + 16);
    EightMore(n + 24);
    EightMore(n + 32);
    EightMore(n + 40);
    EightMore(n + 48);
  }

  // ------------------------------------------------------------------- transitions

  function StartWakeIfDue<P>(s: Lifecycle<P>, pending: bool, now: Time): (Lifecycle<P>, Option<U32>) {
    if !pending then (s, None)
    else
      match s
      case Listening => (Waking(1), Some(1))
      case Failed(attempt, retryAt, _) =>
        if now >= retryAt then (Waking(SaturatingAdd(attempt, 1)), Some(SaturatingAdd(attempt, 1))) else (s, None)
      case _ => (s, None)
  }

  function CompleteWake<P>(s: Lifecycle<P>, completed: U32, result: Result<P, Text>, now: Time)
    : (Lifecycle<P>, Result<(), Rejection>)
  {
    if !s.Waking? then (s, Err(NotWaking))
    else if s.attempt != completed then (s, Err(WrongAttempt))
    else
      match result
      case Ok(pool) => (Ready(pool), Ok(()))
      case Err(error) => (Failed(s.attempt, now + RetryDelay(s.attempt), error), Ok(()))
  }

  function TakeReady<P>(s: Lifecycle<P>): (Lifecycle<P>, Option<P>) {
    if s.Ready? then (Listening, Some(s.pool)) else (s, None)
  }

  // ---------------------------------------------------------------------- histories

  datatype Call<P> =
    | Start(pending: bool)
    | Complete(token: U32, result: Result<P, Text>)
    | Take

  datatype Answer<P> =
    | Started(started: Option<U32>)
    | Completed(completed: Result<(), Rejection>)
    | Taken(taken: Option<P>)

  datatype Entry<P> = Entry(at: Time, call: Call<P>, before: Lifecycle<P>, answer: Answer<P>, after: Lifecycle<P>)

  function Enter<P>(s: Lifecycle<P>, at: Time, call: Call<P>): Entry<P> {
    match call
    case Start(pending) =>
      var (after, token) := StartWakeIfDue(s, pending, at);
      Entry(at, call, s, Started(token), after)
    case Complete(token, result) =>
      var (after, ok) := CompleteWake(s, token, result, at);
      Entry(at, call, s, Completed(ok), after)
    case Take =>
      var (after, pool) := TakeReady(s);
      Entry(at, call, s, Taken(pool), after)
  }

  function StateAt<P>(log: seq<Entry<P>>, n: nat): Lifecycle<P>
    requires n <= |log|
  {
    if n == 0 then Listening else log[n - 1].after
  }

  predicate Linked<P(==)>(log: seq<Entry<P>>, k: nat)
    requires k < |log|
  {
    log[k] == Enter(StateAt(log, k), log[k].at, log[k].call)
  }

  /** The calls are in order from the start; nothing is assumed about the callers. */
  ghost predicate Follows<P(!new)>(log: seq<Entry<P>>) {
    forall k :: 0 <= k < |log| ==> Linked(log, k)
  }

  predicate Starts<P>(e: Entry<P>) {
    e.answer.Started? && e.answer.started.Some?
  }

  predicate Accepts<P>(e: Entry<P>) {
    e.call.Complete? && e.answer == Completed(Ok(()))
  }

  predicate AcceptsFailure<P>(e: Entry<P>) {
    Accepts(e) && e.call.result.Err?
  }

  predicate Takes<P>(e: Entry<P>) {
    e.answer.Taken? && e.answer.taken.Some?
  }

  /** Wakes started since the last pool was taken, within the first `n` calls. */
  function Wakes<P>(log: seq<Entry<P>>, n: nat): nat
    requires n <= |log|
  {
    if n == 0 || Takes(log[n - 1]) then 0
    else Wakes(log, n - 1) + if Starts(log[n - 1]) then 1 else 0
  }

  ghost predicate Counted<P>(s: Lifecycle<P>, wakes: nat) {
    match s
    case Listening => wakes == 0
    case Ready(_) => wakes >= 1
    case _ => wakes >= 1 && s.attempt == Min(wakes, U32_MAX)
  }

  lemma {:induction false} CountedAlways<P(!new)>(log: seq<Entry<P>>, n: nat)
    requires Follows(log) && n <= |log|
    ensures Counted(StateAt(log, n), Wakes(log, n))
  {
    if n > 0 {
      CountedAlways(log, n - 1);
      assert Linked(log, n - 1);
    }
  }

  /** Tokens count the wakes since the last pool was taken, up to the largest 32-bit value. */
  lemma TokensCountWakes<P(!new)>(log: seq<Entry<P>>, k: nat)
    requires Follows(log) && k < |log| && Starts(log[k])
    ensures log[k].answer.started == Some(Min(Wakes(log, k) + 1, U32_MAX))
    ensures log[k].after == Waking(Min(Wakes(log, k) + 1, U32_MAX))
  {
    CountedAlways(log, k);
    assert Linked(log, k);
  }

  /** Call `i` is the latest to start a wake before call `n`, and nothing has completed it since. */
  ghost predicate Pending<P(!new)>(log: seq<Entry<P>>, i: nat, n: nat) {
    && i < n <= |log| && Starts(log[i])
    && forall k :: i < k < n ==> !Starts(log[k]) && !Accepts(log[k]) && log[k].after == log[i].after
  }

  lemma {:induction false} WakingIsPending<P(!new)>(log: seq<Entry<P>>, n: nat) returns (i: nat)
    requires Follows(log) && n <= |log| && StateAt(log, n).Waking?
    ensures Pending(log, i, n)
  {
    assert Linked(log, n - 1);
    if Starts(log[n - 1]) {
      i := n - 1;
    } else {
      i := WakingIsPending(log, n - 1);
    }
  }

  /**
   * A result is accepted only for the wake in flight, by its token, and once: between
   * the start of that wake and the result nothing else started or completed.
   */
  lemma AcceptedOnce<P(!new)>(log: seq<Entry<P>>, k: nat) returns (i: nat)
    requires Follows(log) && k < |log| && Accepts(log[k])
    ensures Pending(log, i, k) && log[i].answer.started == Some(log[k].call.token)
    ensures !log[k].after.Waking?
  {
    assert Linked(log, k);
    i := WakingIsPending(log, k);
    assert Linked(log, i);
    if i + 1 < k {
      assert log[k - 1].after == log[i].after;
    }
  }

  /** A result that is stale, repeated or unexpected changes nothing; any other is accepted. */
  lemma RejectedIff<P(!new)>(log: seq<Entry<P>>, k: nat)
    requires Follows(log) && k < |log| && log[k].call.Complete?
    ensures !Accepts(log[k]) <==> log[k].before != Waking(log[k].call.token)
    ensures !Accepts(log[k]) ==> log[k].after == log[k].before
  {
    assert Linked(log, k);
  }

  /**
   * A wake is started exactly when work is pending and the lifecycle listens or a failed
   * wake's retry is due; its token is then the first or the next one. Otherwise nothing
   * changes.
   */
  lemma {:induction false} StartsIff<P(!new)>(log: seq<Entry<P>>, k: nat)
    requires Follows(log) && k < |log| && log[k].call.Start?
    ensures var e := log[k];
      var due := e.before.Listening? || (e.before.Failed? && e.before.retryAt <= e.at);
      && e.answer.Started? && (e.answer.started.Some? <==> e.call.pending && due)
      && (e.answer.started.Some? ==>
            && e.answer.started.value == Min(U32_MAX, 1 + if e.before.Failed? then e.before.attempt else 0)
            && e.after == Waking(e.answer.started.value))
      && (e.answer.started.None? ==> e.after == e.before)
  {
    assert Linked(log, k);
  }

  /** An accepted success makes its own pool ready; an accepted failure waits for the retry with its own error. */
  lemma {:induction false} AcceptedMeans<P(!new)>(log: seq<Entry<P>>, k: nat)
    requires Follows(log) && k < |log| && Accepts(log[k])
    ensures var e := log[k];
      e.after == match e.call.result
                 case Ok(pool) => Ready(pool)
                 case Err(error) => Failed(e.call.token, e.at + RetryDelay(e.call.token), error)
  {
    assert Linked(log, k);
  }

  /** The failure that a waiting lifecycle is waiting out. */
  lemma {:induction false} FailureBehind<P(!new)>(log: seq<Entry<P>>, n: nat) returns (i: nat)
    requires Follows(log) && n <= |log| && StateAt(log, n).Failed?
    ensures i < n && AcceptsFailure(log[i])
    ensures log[i].after == StateAt(log, n)
    ensures log[i].after.retryAt == log[i].at + RetryDelay(log[i].call.token)
    ensures log[i].after.attempt == log[i].call.token
  {
    assert Linked(log, n - 1);
    if Accepts(log[n - 1]) {
      i := n - 1;
    } else {
      i := FailureBehind(log, n - 1);
    }
  }

  /** A retry starts no sooner than the capped doubling delay after the failure before it. */
  lemma RetrySpacing<P(!new)>(log: seq<Entry<P>>, k: nat) returns (i: nat)
    requires Follows(log) && k < |log| && Starts(log[k]) && Wakes(log, k) >= 1
    ensures i < k && AcceptsFailure(log[i]) && log[i].call.token >= 1
    ensures log[k].at >= log[i].at + Min(MAX_RETRY_DELAY, INITIAL_RETRY_DELAY * Pow2(log[i].call.token - 1))
    ensures log[k].answer.started == Some(Min(log[i].call.token + 1, U32_MAX))
  {
    assert Linked(log, k);
    CountedAlways(log, k);
    i := FailureBehind(log, k);
    RetryDelayIsCappedDoubling(log[i].call.token);
  }

  // -------------------------------------------------- the main loop and its wake task

  /** A spawned wake: still running, its result sent, or ended by a panic before sending. */
  datatype Task<P> = Running(token: U32) | Sent(token: U32, result: Result<P, Text>) | Panicked(token: U32)

  datatype Loop<P> = Loop(lifecycle: Lifecycle<P>, tasks: seq<Task<P>>, pools: seq<P>)

  datatype Step<P> =
    | Turn(pending: bool, now: Time)
    | Sends(task: nat, result: Result<P, Text>)
    | Panics(task: nat)
    | Deliver(task: nat, now: Time)
    | Join(task: nat, now: Time)

  function Without<T>(s: seq<T>, i: nat): seq<T>
    requires i < |s|
  {
    s[..i] + s[i + 1..]
  }

  /** One step; a step that is not possible does nothing. `pools` are the pools installed. */
  function Next<P>(l: Loop<P>, step: Step<P>): Loop<P> {
    match step
    case Turn(pending, now) =>
      if l.pools != [] then l
      else
        var (lifecycle, token) := StartWakeIfDue(l.lifecycle, pending, now);
        Loop(lifecycle, if token.Some? then l.tasks + [Running(token.value)] else l.tasks, l.pools)
    case Sends(i, result) =>
      if i < |l.tasks| && l.tasks[i].Running? then l.(tasks := l.tasks[i := Sent(l.tasks[i].token, result)]) else l
    case Panics(i) =>
      if i < |l.tasks| && l.tasks[i].Running? then l.(tasks := l.tasks[i := Panicked(l.tasks[i].token)]) else l
    case Deliver(i, now) =>
      if i < |l.tasks| && l.tasks[i].Sent? && l.pools == [] then
        var (lifecycle, ok) := CompleteWake(l.lifecycle, l.tasks[i].token, l.tasks[i].result, now);
        var (rest, pool) := if ok.Ok? then TakeReady(lifecycle) else (lifecycle, None);
        Loop(rest, Without(l.tasks, i), if pool.Some? then l.pools + [pool.value] else l.pools)
      else l
    case Join(i, now) =>
      if i < |l.tasks| && l.tasks[i].Panicked? then
        var lifecycle :=
          if l.lifecycle.Waking?
          then CompleteWake(l.lifecycle, l.lifecycle.attempt, Err("pool wake task failed"), now).0
          else l.lifecycle;
        Loop(lifecycle, Without(l.tasks, i), l.pools)
      else l
  }

  function Run<P>(steps: seq<Step<P>>): Loop<P> {
    if steps == [] then Loop(Listening, [], []) else Next(Run(steps[..|steps| - 1]), steps[|steps| - 1])
  }

  /** A wake task exists exactly while the lifecycle is waking; there is one and it holds the token. */
  predicate SingleFlight<P>(l: Loop<P>) {
    && (l.lifecycle.Waking? <==> |l.tasks| == 1)
    && |l.tasks| <= 1
    && (l.lifecycle.Waking? ==> l.tasks[0].token == l.lifecycle.attempt)
    && !l.lifecycle.Ready?
    && |l.pools| <= 1
    && (l.pools != [] ==> l.lifecycle.Listening?)
  }

  lemma NextKeeps<P>(l: Loop<P>, step: Step<P>)
    requires SingleFlight(l)
    ensures SingleFlight(Next(l, step))
  {
  }

  /** Never two wakes at once and never two pools, whatever tasks do and in whatever order. */
  lemma {:induction false} SingleFlightAlways<P>(steps: seq<Step<P>>)
    ensures SingleFlight(Run(steps))
    decreases steps
  {
    if steps != [] {
      SingleFlightAlways(steps[..|steps| - 1]);
      NextKeeps(Run(steps[..|steps| - 1]), steps[|steps| - 1]);
    }
  }

  /** In the main loop no wake result is ever stale, and a panic is charged to the wake it ended. */
  lemma {:induction false} NothingStaleInTheLoop<P>(steps: seq<Step<P>>, i: nat)
    requires var l := Run(steps); i < |l.tasks|
    ensures var l := Run(steps); l.lifecycle == Waking(l.tasks[i].token) && l.pools == []
  {
    SingleFlightAlways(steps);
  }

  /** A pool that a task sent is installed when its message is taken, and the lifecycle listens again. */
  lemma {:induction false} PoolArrives<P>(steps: seq<Step<P>>, i: nat, now: Time)
    requires var l := Run(steps); i < |l.tasks| && l.tasks[i].Sent? && l.tasks[i].result.Ok?
    ensures var l := Run(steps);
      Next(l, Deliver(i, now)) == Loop(Listening, [], [l.tasks[i].result.value])
  {
    SingleFlightAlways(steps);
    var l := Run(steps);
    assert Without(l.tasks, 0) == [];
  }

  // ------------------------------------------------------------------ the component

  class PoolLifecycle<P> {
    var state: Lifecycle<P>

    constructor ()
      ensures state == Listening
    {
      state := Listening;
    }

    method StartIfDue(pending: bool, now: Time) returns (token: Option<U32>)
      modifies this
      ensures (state, token) == StartWakeIfDue(old(state), pending, now)
    {
      if !pending {
        return None;
      }
      token := None;
      match state {
        case Listening => token := Some(1);
        case Failed(attempt, retryAt, _) =>
          if now >= retryAt {
            token := Some(SaturatingAdd(attempt, 1));
          }
        case _ =>
      }
      if token.Some? {
        state := Waking(token.value);
      }
    }

    method Take() returns (pool: Option<P>)
      modifies this
      ensures (state, pool) == TakeReady(old(state))
    {
      var was := state;
      state := Listening;
      if was.Ready? {
        return Some(was.pool);
      }
      state := was;
      pool := None;
    }

    method Complete(completed: U32, result: Result<P, Text>, now: Time) returns (r: Result<(), Rejection>)
      modifies this
      ensures (state, r) == CompleteWake(old(state), completed, result, now)
    {
      if !state.Waking? {
        return Err(NotWaking);
      }
      if state.attempt != completed {
        return Err(WrongAttempt);
      }
      match result {
        case Ok(pool) => state := Ready(pool);
        case Err(error) => state := Failed(completed, now + RetryDelay(completed), error);
      }
      r := Ok(());
    }

    method Cancel(attempt: U32, error: Text, now: Time) returns (ok: bool)
      modifies this
      ensures state == CompleteWake(old(state), attempt, Err(error), now).0
      ensures ok <==> old(state) == Waking(attempt)
    {
      var r := Complete(attempt, Err(error), now);
      ok := r.Ok?;
    }
  }
}
