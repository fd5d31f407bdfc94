/**
 * The circuit breaker of an agent slot: three crashes within a minute open it, an open
 * circuit allows nothing for five minutes, and then a single probe. Times are in
 * nanoseconds, backoff delays in seconds.
 */
module Circuit {
  import opened Prelude
  import opened Powers

  type Time = nat

  const THRESHOLD := 3
  const WINDOW := 60_000_000_000
  const COOLDOWN := 300_000_000_000
  const BASE_DELAY := 1
  const MAX_DELAY := 30

  /** A respawn sleeps for `capped` seconds times `factor` first; factors count in ten-billionths. */
  datatype Verdict = Respawn(capped: nat, factor: nat) | CircuitOpen | HalfOpenProbe

  /** Nanoseconds into the current second, read from the wall clock. */
  type Jitter = j: nat | j < 1_000_000_000

  datatype Slot = Slot(crashTimes: seq<Time>, openUntil: Option<Time>)

  const FRESH := Slot([], None)

  // ------------------------------------------------------------------- transitions

  function Recent(times: seq<Time>, now: Time): (r: seq<Time>)
    ensures |r| <= |times|
  {
    if times == [] then []
    else
      var last := times[|times| - 1];
      Recent(times[..|times| - 1], now) + (if now - last < WINDOW then [last] else [])
  }

  /** Crash times as a probe leaves them: one more within the window is one too many. */
  function Seeded(now: Time): seq<Time> {
    seq(THRESHOLD - 1, i => now)
  }

  /** One second, doubled per earlier crash in the window, and capped. */
  function Backoff(recent: nat): nat
    requires recent >= 1
  {
    Min(BASE_DELAY * Pow2(Min(recent - 1, 5)), MAX_DELAY)
  }

  const ONE := 10_000_000_000

  /** Twenty percent either way: 0.8 plus 0.4 for every second's worth of jitter. */
  function Spread(jitter: Jitter): nat {
    8_000_000_000 + 4 * jitter
  }

  function Crashed(s: Slot, now: Time, jitter: Jitter): (Slot, Verdict) {
    match s.openUntil
    case Some(until) =>
      if now >= until then (Slot(Seeded(now), None), HalfOpenProbe) else (s, CircuitOpen)
    case None =>
      var times := Recent(s.crashTimes + [now], now);
      RecentLast(s.crashTimes, now);
      if |times| >= THRESHOLD then (Slot(times, Some(now + COOLDOWN)), CircuitOpen)
      else (Slot(times, None), Respawn(Backoff(|times|), Spread(jitter)))
  }

  function FailedSpawn(s: Slot, now: Time): Slot {
    s.(openUntil := Some(now + COOLDOWN))
  }

  function Probed(s: Slot, now: Time): (Slot, bool) {
    match s.openUntil
    case Some(until) => if now >= until then (Slot(Seeded(now), None), true) else (s, false)
    case None => (s, true)
  }

  lemma RecentLast(times: seq<Time>, now: Time)
    ensures Recent(times + [now], now) == Recent(times, now) + [now]
  {
    assert (times + [now])[..|times|] == times;
  }

  // ---------------------------------------------------------------------- histories

  datatype Input = Crash(jitter: Jitter) | SpawnFailed | Refill

  datatype Answer = Verdict(verdict: Verdict) | Marked | Refilled(ok: bool)

  datatype Entry = Entry(at: Time, input: Input, before: Slot, answer: Answer, after: Slot)

  function Enter(slot: Slot, at: Time, input: Input): (e: Entry)
    ensures e.at == at && e.before == slot && e.input == input
  {
    match input
    case Crash(jitter) =>
      var (after, verdict) := Crashed(slot, at, jitter);
      Entry(at, input, slot, Verdict(verdict), after)
    case SpawnFailed => Entry(at, input, slot, Marked, FailedSpawn(slot, at))
    case Refill =>
      var (after, ok) := Probed(slot, at);
      Entry(at, input, slot, Refilled(ok), after)
  }

  /** The clock after the first `n` entries. */
  function ClockAt(log: seq<Entry>, n: nat): Time
    requires n <= |log|
  {
    if n == 0 then 0 else log[n - 1].at
  }

  function SlotAt(log: seq<Entry>, n: nat): Slot
    requires n <= |log|
  {
    if n == 0 then FRESH else log[n - 1].after
  }

  /** The entry continues the one before, at a time no earlier. */
  predicate Linked(log: seq<Entry>, k: nat)
    requires k < |log|
  {
    && log[k].at >= ClockAt(log, k)
    && log[k] == Enter(SlotAt(log, k), log[k].at, log[k].input)
  }

  /** The whole history of a slot, from its creation on. */
  ghost predicate Follows(log: seq<Entry>) {
    forall k :: 0 <= k < |log| ==> Linked(log, k)
  }

  // ---------------------------------------------------------------- a closed circuit

  predicate Small(s: Slot, clock: Time) {
    && (s.openUntil.None? ==> |s.crashTimes| < THRESHOLD)
    && (forall i :: 0 <= i < |s.crashTimes| ==> s.crashTimes[i] <= clock)
  }

  lemma {:induction false} RecentSubset(times: seq<Time>, now: Time)
    ensures forall i :: 0 <= i < |Recent(times, now)| ==>
      Recent(times, now)[i] in times && now - Recent(times, now)[i] < WINDOW
    decreases times
  {
    if times != [] {
      RecentSubset(times[..|times| - 1], now);
    }
  }

  lemma EnterSmall(s: Slot, clock: Time, at: Time, input: Input)
    requires Small(s, clock) && clock <= at
    ensures Small(Enter(s, at, input).after, at)
  {
    RecentSubset(s.crashTimes + [at], at);
  }

  /** A closed circuit holds at most two crash times, whatever happened to the slot. */
  lemma {:induction false} AtMostTwoCrashTimes(log: seq<Entry>, n: nat)
    requires Follows(log) && n <= |log|
    ensures Small(SlotAt(log, n), ClockAt(log, n))
  {
    if n > 0 {
      AtMostTwoCrashTimes(log, n - 1);
      assert Linked(log, n - 1);
      EnterSmall(SlotAt(log, n - 1), ClockAt(log, n - 1), log[n - 1].at, log[n - 1].input);
    }
  }

  /**
   * Every backoff lies in [0.8 s, 2.4 s): a crash with none before it in the window waits
   * about one second, any other about two. The cap of 30 s never decides.
   */
  lemma BackoffBounds(log: seq<Entry>, k: nat)
    requires Follows(log) && k < |log| && RespawnedAt(log[k])
    ensures var e := log[k];
      var v := e.answer.verdict;
      && v.capped == |e.after.crashTimes| == (if AnyInWindow(e.before.crashTimes, e.at) then 2 else 1)
      && ONE * 8 / 10 <= v.factor < ONE * 12 / 10
  {
    var e := log[k];
    assert Linked(log, k);
    BackoffOf(e.before, e.at, e.input.jitter);
  }

  /** The jitter spreads the delay evenly: from 0.8 up, by four ten-billionths for each nanosecond. */
  lemma SpreadsEvenly(log: seq<Entry>, k: nat)
    requires Follows(log) && k < |log| && RespawnedAt(log[k]) && log[k].input.Crash?
    ensures log[k].answer.verdict.factor == ONE * 8 / 10 + 4 * log[k].input.jitter
  {
    assert Linked(log, k);
  }

  lemma BackoffOf(s: Slot, now: Time, jitter: Jitter)
    requires Crashed(s, now, jitter).1.Respawn?
    ensures var (after, v) := Crashed(s, now, jitter);
      && v.capped == |after.crashTimes| == (if AnyInWindow(s.crashTimes, now) then 2 else 1)
      && ONE * 8 / 10 <= v.factor < ONE * 12 / 10
  {
    RecentLast(s.crashTimes, now);
    RecentEmpty(s.crashTimes, now);
    BackoffTable();
  }

  lemma BackoffTable()
    ensures Backoff(1) == 1 && Backoff(2) == 2
  {
    assert Pow2(0) == 1 && Pow2(1) == 2;
  }

  ghost predicate AnyInWindow(times: seq<Time>, now: Time) {
    exists i :: 0 <= i < |times| && now - times[i] < WINDOW
  }

  lemma {:induction false} RecentEmpty(times: seq<Time>, now: Time)
    ensures Recent(times, now) == [] <==> !AnyInWindow(times, now)
    decreases times
  {
    if times != [] {
      RecentEmpty(times[..|times| - 1], now);
    }
  }

  // --------------------------------------------------------------- an opened circuit

  /** The entry opens the circuit: a failed spawn, or a crash that finds it closed. */
  predicate Opens(e: Entry) {
    e.answer.Marked? || (e.before.openUntil.None? && e.after.openUntil.Some?)
  }

  /** The entry lets a process be started. */
  predicate Allows(e: Entry) {
    match e.answer
    case Verdict(v) => !v.CircuitOpen?
    case Refilled(ok) => ok
    case Marked => false
  }

  /** Closed to everything before `until`. */
  predicate Shut(s: Slot, clock: Time, until: Time) {
    clock >= until || (s.openUntil.Some? && s.openUntil.value >= until)
  }

  lemma OpensUntil(s: Slot, at: Time, input: Input)
    requires Opens(Enter(s, at, input))
    ensures Enter(s, at, input).after.openUntil == Some(at + COOLDOWN)
  {
  }

  lemma ShutStays(s: Slot, clock: Time, until: Time, at: Time, input: Input)
    requires Shut(s, clock, until) && clock <= at && until <= clock + COOLDOWN
    ensures Shut(Enter(s, at, input).after, at, until)
    ensures Allows(Enter(s, at, input)) ==> at >= until
  {
  }

  lemma {:induction false} ClockRises(log: seq<Entry>, i: nat, n: nat)
    requires Follows(log) && i < n <= |log|
    ensures log[i].at <= ClockAt(log, n)
  {
    if i < n - 1 {
      ClockRises(log, i, n - 1);
      assert Linked(log, n - 1);
    }
  }

  lemma {:induction false} StaysShut(log: seq<Entry>, i: nat, n: nat)
    requires Follows(log) && i < n <= |log| && Opens(log[i])
    ensures Shut(SlotAt(log, n), ClockAt(log, n), log[i].at + COOLDOWN)
  {
    var e := log[n - 1];
    assert Linked(log, n - 1);
    if i == n - 1 {
      OpensUntil(e.before, e.at, e.input);
    } else {
      StaysShut(log, i, n - 1);
      ClockRises(log, i, n - 1);
      ShutStays(e.before, ClockAt(log, n - 1), log[i].at + COOLDOWN, e.at, e.input);
    }
  }

  /** Nothing is started within five minutes of the circuit opening. */
  lemma CooldownHolds(log: seq<Entry>, i: nat, j: nat)
    requires Follows(log) && i < j < |log| && Opens(log[i]) && Allows(log[j])
    ensures log[j].at >= log[i].at + 300_000_000_000
  {
    var e := log[j];
    assert Linked(log, j);
    StaysShut(log, i, j);
    ClockRises(log, i, j);
    ShutStays(e.before, ClockAt(log, j), log[i].at + COOLDOWN, e.at, e.input);
  }

  // --------------------------------------------------------------- half-open probes

  /** The entry is the probe that an elapsed cooldown allows. */
  predicate Probes(e: Entry) {
    e.before.openUntil.Some? && Allows(e)
  }

  /** A probe went out at `probe`; no crash since. `failed` says whether a spawn has been marked failed. */
  predicate Watched(s: Slot, clock: Time, probe: Time, failed: bool) {
    && clock >= probe
    && (failed ==> Shut(s, clock, probe + COOLDOWN))
    && (!failed ==> s == Slot(Seeded(probe), None))
  }

  ghost predicate FailedBetween(log: seq<Entry>, i: nat, n: nat)
    requires n <= |log|
  {
    exists k :: i < k < n && log[k].input.SpawnFailed?
  }

  lemma WatchedStep(s: Slot, clock: Time, probe: Time, failed: bool, at: Time, input: Input)
    requires Watched(s, clock, probe, failed) && clock <= at && !input.Crash?
    ensures Watched(Enter(s, at, input).after, at, probe, failed || input.SpawnFailed?)
  {
  }

  lemma ProbeSeeds(s: Slot, at: Time, input: Input)
    requires Probes(Enter(s, at, input))
    ensures Enter(s, at, input).after == Slot(Seeded(at), None)
  {
  }

  lemma {:induction false} WatchedSince(log: seq<Entry>, i: nat, n: nat)
    requires Follows(log) && i < n <= |log| && Probes(log[i])
    requires forall k :: i < k < n ==> !log[k].input.Crash?
    ensures Watched(SlotAt(log, n), ClockAt(log, n), log[i].at, FailedBetween(log, i, n))
  {
    var e := log[n - 1];
    assert Linked(log, n - 1);
    if i == n - 1 {
      ProbeSeeds(e.before, e.at, e.input);
    } else {
      WatchedSince(log, i, n - 1);
      var failed := FailedBetween(log, i, n - 1);
      WatchedStep(e.before, ClockAt(log, n - 1), log[i].at, failed, e.at, e.input);
      assert FailedBetween(log, i, n) == (failed || e.input.SpawnFailed?);
    }
  }

  lemma SeededRecent(probe: Time, now: Time)
    requires probe <= now
    ensures |Recent(Seeded(probe) + [now], now)| == if now - probe < WINDOW then 3 else 1
  {
    assert Seeded(probe) == [probe, probe];
    RecentLast([probe, probe], now);
    assert [probe, probe][..1] == [probe];
    assert [probe][..0] == [];
  }

  lemma ProbeThenCrash(s: Slot, clock: Time, probe: Time, at: Time, jitter: Jitter)
    requires Watched(s, clock, probe, false) && clock <= at
    ensures var (after, verdict) := Crashed(s, at, jitter);
      && (at - probe < WINDOW ==> verdict == CircuitOpen && after.openUntil == Some(at + COOLDOWN))
      && (at - probe >= WINDOW ==> verdict.Respawn? && after.openUntil.None?)
  {
    SeededRecent(probe, at);
  }

  /** Until a failed spawn's cooldown elapses a crash finds the circuit open. */
  lemma ShutThenCrash(s: Slot, clock: Time, until: Time, at: Time, jitter: Jitter)
    requires Shut(s, clock, until) && clock <= at < until
    ensures var (after, verdict) := Crashed(s, at, jitter);
      verdict == CircuitOpen && after == s && s.openUntil.Some?
  {
  }

  /**
   * The first crash after a probe re-opens the circuit exactly when it comes within a
   * minute of it; a spawn marked as failed in between keeps the circuit open for longer.
   */
  lemma FirstCrashAfterProbe(log: seq<Entry>, i: nat, j: nat)
    requires Follows(log) && i < j < |log| && Probes(log[i]) && log[j].input.Crash?
    requires forall k :: i < k < j ==> !log[k].input.Crash?
    ensures log[j].answer.Verdict?
    ensures log[j].at < log[i].at + WINDOW ==>
      log[j].answer.verdict.CircuitOpen? && log[j].after.openUntil.Some?
    ensures log[j].at >= log[i].at + WINDOW && !FailedBetween(log, i, j) ==> log[j].answer.verdict.Respawn?
  {
    var e, probe := log[j], log[i].at;
    assert Linked(log, j);
    WatchedSince(log, i, j);
    if FailedBetween(log, i, j) {
      if e.at < probe + WINDOW {
        ShutThenCrash(e.before, ClockAt(log, j), probe + COOLDOWN, e.at, e.input.jitter);
      }
    } else {
      ProbeThenCrash(e.before, ClockAt(log, j), probe, e.at, e.input.jitter);
    }
  }

  /** No crash, no failure and no probe since a spawn was marked failed: the circuit is as that left it. */
  lemma {:induction false} OpenSince(log: seq<Entry>, i: nat, n: nat)
    requires Follows(log) && i < n <= |log| && log[i].input.SpawnFailed?
    requires forall k :: i < k < n ==> log[k].input.Refill? && !Allows(log[k])
    ensures SlotAt(log, n).openUntil == Some(log[i].at + COOLDOWN)
  {
    assert Linked(log, n - 1);
    if i < n - 1 {
      OpenSince(log, i, n - 1);
    }
  }

  /**
   * After a failed spawn, with no probe let through since, the first crash finds the
   * circuit open until five minutes have passed and is itself the probe from then on. The
   * harness never asks in this order: a slot whose circuit is open has no agent to crash.
   */
  lemma FirstCrashAfterFailure(log: seq<Entry>, i: nat, j: nat)
    requires Follows(log) && i < j < |log| && log[i].input.SpawnFailed? && log[j].input.Crash?
    requires forall k :: i < k < j ==> log[k].input.Refill? && !Allows(log[k])
    ensures log[j].answer == Verdict(if log[j].at < log[i].at + COOLDOWN then CircuitOpen else HalfOpenProbe)
  {
    assert Linked(log, j);
    OpenSince(log, i, j);
  }

  // ------------------------------------------------------------- the rate of respawns

  predicate RespawnedAt(e: Entry) {
    e.answer.Verdict? && e.answer.verdict.Respawn?
  }

  /** The times of the Respawn verdicts among the first `n` entries, oldest first. */
  function Respawns(log: seq<Entry>, n: nat): seq<Time>
    requires n <= |log|
  {
    if n == 0 then []
    else Respawns(log, n - 1) + (if RespawnedAt(log[n - 1]) then [log[n - 1].at] else [])
  }

  /** `t` is still the crash time `back` places from the end, or no longer matters. */
  predicate Remembered(s: Slot, clock: Time, t: Time, back: nat) {
    && t <= clock
    && (s.openUntil.Some? ==> s.openUntil.value >= t + WINDOW)
    && (clock < t + WINDOW && s.openUntil.None? ==>
          |s.crashTimes| > back && s.crashTimes[|s.crashTimes| - 1 - back] == t)
  }

  predicate RateOk(rs: seq<Time>, s: Slot, clock: Time) {
    && (|rs| >= 1 ==> Remembered(s, clock, rs[|rs| - 1], 0))
    && (|rs| >= 2 ==> Remembered(s, clock, rs[|rs| - 2], 1) && rs[|rs| - 2] <= rs[|rs| - 1])
  }

  ghost predicate Rated(rs: seq<Time>) {
    && (forall i :: 0 <= i < |rs| - 1 ==> rs[i] <= rs[i + 1])
    && (forall i, j :: 0 <= i && j == i + 2 && j < |rs| ==> rs[i] + WINDOW <= rs[j])
  }

  /** The youngest crash times survive the pruning while they are in the window. */
  lemma RecentKeepsLast(times: seq<Time>, now: Time)
    requires |times| >= 1 && now - times[|times| - 1] < WINDOW
    ensures var r := Recent(times, now); |r| >= 1 && r[|r| - 1] == times[|times| - 1]
    ensures |times| >= 2 && now - times[|times| - 2] < WINDOW ==>
      var r := Recent(times, now); |r| >= 2 && r[|r| - 2] == times[|times| - 2]
  {
    if |times| >= 2 {
      assert times[..|times| - 1][|times| - 2] == times[|times| - 2];
    }
  }

  lemma ClosedCrash(s: Slot, at: Time, jitter: Jitter)
    requires s.openUntil.None?
    ensures var (after, verdict) := Crashed(s, at, jitter);
      && after.crashTimes == Recent(s.crashTimes, at) + [at]
      && (verdict.Respawn? <==> |Recent(s.crashTimes, at)| <= 1)
      && after.openUntil == if verdict.Respawn? then None else Some(at + COOLDOWN)
  {
    RecentLast(s.crashTimes, at);
  }

  /** The last Respawn before this crash moves one place back. */
  lemma Ages(s: Slot, clock: Time, t: Time, at: Time, jitter: Jitter)
    requires Remembered(s, clock, t, 0) && s.openUntil.None? && clock <= at
    ensures Remembered(Crashed(s, at, jitter).0, at, t, 1)
  {
    ClosedCrash(s, at, jitter);
    if at < t + WINDOW {
      RecentKeepsLast(s.crashTimes, at);
    }
  }

  lemma Third(s: Slot, clock: Time, t1: Time, t2: Time, at: Time, jitter: Jitter)
    requires Remembered(s, clock, t1, 1) && Remembered(s, clock, t2, 0) && t1 <= t2
    requires s.openUntil.None? && clock <= at && Crashed(s, at, jitter).1.Respawn?
    ensures t1 + WINDOW <= at
  {
    ClosedCrash(s, at, jitter);
    if at < t1 + WINDOW {
      RecentKeepsLast(s.crashTimes, at);
    }
  }

  lemma RespawnKeepsRate(rs: seq<Time>, s: Slot, clock: Time, at: Time, jitter: Jitter)
    requires RateOk(rs, s, clock) && clock <= at && s.openUntil.None?
    ensures var (after, verdict) := Crashed(s, at, jitter);
      && (verdict.Respawn? ==> RateOk(rs + [at], after, at) && (|rs| >= 2 ==> rs[|rs| - 2] + WINDOW <= at))
      && (!verdict.Respawn? ==> RateOk(rs, after, at))
  {
    ClosedCrash(s, at, jitter);
    if Crashed(s, at, jitter).1.Respawn? {
      if |rs| >= 1 {
        Ages(s, clock, rs[|rs| - 1], at, jitter);
      }
      if |rs| >= 2 {
        Third(s, clock, rs[|rs| - 2], rs[|rs| - 1], at, jitter);
      }
    }
  }

  lemma OtherKeepsRate(rs: seq<Time>, s: Slot, clock: Time, at: Time, input: Input)
    requires RateOk(rs, s, clock) && clock <= at && (input.Crash? ==> s.openUntil.Some?)
    ensures var e := Enter(s, at, input);
      RateOk(rs, e.after, at) && !(e.answer.Verdict? && e.answer.verdict.Respawn?)
  {
  }

  lemma RatedSnoc(rs: seq<Time>, at: Time)
    requires Rated(rs)
    requires |rs| >= 1 ==> rs[|rs| - 1] <= at
    requires |rs| >= 2 ==> rs[|rs| - 2] + WINDOW <= at
    ensures Rated(rs + [at])
  {
  }

  lemma RateStep(rs: seq<Time>, s: Slot, clock: Time, at: Time, input: Input)
    requires Rated(rs) && RateOk(rs, s, clock) && clock <= at
    ensures var e := Enter(s, at, input);
      var rs' := if RespawnedAt(e) then rs + [at] else rs;
      Rated(rs') && RateOk(rs', e.after, at) && e.at == at
  {
    if input.Crash? && s.openUntil.None? {
      RespawnKeepsRate(rs, s, clock, at, input.jitter);
      if Crashed(s, at, input.jitter).1.Respawn? {
        RatedSnoc(rs, at);
      }
    } else {
      OtherKeepsRate(rs, s, clock, at, input);
    }
  }

  /** Any three Respawn verdicts of a slot span at least a minute. */
  lemma {:induction false} AtMostTwoRespawnsPerMinute(log: seq<Entry>, n: nat)
    requires Follows(log) && n <= |log|
    ensures Rated(Respawns(log, n)) && RateOk(Respawns(log, n), SlotAt(log, n), ClockAt(log, n))
  {
    if n > 0 {
      AtMostTwoRespawnsPerMinute(log, n - 1);
      RateAt(log, n);
    }
  }

  lemma RateAt(log: seq<Entry>, n: nat)
    requires Follows(log) && 0 < n <= |log|
    requires Rated(Respawns(log, n - 1)) && RateOk(Respawns(log, n - 1), SlotAt(log, n - 1), ClockAt(log, n - 1))
    ensures Rated(Respawns(log, n)) && RateOk(Respawns(log, n), SlotAt(log, n), ClockAt(log, n))
  {
    var e := log[n - 1];
    assert Linked(log, n - 1);
    RateStep(Respawns(log, n - 1), e.before, ClockAt(log, n - 1), e.at, e.input);
    RespawnsNext(log, n);
  }

  lemma RespawnsNext(log: seq<Entry>, n: nat)
    requires 0 < n <= |log|
    ensures Respawns(log, n) ==
      if RespawnedAt(log[n - 1]) then Respawns(log, n - 1) + [log[n - 1].at] else Respawns(log, n - 1)
  {
  }

  // -------------------------------------------------------------------- the component

  class SlotCircuit {
    var crashTimes: seq<Time>
    var openUntil: Option<Time>

    ghost function Model(): Slot reads this { Slot(crashTimes, openUntil) }

    constructor ()
      ensures Model() == FRESH
    {
      crashTimes, openUntil := [], None;
    }

    method SeedProbe(now: Time)
      modifies this
      ensures Model() == Slot(Seeded(now), None)
    {
      crashTimes := [];
      for i := 0 to THRESHOLD - 1
        invariant crashTimes == seq(i, k => now)
      {
        crashTimes := crashTimes + [now];
      }
      openUntil := None;
    }

    method Prune(now: Time)
      modifies this
      ensures crashTimes == Recent(old(crashTimes), now) && openUntil == old(openUntil)
    {
      var kept: seq<Time> := [];
      var i := 0;
      while i < |crashTimes|
        invariant 0 <= i <= |crashTimes|
        invariant crashTimes == old(crashTimes) && openUntil == old(openUntil)
        invariant kept == Recent(crashTimes[..i], now)
      {
        assert crashTimes[..i + 1][..i] == crashTimes[..i];
        if now - crashTimes[i] < WINDOW {
          kept := kept + [crashTimes[i]];
        }
        i := i + 1;
      }
      assert crashTimes[..i] == crashTimes;
      crashTimes := kept;
    }

    method RecordCrash(now: Time, jitter: Jitter) returns (verdict: Verdict)
      modifies this
      ensures (Model(), verdict) == Crashed(old(Model()), now, jitter)
    {
      if openUntil.Some? {
        if now >= openUntil.value {
          SeedProbe(now);
          return HalfOpenProbe;
        }
        return CircuitOpen;
      }
      RecentLast(crashTimes, now);
      crashTimes := crashTimes + [now];
      Prune(now);
      var recent := |crashTimes|;
      if recent >= THRESHOLD {
        openUntil := Some(now + COOLDOWN);
        return CircuitOpen;
      }
      verdict := Respawn(Backoff(recent), Spread(jitter));
    }

    method MarkSpawnFailed(now: Time)
      modifies this
      ensures Model() == FailedSpawn(old(Model()), now)
    {
      openUntil := Some(now + COOLDOWN);
    }

    method CanRefill(now: Time) returns (ok: bool)
      modifies this
      ensures (Model(), ok) == Probed(old(Model()), now)
    {
      if openUntil.None? {
        return true;
      }
      ok := now >= openUntil.value;
      if ok {
        SeedProbe(now);
      }
    }
  }
}
