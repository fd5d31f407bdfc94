/** Every answer of a circuit, told by the entries before it: what opens it, and when it lets something through again. */
module CircuitAnswers {
  import opened Prelude
  import opened Circuit

  /** When the circuit was opened, if nothing was let through since. */
  function OpenedSince(log: seq<Entry>, n: nat): Option<Time>
    requires n <= |log|
  {
    if n == 0 then None
    else
      var e, before := log[n - 1], OpenedSince(log, n - 1);
      match e.answer
      case Marked => Some(e.at)
      case Verdict(CircuitOpen) => if before.None? then Some(e.at) else before
      case Verdict(_) => None
      case Refilled(ok) => if ok then None else before
  }

  /** The cooldown of the latest opening has passed, or there is none. */
  predicate LetsThrough(log: seq<Entry>, n: nat, now: Time)
    requires n <= |log|
  {
    OpenedSince(log, n).None? || OpenedSince(log, n).value + 300_000_000_000 <= now
  }

  predicate StandsOpen(s: Slot, since: Option<Time>) {
    s.openUntil == if since.Some? then Some(since.value + COOLDOWN) else None
  }

  lemma EntryOpens(s: Slot, since: Option<Time>, at: Time, input: Input)
    requires StandsOpen(s, since)
    ensures var e := Enter(s, at, input);
      StandsOpen(e.after, match e.answer
        case Marked => Some(at)
        case Verdict(CircuitOpen) => if since.None? then Some(at) else since
        case Verdict(_) => None
        case Refilled(ok) => if ok then None else since)
  {
    if input.Crash? && since.None? {
      ClosedCrash(s, at, input.jitter);
    }
  }

  lemma {:induction false} OpenAt(log: seq<Entry>, n: nat)
    requires Follows(log) && n <= |log|
    ensures StandsOpen(SlotAt(log, n), OpenedSince(log, n))
  {
    if n > 0 {
      OpenAt(log, n - 1);
      assert Linked(log, n - 1);
      EntryOpens(SlotAt(log, n - 1), OpenedSince(log, n - 1), log[n - 1].at, log[n - 1].input);
    }
  }

  /**
   * In every history a refill is allowed if and only if the circuit was not opened since
   * something was last let through, or the latest opening is at least five minutes old.
   */
  lemma {:induction false} RefillIff(log: seq<Entry>, k: nat)
    requires Follows(log) && k < |log| && log[k].input.Refill?
    ensures log[k].answer == Refilled(LetsThrough(log, k, log[k].at))
  {
    assert Linked(log, k);
    OpenAt(log, k);
  }

  // -------------------------------------------------------------- what opens it

  /** The crashes that count: those that found the circuit closed, and two for a probe, which starts afresh. */
  function Counted(log: seq<Entry>, n: nat): seq<Time>
    requires n <= |log|
  {
    if n == 0 then []
    else
      var e, before, since := log[n - 1], Counted(log, n - 1), OpenedSince(log, n - 1);
      if since.Some? then (if Allows(e) then [e.at, e.at] else before)
      else if e.input.Crash? then before + [e.at] else before
  }

  /** How many of the times are less than a minute old. */
  function Within(times: seq<Time>, now: Time): nat {
    if times == [] then 0
    else Within(times[..|times| - 1], now) + if now - times[|times| - 1] < 60_000_000_000 then 1 else 0
  }

  lemma {:induction false} RecentCounts(times: seq<Time>, now: Time)
    ensures |Recent(times, now)| == Within(times, now)
    decreases times
  {
    if times != [] {
      RecentCounts(times[..|times| - 1], now);
    }
  }

  lemma RecentSnoc(times: seq<Time>, last: Time, now: Time)
    ensures Recent(times + [last], now) == Recent(times, now) + (if now - last < WINDOW then [last] else [])
  {
    assert (times + [last])[..|times|] == times;
  }

  /** What was too old stays too old. */
  lemma {:induction false} RecentLater(times: seq<Time>, at: Time, now: Time)
    requires at <= now
    ensures Recent(Recent(times, at), now) == Recent(times, now)
    decreases times
  {
    if times != [] {
      var n := |times| - 1;
      RecentLater(times[..n], at, now);
      if at - times[n] < WINDOW {
        RecentSnoc(Recent(times[..n], at), times[n], now);
      } else {
        assert Recent(times[..n], at) + [] == Recent(times[..n], at);
      }
    }
  }

  /** The times kept decide for ever as all that count would. */
  ghost predicate Keeps(s: Slot, counted: seq<Time>, clock: Time) {
    forall now: Time :: clock <= now ==> Recent(s.crashTimes, now) == Recent(counted, now)
  }

  lemma CrashKeeps(s: Slot, counted: seq<Time>, clock: Time, at: Time, jitter: Jitter)
    requires s.openUntil.None? && Keeps(s, counted, clock) && clock <= at
    ensures Keeps(Crashed(s, at, jitter).0, counted + [at], at)
  {
    ClosedCrash(s, at, jitter);
    forall now: Time | at <= now ensures Recent(Crashed(s, at, jitter).0.crashTimes, now) == Recent(counted + [at], now) {
      RecentSnoc(Recent(s.crashTimes, at), at, now);
      RecentLater(s.crashTimes, at, now);
      RecentSnoc(counted, at, now);
    }
  }

  lemma EntryKeeps(s: Slot, counted: seq<Time>, clock: Time, at: Time, input: Input)
    requires Keeps(s, counted, clock) && clock <= at
    ensures var e := Enter(s, at, input);
      Keeps(e.after,
            if s.openUntil.Some? then (if Allows(e) then [at, at] else counted)
            else if input.Crash? then counted + [at] else counted, at)
  {
    if input.Crash? && s.openUntil.None? {
      CrashKeeps(s, counted, clock, at, input.jitter);
    } else if s.openUntil.Some? && Allows(Enter(s, at, input)) {
      assert Seeded(at) == [at, at];
    }
  }

  lemma {:induction false} CountedKept(log: seq<Entry>, n: nat)
    requires Follows(log) && n <= |log|
    ensures Keeps(SlotAt(log, n), Counted(log, n), ClockAt(log, n))
  {
    if n > 0 {
      CountedKept(log, n - 1);
      OpenAt(log, n - 1);
      assert Linked(log, n - 1);
      EntryKeeps(SlotAt(log, n - 1), Counted(log, n - 1), ClockAt(log, n - 1), log[n - 1].at, log[n - 1].input);
    }
  }

  /**
   * In every history a crash that finds the circuit closed opens it if and only if at
   * least two that count were less than a minute before it; otherwise it is answered with
   * a respawn. One that finds it open is the probe once the cooldown has passed.
   */
  lemma {:induction false} CrashIff(log: seq<Entry>, k: nat)
    requires Follows(log) && k < |log| && log[k].input.Crash?
    ensures log[k].answer.Verdict?
    ensures var v := log[k].answer.verdict;
      if OpenedSince(log, k).None?
      then (v.CircuitOpen? <==> Within(Counted(log, k), log[k].at) >= 2) && (v.CircuitOpen? || v.Respawn?)
      else v == if LetsThrough(log, k, log[k].at) then HalfOpenProbe else CircuitOpen
  {
    assert Linked(log, k);
    OpenAt(log, k);
    CountedKept(log, k);
    var s, e := SlotAt(log, k), log[k];
    if OpenedSince(log, k).None? {
      ClosedCrash(s, e.at, e.input.jitter);
      RecentCounts(Counted(log, k), e.at);
      assert Recent(s.crashTimes, e.at) == Recent(Counted(log, k), e.at);
    }
  }

  lemma {:induction false} OpenedPrefix(log: seq<Entry>, e: Entry, n: nat)
    requires n <= |log|
    ensures OpenedSince(log + [e], n) == OpenedSince(log, n)
  {
    if n > 0 {
      OpenedPrefix(log, e, n - 1);
    }
  }
}
