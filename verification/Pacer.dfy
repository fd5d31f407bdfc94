/**
 * The rolling-window pacer of the observer publisher. Times are in nanoseconds.
 */
module Pacer {
  import opened Prelude

  const INTERVAL := 167_000_000
  const LIMIT := 90
  const MINUTE := 60_000_000_000

  type Time = nat

  /** A monotonic clock; its successive readings advance by what the script says. */
  class Clock {
    var now: Time
    var script: seq<nat>

    constructor (start: Time, script: seq<nat>)
      ensures now == start && this.script == script
    {
      now, this.script := start, script;
    }

    method Read() returns (t: Time)
      modifies this
      ensures t == now && now >= old(now)
      ensures old(script) == [] ==> now == old(now) && script == []
    {
      if script != [] {
        now, script := now + script[0], script[1..];
      }
      t := now;
    }

    method SleepUntil(at: Time)
      modifies this
      ensures now >= at && now >= old(now)
      ensures old(script) == [] ==> now == Max(at, old(now)) && script == []
    {
      if now < at {
        now := at;
      }
      if script != [] {
        now, script := now + script[0], script[1..];
      }
    }
  }

  // -------------------------------------------------- what the history allows

  /** The earliest time a frame may follow `history`, for a pacer that started at `start`. */
  function Earliest(start: Time, history: seq<Time>): Time {
    var gap := (if history == [] then start else history[|history| - 1]) + INTERVAL;
    if |history| < LIMIT then gap else Max(gap, history[|history| - LIMIT] + MINUTE)
  }

  /** Consecutive publications are an interval apart, and any 91 of them span a minute. */
  ghost predicate Paced(history: seq<Time>) {
    && (forall i :: 0 <= i < |history| - 1 ==> history[i] + INTERVAL <= history[i + 1])
    && (forall i, j :: 0 <= i && j == i + LIMIT && j < |history| ==> history[i] + MINUTE <= history[j])
  }

  /** The earliest time is exactly the bound the two limits set: no later wait is needed, no earlier one allowed. */
  lemma PacedStep(start: Time, history: seq<Time>, at: Time)
    requires Paced(history)
    ensures at >= Earliest(start, history) ==> Paced(history + [at])
    ensures history != [] && Paced(history + [at]) ==> at >= Earliest(start, history)
    ensures at >= Earliest(start, history) <==>
      && (if history == [] then start else history[|history| - 1]) + 167_000_000 <= at
      && (|history| >= 90 ==> history[|history| - 90] + 60_000_000_000 <= at)
  {
    var longer := history + [at];
    if history != [] && Paced(longer) {
      assert longer[|history| - 1] + INTERVAL <= longer[|history|];
      if |history| >= LIMIT {
        assert longer[|history| - LIMIT] + MINUTE <= longer[|history|];
      }
    }
  }

  lemma {:induction false} Spacing(history: seq<Time>, i: nat, j: nat)
    requires Paced(history) && i <= j < |history|
    ensures history[i] + (j - i) * INTERVAL <= history[j]
    decreases j
  {
    if i < j {
      Spacing(history, i, j - 1);
    }
  }

  lemma Window(history: seq<Time>, i: nat, j: nat)
    requires Paced(history) && i + LIMIT <= j < |history|
    ensures history[i] + MINUTE <= history[j]
  {
    Spacing(history, i + LIMIT, j);
  }

  /** No half-open minute holds more than ninety publications. */
  lemma AtMostNinetyPerMinute(history: seq<Time>, from: Time, i: nat, j: nat)
    requires Paced(history) && i <= j < |history|
    requires from <= history[i] && history[j] < from + 60_000_000_000
    ensures j - i + 1 <= 90
  {
    if i + LIMIT <= j {
      Window(history, i, j);
    }
  }

  /** What is left of the history once publications at least a minute old are dropped. */
  ghost predicate Recent(history: seq<Time>, published: seq<Time>, now: Time) {
    && |published| <= LIMIT && |published| <= |history|
    && published == history[|history| - |published|..]
    && forall i :: 0 <= i < |history| - |published| ==> history[i] + MINUTE <= now
  }

  lemma RecentLater(history: seq<Time>, published: seq<Time>, now: Time, later: Time)
    requires Recent(history, published, now) && now <= later
    ensures Recent(history, published, later)
  {
  }

  /** The deque of the last minute decides as the whole history would. */
  lemma DequeSuffices(start: Time, history: seq<Time>, published: seq<Time>, now: Time)
    requires Recent(history, published, now)
    ensures var next := (if history == [] then start else history[|history| - 1]) + INTERVAL;
      var at := if |published| >= LIMIT then Max(published[0] + MINUTE, next) else next;
      && (at > now <==> Earliest(start, history) > now)
      && (at > now ==> at == Earliest(start, history))
  {
    if |published| >= LIMIT {
      assert published[0] == history[|history| - LIMIT];
    }
  }

  // ------------------------------------------------------------------- the pacer

  class ObserverPublishPacer {
    var nextPublish: Time
    var published: seq<Time>
    ghost const start: Time
    ghost var history: seq<Time>

    /**
     * The deque holds the most recent publications, and every one it has dropped is at
     * least a minute older than the latest.
     */
    ghost predicate Valid()
      reads this
    {
      && Paced(history)
      && nextPublish == (if history == [] then start else history[|history| - 1]) + INTERVAL
      && Recent(history, published, if history == [] then start else history[|history| - 1])
    }

    constructor (clock: Clock)
      ensures Valid() && history == [] && start == clock.now
    {
      nextPublish := clock.now + INTERVAL;
      published := [];
      start := clock.now;
      history := [];
    }

    method Record(publishedAt: Time)
      requires Paced(history) && Recent(history, published, publishedAt) && |published| < LIMIT
      requires publishedAt >= Earliest(start, history)
      modifies this
      ensures Valid() && history == old(history) + [publishedAt]
    {
      PacedStep(start, history, publishedAt);
      published := published + [publishedAt];
      nextPublish := publishedAt + INTERVAL;
      history := history + [publishedAt];
    }

    method DropOld(now: Time)
      requires Recent(history, published, now)
      modifies this`published
      ensures Recent(history, published, now)
      ensures published != [] ==> published[0] + MINUTE > now
    {
      while published != [] && published[0] + MINUTE <= now
        invariant Recent(history, published, now)
        decreases |published|
      {
        published := published[1..];
      }
    }

    /** When the next frame may go out: the interval's slot, or the minute's when the deque is full. */
    method PublishAt(now: Time) returns (at: Time)
      requires Recent(history, published, now)
      requires nextPublish == (if history == [] then start else history[|history| - 1]) + INTERVAL
      ensures at > now <==> Earliest(start, history) > now
      ensures at > now ==> at == Earliest(start, history)
      ensures published != [] && published[0] + MINUTE > now && at <= now ==> |published| < LIMIT
    {
      at := nextPublish;
      if |published| >= LIMIT {
        at := Max(published[0] + MINUTE, nextPublish);
      }
      DequeSuffices(start, history, published, now);
    }

    method Publish(clock: Clock)
      requires Paced(history) && Recent(history, published, clock.now) && |published| < LIMIT
      requires Earliest(start, history) <= clock.now
      modifies this, clock
      ensures Valid() && history == old(history) + [clock.now] && clock.now >= old(clock.now)
      ensures old(clock.script) == [] ==> clock.now == old(clock.now)
    {
      ghost var before := clock.now;
      var publishedAt := clock.Read();
      RecentLater(history, published, before, publishedAt);
      Record(publishedAt);
    }

    /** Reads the clock, drops what is a minute old and looks when the next frame may go out. */
    method NextSlot(clock: Clock) returns (now: Time, at: Time)
      requires Recent(history, published, clock.now)
      requires nextPublish == (if history == [] then start else history[|history| - 1]) + INTERVAL
      modifies this`published, clock
      ensures now == clock.now >= old(clock.now) && Recent(history, published, now)
      ensures old(clock.script) == [] ==> now == old(clock.now) && clock.script == []
      ensures at > now <==> Earliest(start, history) > now
      ensures at > now ==> at == Earliest(start, history)
      ensures at <= now ==> |published| < LIMIT
    {
      ghost var before := clock.now;
      now := clock.Read();
      RecentLater(history, published, before, now);
      DropOld(now);
      at := PublishAt(now);
    }

    /**
     * Waits for the next slot. The publication takes place as soon as the history
     * allows and not before; the pacer sleeps at most once, and only when it has to.
     * With a clock that does not advance by itself, that pins the time down.
     */
    method Wait(clock: Clock) returns (sleeps: nat)
      requires Valid() && start <= clock.now && (history != [] ==> history[|history| - 1] <= clock.now)
      modifies this, clock
      ensures Valid() && |history| == |old(history)| + 1 && history[..|old(history)|] == old(history)
      ensures old(clock.now) <= history[|history| - 1] <= clock.now
      ensures history[|history| - 1] >= Earliest(start, old(history))
      ensures sleeps <= 1
      ensures old(clock.script) == [] ==>
        && history[|history| - 1] == Max(old(clock.now), Earliest(start, old(history)))
        && (sleeps == 1 <==> Earliest(start, old(history)) > old(clock.now))
    {
      sleeps := 0;
      ghost var earliest, began, still := Earliest(start, history), clock.now, clock.script == [];
      while true
        invariant 0 <= sleeps <= 1
        invariant history == old(history) && nextPublish == old(nextPublish)
        invariant Recent(history, published, clock.now)
        invariant began <= clock.now && (still ==> clock.script == [])
        invariant sleeps == 0 && still ==> clock.now == began
        invariant sleeps == 1 ==> clock.now >= earliest
        invariant sleeps == 1 && still ==> clock.now == earliest > began
        decreases 1 - sleeps
      {
        var now, publishAt := NextSlot(clock);
        if publishAt > now {
          clock.SleepUntil(publishAt);
          RecentLater(history, published, now, clock.now);
          sleeps := sleeps + 1;
          continue;
        }
        Publish(clock);
        return;
      }
    }
  }
}
