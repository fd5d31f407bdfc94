/** What the queue keeps, in which order, and exactly what each input drops or dispatches. */
module SteerLosses {
  import opened Prelude
  import opened SteerTurn
  import opened SteerQueue
  import opened SteerSystem

  // ------------------------------------------------------------------ pushing

  function PushAll(l: Lane, ids: seq<EventId>): Lane {
    if ids == [] then l else Push(PushAll(l, ids[..|ids| - 1]), ids[|ids| - 1])
  }

  lemma LastOfSnoc(s: seq<EventId>, x: EventId, n: nat)
    requires n > 0
    ensures LastOf(LastOf(s, n) + [x], n) == LastOf(s + [x], n)
  {
  }

  lemma PushIs(l: Lane, id: EventId)
    requires |l.queue| <= MAX_PENDING_PER_CHANNEL
    ensures Push(l, id) == Lane(LastOf(l.queue + [id], MAX_PENDING_PER_CHANNEL), l.withheld)
  {
  }

  /** Events pushed one after another wait in that order behind those already there; at the cap the oldest have gone. */
  lemma {:induction false} PushesKeepNewest(l: Lane, ids: seq<EventId>)
    requires |l.queue| <= MAX_PENDING_PER_CHANNEL
    ensures PushAll(l, ids) == Lane(LastOf(l.queue + ids, 500), l.withheld)
    decreases ids
  {
    if ids == [] {
      assert l.queue + ids == l.queue;
    } else {
      var n := |ids| - 1;
      PushesKeepNewest(l, ids[..n]);
      PushIs(PushAll(l, ids[..n]), ids[n]);
      LastOfSnoc(l.queue + ids[..n], ids[n], MAX_PENDING_PER_CHANNEL);
      assert l.queue + ids[..n] + [ids[n]] == l.queue + ids;
    }
  }

  /** A released event is first in line, and those before it in the queue follow in their order. */
  lemma ReleasedIsFirst(l: Lane, id: EventId)
    requires id in l.withheld
    ensures var q := Release(l, id).queue; q != [] && q[0] == id && q[1..] <= l.queue
  {
  }

  /** Withholding takes the event's first occurrence out and leaves the others in their order. */
  lemma WithheldFrom(a: seq<EventId>, id: EventId, b: seq<EventId>, withheld: seq<EventId>)
    requires id !in a
    ensures MarkPending(Lane(a + [id] + b, withheld), id) == Lane(a + b, withheld + [id])
  {
    var q := a + [id] + b;
    PositionAfter(a, id, b);
    assert Without(q, |a|) == a + b;
  }

  lemma {:induction false} PositionWithin(s: seq<EventId>, id: EventId, k: nat)
    requires k < |s| && s[k] == id
    ensures Position(s, id) <= k
    decreases s
  {
    if s[0] != id {
      PositionWithin(s[1..], id, k - 1);
    }
  }

  lemma PositionAfter(a: seq<EventId>, id: EventId, b: seq<EventId>)
    requires id !in a
    ensures Position(a + [id] + b, id) == |a|
  {
    var q := a + [id] + b;
    assert q[|a|] == id && q[..|a|] == a;
    PositionWithin(q, id, |a|);
    assert forall j :: 0 <= j < |a| ==> q[j] == a[j];
  }

  /** A release likewise, from the side table to the front of the queue. */
  lemma ReleasedFrom(a: seq<EventId>, id: EventId, b: seq<EventId>, queue: seq<EventId>)
    requires id !in a && |queue| < MAX_PENDING_PER_CHANNEL
    ensures Release(Lane(queue, a + [id] + b), id) == Lane([id] + queue, a + b)
  {
    PositionAfter(a, id, b);
    assert Without(a + [id] + b, |a|) == a + b;
  }

  /** A removal keeps all others in their order. */
  lemma {:induction false} RetainedIs(a: seq<EventId>, id: EventId, b: seq<EventId>)
    requires id !in a
    ensures Retain(a + [id] + b, id) == a + Retain(b, id)
    decreases a
  {
    if a == [] {
      assert (a + [id] + b)[1..] == b;
    } else {
      assert (a + [id] + b)[1..] == a[1..] + [id] + b;
      RetainedIs(a[1..], id, b);
    }
  }

  lemma {:induction false} RetainedAll(s: seq<EventId>, id: EventId)
    requires id !in s
    ensures Retain(s, id) == s
    decreases s
  {
    if s != [] {
      RetainedAll(s[1..], id);
    }
  }

  // ------------------------------------------------------- the cap, in every run

  predicate Bounded(s: Sys) {
    |s.store.lane.queue| <= MAX_PENDING_PER_CHANNEL
  }

  lemma {:induction false} RetainShorter(s: seq<EventId>, id: EventId)
    ensures |Retain(s, id)| <= |s|
    decreases s
  {
    if s != [] {
      RetainShorter(s[1..], id);
    }
  }

  lemma LanesBounded(l: Lane, id: EventId)
    requires |l.queue| <= MAX_PENDING_PER_CHANNEL
    ensures |Push(l, id).queue| <= MAX_PENDING_PER_CHANNEL && |MarkPending(l, id).queue| <= MAX_PENDING_PER_CHANNEL
    ensures |Release(l, id).queue| <= MAX_PENDING_PER_CHANNEL && |RemoveEvent(l, id).queue| <= MAX_PENDING_PER_CHANNEL
    ensures |Flush(l).queue| <= MAX_PENDING_PER_CHANNEL && |Recover(l).queue| <= MAX_PENDING_PER_CHANNEL
  {
    RetainShorter(l.queue, id);
  }

  lemma AfterBounded(s: Sys, x: Input)
    requires Bounded(s)
    ensures Bounded(After(s, x))
  {
    if Bulk(x) {
      BulkIs(s, x);
      LanesBounded(s.store.lane, if x.Enqueue? then x.id else 0);
    } else if x.Post? {
      PostIs(s, x.id);
      LanesBounded(s.store.lane, x.id);
      LanesBounded(Push(s.store.lane, x.id), x.id);
    } else if x.Deliver? {
      DeliverIs(s, x.i);
      if x.i < |s.mailbox| {
        TakeMailStore(s, x.i);
        LanesBounded(s.store.lane, s.mailbox[x.i].req);
      }
    } else {
      TurnKeepsStore(s, x);
    }
  }

  lemma {:induction false} AlwaysBounded(s: Sys, inputs: seq<Input>)
    requires Initial(s)
    ensures Bounded(Trace(s, inputs))
    decreases inputs
  {
    if inputs != [] {
      AlwaysBounded(s, inputs[..|inputs| - 1]);
      AfterBounded(Trace(s, inputs[..|inputs| - 1]), inputs[|inputs| - 1]);
    }
  }

  // ------------------------------------------------------------- what is dropped

  /** What does not fit under the cap, the newest first to go. */
  function Beyond(all: seq<EventId>): seq<EventId> {
    if |all| > 500 then all[500..] else []
  }

  /** The events the input makes the queue drop. */
  function Dropped(s: Sys, x: Input): seq<EventId> {
    var q, w := s.store.lane.queue, s.store.lane.withheld;
    match x
    case Post(_) => if |q| == 500 then [q[0]] else []
    case Enqueue(_) => if |q| == 500 then [q[0]] else []
    case Deliver(i) =>
      if i < |s.mailbox| && !IsSuccess(s.mailbox[i].how) && s.mailbox[i].req in w
      then Beyond([s.mailbox[i].req] + q) else []
    case Expire => Beyond(w + q)
    case DrainChannel => q + w
    case _ => []
  }

  lemma SplitContents(s: seq<EventId>, i: nat)
    requires i <= |s|
    ensures multiset(s) == multiset(s[..i]) + multiset(s[i..])
  {
    assert s == s[..i] + s[i..];
  }

  lemma GoneIs(before: multiset<EventId>, after: Lane, gone: multiset<EventId>)
    requires before == gone + Contents(after)
    ensures Gone(before, after) == gone
  {
  }

  lemma FullPush(l: Lane, id: EventId)
    requires |l.queue| == MAX_PENDING_PER_CHANNEL
    ensures Contents(l) + multiset{id} == multiset{l.queue[0]} + Contents(Push(l, id))
  {
    SplitContents(l.queue, 1);
    assert l.queue[..1] == [l.queue[0]];
  }

  lemma PushDrops(l: Lane, id: EventId)
    requires |l.queue| <= MAX_PENDING_PER_CHANNEL
    ensures Gone(Contents(l) + multiset{id}, Push(l, id)) ==
      if |l.queue| == MAX_PENDING_PER_CHANNEL then multiset{l.queue[0]} else multiset{}
  {
    if |l.queue| == MAX_PENDING_PER_CHANNEL {
      FullPush(l, id);
      GoneIs(Contents(l) + multiset{id}, Push(l, id), multiset{l.queue[0]});
    } else {
      GoneIs(Contents(l) + multiset{id}, Push(l, id), multiset{});
    }
  }

  lemma CappedSplits(all: seq<EventId>)
    ensures multiset(all) == multiset(Capped(all)) + multiset(Beyond(all))
  {
    if |all| > MAX_PENDING_PER_CHANNEL {
      SplitContents(all, MAX_PENDING_PER_CHANNEL);
    }
  }

  lemma ReleaseSum(q: multiset<EventId>, w: multiset<EventId>, rest: multiset<EventId>,
                   kept: multiset<EventId>, beyond: multiset<EventId>, one: multiset<EventId>)
    requires one + q == kept + beyond && rest + one == w
    ensures q + w == beyond + (kept + rest)
  {
    forall x ensures (q + w)[x] == (beyond + (kept + rest))[x] {
      assert (one + q)[x] == (kept + beyond)[x] && (rest + one)[x] == w[x];
    }
  }

  lemma ReleaseDrops(l: Lane, id: EventId)
    ensures Gone(Contents(l), Release(l, id)) ==
      if id in l.withheld then multiset(Beyond([id] + l.queue)) else multiset{}
  {
    var i := Position(l.withheld, id);
    if i < |l.withheld| {
      var all := [id] + l.queue;
      WithoutContents(l.withheld, i);
      CappedSplits(all);
      ReleaseSum(multiset(l.queue), multiset(l.withheld), multiset(Without(l.withheld, i)),
                 multiset(Capped(all)), multiset(Beyond(all)), multiset{id});
      GoneIs(Contents(l), Release(l, id), multiset(Beyond(all)));
    } else {
      GoneIs(Contents(l), Release(l, id), multiset{});
    }
  }

  lemma RecoverSum(q: multiset<EventId>, w: multiset<EventId>, kept: multiset<EventId>, beyond: multiset<EventId>)
    requires w + q == kept + beyond
    ensures q + w == beyond + (kept + multiset{})
  {
    forall x ensures (q + w)[x] == (beyond + (kept + multiset{}))[x] {
      assert (w + q)[x] == (kept + beyond)[x];
    }
  }

  lemma RecoverDrops(l: Lane)
    requires |l.queue| <= MAX_PENDING_PER_CHANNEL
    ensures Gone(Contents(l), Recover(l)) == multiset(Beyond(l.withheld + l.queue))
  {
    var all := l.withheld + l.queue;
    if l.withheld == [] {
      assert all == l.queue;
      GoneIs(Contents(l), Recover(l), multiset{});
    } else {
      CappedSplits(all);
      RecoverSum(multiset(l.queue), multiset(l.withheld), multiset(Capped(all)), multiset(Beyond(all)));
      assert multiset(Recover(l).withheld) == multiset{};
      GoneIs(Contents(l), Recover(l), multiset(Beyond(all)));
    }
  }

  lemma DrainDrops(l: Lane)
    ensures Gone(Contents(l), Drain(l)) == multiset(l.queue + l.withheld)
  {
  }

  lemma EnqueueDrops(s: Sys, id: EventId)
    requires Bounded(s)
    ensures After(s, Enqueue(id)).store.lost == s.store.lost + multiset(Dropped(s, Enqueue(id)))
  {
    BulkIs(s, Enqueue(id));
    PushDrops(s.store.lane, id);
  }

  lemma ExpireDrops(s: Sys)
    requires Bounded(s)
    ensures After(s, Expire).store.lost == s.store.lost + multiset(Dropped(s, Expire))
  {
    BulkIs(s, Expire);
    RecoverDrops(s.store.lane);
  }

  lemma DrainChannelDrops(s: Sys)
    ensures After(s, DrainChannel).store.lost == s.store.lost + multiset(Dropped(s, DrainChannel))
  {
    BulkIs(s, DrainChannel);
    DrainDrops(s.store.lane);
  }

  lemma FlushDropsNothing(s: Sys)
    ensures After(s, FlushBatch).store.lost == s.store.lost
  {
    BulkIs(s, FlushBatch);
  }

  lemma PostDrops(s: Sys, id: EventId)
    requires Bounded(s)
    ensures After(s, Post(id)).store.lost == s.store.lost + multiset(Dropped(s, Post(id)))
  {
    PostIs(s, id);
    PushDrops(s.store.lane, id);
  }

  lemma TakeStore(s: Sys, i: nat)
    requires i < |s.mailbox|
    ensures TakeMail(s, i).store ==
      if IsSuccess(s.mailbox[i].how) then StoreRemove(s.store, s.mailbox[i].req)
      else StoreRelease(s.store, s.mailbox[i].req)
  {
    DecideRemoves(s.mailbox[i].how);
  }

  lemma DecideRemoves(how: Resolution)
    ensures Decide(how).remove <==> IsSuccess(how)
  {
  }

  lemma DeliverDrops(s: Sys, i: nat)
    requires Bounded(s)
    ensures After(s, Deliver(i)).store.lost == s.store.lost + multiset(Dropped(s, Deliver(i)))
  {
    DeliverIs(s, i);
    if i < |s.mailbox| {
      TakeStore(s, i);
      ReleaseDrops(s.store.lane, s.mailbox[i].req);
    }
  }

  /**
   * In every run: a posted event displaces another only when the queue holds the cap, and
   * then the first one; a released or recovered one displaces the newest beyond the cap;
   * a drain drops all that is queued or withheld; and nothing else loses anything.
   */
  lemma {:induction false} LossesAre(s: Sys, inputs: seq<Input>, x: Input)
    requires Initial(s)
    ensures var u := Trace(s, inputs);
      Trace(s, inputs + [x]).store.lost == u.store.lost + multiset(Dropped(u, x))
  {
    AlwaysBounded(s, inputs);
    TraceSnoc(s, inputs, x);
    var u := Trace(s, inputs);
    if x.Enqueue? {
      EnqueueDrops(u, x.id);
    } else if x.Expire? {
      ExpireDrops(u);
    } else if x.DrainChannel? {
      DrainChannelDrops(u);
    } else if x.FlushBatch? {
      FlushDropsNothing(u);
    } else if x.Post? {
      PostDrops(u, x.id);
    } else if x.Deliver? {
      DeliverDrops(u, x.i);
    } else {
      TurnKeepsStore(u, x);
    }
  }

  // ----------------------------------------------------------- what is dispatched

  /** The events a flush hands out: up to fifty from the front. */
  function Batch(q: seq<EventId>): seq<EventId> {
    if |q| <= 50 then q else q[..50]
  }

  /** In every run a flush dispatches the first events of the queue, at most fifty, and leaves the rest in order; nothing else dispatches. */
  lemma {:induction false} BatchesAre(s: Sys, inputs: seq<Input>, x: Input)
    ensures var u, v := Trace(s, inputs).store, Trace(s, inputs + [x]).store;
      && v.flushed == u.flushed + (if x.FlushBatch? then multiset(Batch(u.lane.queue)) else multiset{})
      && (x.FlushBatch? ==> Batch(u.lane.queue) + v.lane.queue == u.lane.queue && v.lane.withheld == u.lane.withheld)
  {
    TraceSnoc(s, inputs, x);
    var u := Trace(s, inputs);
    if x.FlushBatch? {
      BulkIs(u, x);
      FlushHandsOut(u.store.lane);
    } else {
      OthersDispatchNothing(u, x);
    }
  }

  lemma FlushHandsOut(l: Lane)
    ensures Gone(Contents(l), Flush(l)) == multiset(Batch(l.queue)) && Batch(l.queue) + Flush(l).queue == l.queue
  {
    SplitContents(l.queue, |Batch(l.queue)|);
    assert l.queue[..|Batch(l.queue)|] == Batch(l.queue);
    GoneIs(Contents(l), Flush(l), multiset(Batch(l.queue)));
  }

  lemma OthersDispatchNothing(s: Sys, x: Input)
    requires !x.FlushBatch?
    ensures After(s, x).store.flushed == s.store.flushed
  {
    if Bulk(x) {
      BulkIs(s, x);
    } else if x.Post? {
      PostIs(s, x.id);
    } else if x.Deliver? {
      DeliverIs(s, x.i);
      if x.i < |s.mailbox| {
        TakeStore(s, x.i);
      }
    } else {
      TurnKeepsStore(s, x);
    }
  }
}
