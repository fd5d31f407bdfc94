/**
 * The part of the event queue that native steering uses.
 *
 * Per channel there are the pending events and the side table of events withheld while a
 * steer is in flight for them. A withheld event is in no batch; it returns to the front
 * of its channel's queue, or is removed for good, by what becomes of the steer. Events
 * are identified by their id.
 */
module SteerQueue {
  import opened Prelude

  const MAX_PENDING_PER_CHANNEL := 500
  const MAX_BATCH_EVENTS := 50

  type EventId = nat
  type Channel = nat

  /** One channel's share of the queue. */
  datatype Lane = Lane(queue: seq<EventId>, withheld: seq<EventId>)

  /** Position of the first occurrence. */
  function Position(s: seq<EventId>, id: EventId): (i: nat)
    ensures i <= |s| && (i < |s| ==> s[i] == id)
    ensures i < |s| <==> id in s
    ensures id !in s[..i]
  {
    if s == [] then 0 else if s[0] == id then 0 else 1 + Position(s[1..], id)
  }

  function Without(s: seq<EventId>, i: nat): seq<EventId>
    requires i < |s|
  {
    s[..i] + s[i + 1..]
  }

  function Retain(s: seq<EventId>, id: EventId): (r: seq<EventId>)
    ensures id !in r
    ensures forall x :: x in r <==> x in s && x != id
  {
    if s == [] then []
    else (if s[0] == id then [] else [s[0]]) + Retain(s[1..], id)
  }

  /** Enforces the depth cap by dropping the newest events. */
  function Capped(s: seq<EventId>): seq<EventId> {
    if |s| > MAX_PENDING_PER_CHANNEL then s[..MAX_PENDING_PER_CHANNEL] else s
  }

  /** A pushed event is always kept; at the cap the oldest makes room for it. */
  function Push(l: Lane, id: EventId): Lane {
    l.(queue := (if |l.queue| >= MAX_PENDING_PER_CHANNEL then l.queue[1..] else l.queue) + [id])
  }

  function MarkPending(l: Lane, id: EventId): Lane {
    var i := Position(l.queue, id);
    if i < |l.queue| then Lane(Without(l.queue, i), l.withheld + [id]) else l
  }

  /** Back to the front of the queue; a no-op when the event is not withheld. */
  function Release(l: Lane, id: EventId): Lane {
    var i := Position(l.withheld, id);
    if i < |l.withheld| then Lane(Capped([id] + l.queue), Without(l.withheld, i)) else l
  }

  function RemoveEvent(l: Lane, id: EventId): Lane {
    Lane(Retain(l.queue, id), Retain(l.withheld, id))
  }

  /** In-flight expiry: every withheld event returns to the front, in order. */
  function Recover(l: Lane): Lane {
    if l.withheld == [] then l else Lane(Capped(l.withheld + l.queue), [])
  }

  function Drain(l: Lane): Lane {
    Lane([], [])
  }

  function Flush(l: Lane): Lane {
    l.(queue := l.queue[Min(MAX_BATCH_EVENTS, |l.queue|)..])
  }

  // ------------------------------------------------------------------- contents

  function Contents(l: Lane): multiset<EventId> {
    multiset(l.queue) + multiset(l.withheld)
  }

  lemma WithoutContents(s: seq<EventId>, i: nat)
    requires i < |s|
    ensures multiset(Without(s, i)) + multiset{s[i]} == multiset(s)
  {
    assert s == s[..i] + [s[i]] + s[i + 1..];
  }

  lemma TakeContents(s: seq<EventId>, n: nat)
    requires n <= |s|
    ensures multiset(s[..n]) + multiset(s[n..]) == multiset(s)
  {
    assert s == s[..n] + s[n..];
  }

  lemma CappedContents(s: seq<EventId>)
    ensures multiset(Capped(s)) <= multiset(s)
  {
    if |s| > MAX_PENDING_PER_CHANNEL {
      TakeContents(s, MAX_PENDING_PER_CHANNEL);
    }
  }

  lemma {:induction false} RetainContents(s: seq<EventId>, id: EventId)
    ensures multiset(Retain(s, id)) == multiset(s)[id := 0]
  {
    if s != [] {
      RetainContents(s[1..], id);
      assert s == [s[0]] + s[1..];
    }
  }

  lemma PushContents(l: Lane, id: EventId)
    ensures Contents(Push(l, id)) <= Contents(l) + multiset{id}
    ensures multiset(Push(l, id).withheld) == multiset(l.withheld)
    ensures id in Push(l, id).queue
  {
    if |l.queue| >= MAX_PENDING_PER_CHANNEL {
      TakeContents(l.queue, 1);
    }
  }

  /** Withholding moves exactly that event. */
  lemma MarkPendingContents(l: Lane, id: EventId)
    ensures Contents(MarkPending(l, id)) == Contents(l)
    ensures id in l.queue ==> multiset(MarkPending(l, id).withheld) == multiset(l.withheld) + multiset{id}
    ensures id in l.queue ==> multiset(MarkPending(l, id).queue) + multiset{id} == multiset(l.queue)
  {
    var i := Position(l.queue, id);
    if i < |l.queue| {
      WithoutContents(l.queue, i);
    }
  }

  /** Releasing undoes withholding: the event leaves the side table, once, for the queue's front. */
  lemma ReleaseContents(l: Lane, id: EventId)
    ensures Contents(Release(l, id)) <= Contents(l)
    ensures id in l.withheld ==>
      && multiset(Release(l, id).withheld) + multiset{id} == multiset(l.withheld)
      && Release(l, id).queue[..1] == [id]
      && multiset(Release(l, id).queue) <= multiset(l.queue) + multiset{id}
    ensures id !in l.withheld ==> Release(l, id) == l
  {
    var i := Position(l.withheld, id);
    if i < |l.withheld| {
      WithoutContents(l.withheld, i);
      CappedContents([id] + l.queue);
      assert multiset([id] + l.queue) == multiset{id} + multiset(l.queue);
    }
  }

  lemma RemoveEventContents(l: Lane, id: EventId)
    ensures Contents(RemoveEvent(l, id)) == Contents(l)[id := 0]
    ensures multiset(RemoveEvent(l, id).withheld) == multiset(l.withheld)[id := 0]
  {
    RetainContents(l.queue, id);
    RetainContents(l.withheld, id);
  }

  lemma RecoverContents(l: Lane)
    ensures Contents(Recover(l)) <= Contents(l)
  {
    if l.withheld != [] {
      CappedContents(l.withheld + l.queue);
      assert multiset(l.withheld + l.queue) == multiset(l.withheld) + multiset(l.queue);
    }
  }

  lemma FlushContents(l: Lane)
    ensures Contents(Flush(l)) <= Contents(l) && Flush(l).withheld == l.withheld
  {
    TakeContents(l.queue, Min(MAX_BATCH_EVENTS, |l.queue|));
  }

  /** Withholding an event and releasing it again, with nothing in between, leaves it first in line. */
  lemma ReleaseAfterMark(l: Lane, id: EventId)
    requires id in l.queue && id !in l.withheld && |l.queue| <= MAX_PENDING_PER_CHANNEL
    ensures Release(MarkPending(l, id), id)
         == Lane([id] + Without(l.queue, Position(l.queue, id)), l.withheld)
  {
    var m := MarkPending(l, id);
    assert m.withheld == l.withheld + [id];
    assert Position(m.withheld, id) == |l.withheld| by {
      assert m.withheld[..|l.withheld|] == l.withheld;
      assert m.withheld[Position(m.withheld, id)] == id;
      assert id !in m.withheld[..|l.withheld|];
    }
    assert Without(m.withheld, |l.withheld|) == l.withheld;
  }

  /** The lane after `k` events from the front were withheld. */
  function Moved(l: Lane, k: nat): Lane
    requires k <= |l.queue|
  {
    Lane(l.queue[k..], l.withheld + l.queue[..k])
  }

  /** Each lane comes from the one before by withholding the next event of the first one's queue. */
  ghost predicate Marks(lanes: seq<Lane>) {
    lanes != [] && forall i :: 0 < i < |lanes| ==> MarkedNext(lanes, i)
  }

  predicate MarkedNext(lanes: seq<Lane>, i: nat)
    requires 0 < i < |lanes|
  {
    i <= |lanes[0].queue| && lanes[i] == MarkPending(lanes[i - 1], lanes[0].queue[i - 1])
  }

  lemma MarkMoved(l: Lane, k: nat)
    requires k < |l.queue|
    ensures MarkPending(Moved(l, k), l.queue[k]) == Moved(l, k + 1)
  {
    var m := Moved(l, k);
    assert m.queue[0] == l.queue[k] && Without(m.queue, 0) == l.queue[k + 1..];
    assert l.queue[..k + 1] == l.queue[..k] + [l.queue[k]];
    assert m.withheld + [l.queue[k]] == l.withheld + l.queue[..k + 1];
  }

  lemma {:induction false} MarksMove(lanes: seq<Lane>, k: nat)
    requires Marks(lanes) && k < |lanes|
    ensures k <= |lanes[0].queue| && lanes[k] == Moved(lanes[0], k)
  {
    if k == 0 {
      assert lanes[0].withheld + lanes[0].queue[..0] == lanes[0].withheld;
    } else {
      MarksMove(lanes, k - 1);
      assert MarkedNext(lanes, k);
      MarkMoved(lanes[0], k - 1);
    }
  }

  /** Expiry undoes any number of withholdings from the front, order included. */
  lemma {:induction false} RecoverAfterMarks(lanes: seq<Lane>, k: nat)
    requires Marks(lanes) && k < |lanes|
    requires lanes[0].withheld == [] && |lanes[0].queue| <= MAX_PENDING_PER_CHANNEL
    ensures Recover(lanes[k]) == lanes[0]
  {
    MarksMove(lanes, k);
    assert [] + lanes[0].queue[..k] + lanes[0].queue[k..] == lanes[0].queue;
  }

  // ------------------------------------------------------------------ the queue

  /** The queue over all channels; a channel without entries has no key. */
  class EventQueue {
    var queues: map<Channel, seq<EventId>>
    var withheldSteer: map<Channel, seq<EventId>>

    constructor ()
      ensures queues == map[] && withheldSteer == map[]
    {
      queues, withheldSteer := map[], map[];
    }

    ghost function LaneOf(ch: Channel): Lane
      reads this
    {
      Lane(if ch in queues then queues[ch] else [], if ch in withheldSteer then withheldSteer[ch] else [])
    }

    method PushEvent(ch: Channel, id: EventId)
      modifies this
      ensures LaneOf(ch) == Push(old(LaneOf(ch)), id)
      ensures forall c :: c != ch ==> LaneOf(c) == old(LaneOf(c))
    {
      var queue := if ch in queues then queues[ch] else [];
      if |queue| >= MAX_PENDING_PER_CHANNEL {
        queue := queue[1..];
      }
      queues := queues[ch := queue + [id]];
    }

    method MarkNativeSteerPending(ch: Channel, id: EventId) returns (found: bool)
      modifies this
      ensures LaneOf(ch) == MarkPending(old(LaneOf(ch)), id)
      ensures found <==> id in old(LaneOf(ch)).queue
      ensures forall c :: c != ch ==> LaneOf(c) == old(LaneOf(c))
    {
      if ch !in queues {
        return false;
      }
      var q := queues[ch];
      var pos := Position(q, id);
      if pos == |q| {
        return false;
      }
      q := Without(q, pos);
      queues := if q == [] then queues - {ch} else queues[ch := q];
      var entries := if ch in withheldSteer then withheldSteer[ch] else [];
      withheldSteer := withheldSteer[ch := entries + [id]];
      found := true;
    }

    method ReleaseNativeSteer(ch: Channel, id: EventId)
      modifies this
      ensures LaneOf(ch) == Release(old(LaneOf(ch)), id)
      ensures forall c :: c != ch ==> LaneOf(c) == old(LaneOf(c))
    {
      if ch !in withheldSteer {
        return;
      }
      var entries := withheldSteer[ch];
      var pos := Position(entries, id);
      if pos == |entries| {
        return;
      }
      entries := Without(entries, pos);
      withheldSteer := if entries == [] then withheldSteer - {ch} else withheldSteer[ch := entries];
      var queue := [id] + (if ch in queues then queues[ch] else []);
      queue := PopBackToCap(queue);
      queues := queues[ch := queue];
    }

    method RemoveById(ch: Channel, id: EventId)
      modifies this
      ensures LaneOf(ch) == RemoveEvent(old(LaneOf(ch)), id)
      ensures forall c :: c != ch ==> LaneOf(c) == old(LaneOf(c))
    {
      if ch in withheldSteer {
        var entries := Retain(withheldSteer[ch], id);
        withheldSteer := if entries == [] then withheldSteer - {ch} else withheldSteer[ch := entries];
      }
      if ch in queues {
        var q := Retain(queues[ch], id);
        queues := if q == [] then queues - {ch} else queues[ch := q];
      }
    }

    method RecoverWithheld(ch: Channel)
      modifies this
      ensures LaneOf(ch) == Recover(old(LaneOf(ch)))
      ensures forall c :: c != ch ==> LaneOf(c) == old(LaneOf(c))
    {
      if ch !in withheldSteer {
        return;
      }
      var entries := withheldSteer[ch];
      withheldSteer := withheldSteer - {ch};
      var queue := if ch in queues then queues[ch] else [];
      ghost var base := queue;
      var i := |entries|;
      while i > 0
        invariant 0 <= i <= |entries|
        invariant queue == entries[i..] + base
      {
        i := i - 1;
        queue := [entries[i]] + queue;
      }
      if entries != [] {
        queue := PopBackToCap(queue);
        queues := queues[ch := queue];
      }
    }
  }

  /** The cap loop after pushing to the front: the newest events go first. */
  method PopBackToCap(s: seq<EventId>) returns (r: seq<EventId>)
    ensures r == Capped(s)
  {
    r := s;
    while |r| > MAX_PENDING_PER_CHANNEL
      invariant r == s[..|r|] && |r| <= |s|
      invariant |s| > MAX_PENDING_PER_CHANNEL ==> |r| >= MAX_PENDING_PER_CHANNEL
      invariant |s| <= MAX_PENDING_PER_CHANNEL ==> r == s
    {
      r := r[..|r| - 1];
    }
  }
}
