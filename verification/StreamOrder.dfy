/**
 * The order in which streams were opened against the order of their latest events.
 */
module StreamOrder {
  /** The streams in the order of their first events, each with the position of its last one. */
  datatype Tally<T> = Tally(streams: seq<T>, latest: seq<nat>)

  function Index<T(==)>(streams: seq<T>, key: T): (i: nat)
    ensures i <= |streams| && (i < |streams| ==> streams[i] == key)
    ensures forall j :: 0 <= j < i ==> streams[j] != key
  {
    if streams == [] || streams[0] == key then 0 else 1 + Index(streams[1..], key)
  }

  function Seen<T(==)>(t: Tally<T>, key: T, at: nat): Tally<T> {
    var i := Index(t.streams, key);
    if i < |t.streams| && i < |t.latest| then t.(latest := t.latest[i := at])
    else Tally(t.streams + [key], t.latest + [at])
  }

  function TallyOf<T(==)>(keys: seq<T>): Tally<T> {
    if keys == [] then Tally([], []) else Seen(TallyOf(keys[..|keys| - 1]), keys[|keys| - 1], |keys| - 1)
  }

  predicate LastAt<T(==)>(keys: seq<T>, key: T, r: nat) {
    r < |keys| && keys[r] == key && forall m :: r < m < |keys| ==> keys[m] != key
  }

  /** Stream `a` has an event before the first one of `b`. */
  ghost predicate OpenedBefore<T>(keys: seq<T>, a: T, b: T) {
    exists p: nat :: StartsBefore(keys, a, b, p)
  }

  predicate StartsBefore<T(==)>(keys: seq<T>, a: T, b: T, p: nat) {
    p < |keys| && keys[p] == a && forall m :: 0 <= m <= p ==> keys[m] != b
  }

  ghost predicate Tallied<T>(t: Tally<T>, keys: seq<T>) {
    && |t.streams| == |t.latest|
    && (forall i :: 0 <= i < |t.streams| ==> LastAt(keys, t.streams[i], t.latest[i]))
    && (forall i, j :: 0 <= i < j < |t.streams| ==> OpenedBefore(keys, t.streams[i], t.streams[j]))
    && forall m :: 0 <= m < |keys| ==> keys[m] in t.streams
  }

  lemma OpenedBeforeSnoc<T>(keys: seq<T>, key: T, a: T, b: T)
    requires OpenedBefore(keys, a, b)
    ensures OpenedBefore(keys + [key], a, b)
  {
    var p: nat :| StartsBefore(keys, a, b, p);
    assert StartsBefore(keys + [key], a, b, p);
  }

  /** A stream seen before comes before one that is new. */
  lemma NewComesLast<T>(keys: seq<T>, a: T, b: T)
    requires a in keys && b !in keys
    ensures OpenedBefore(keys + [b], a, b)
  {
    var p: nat :| p < |keys| && keys[p] == a;
    assert StartsBefore(keys + [b], a, b, p);
  }

  lemma SeenAgain<T>(t: Tally<T>, keys: seq<T>, key: T)
    requires Tallied(t, keys) && key in t.streams
    ensures Tallied(Seen(t, key, |keys|), keys + [key])
  {
    var u, longer := Seen(t, key, |keys|), keys + [key];
    forall i | 0 <= i < |u.streams| ensures LastAt(longer, u.streams[i], u.latest[i]) {
      assert LastAt(keys, t.streams[i], t.latest[i]);
      if t.streams[i] == key {
        OpenedOnce(t, keys, i, Index(t.streams, key));
      }
    }
    forall i, j | 0 <= i < j < |u.streams| ensures OpenedBefore(longer, u.streams[i], u.streams[j]) {
      OpenedBeforeSnoc(keys, key, t.streams[i], t.streams[j]);
    }
  }

  lemma NotBeforeItself<T>(keys: seq<T>, a: T)
    ensures !OpenedBefore(keys, a, a)
  {
  }

  lemma OneFirst<T>(keys: seq<T>, a: T, b: T, p: nat)
    requires StartsBefore(keys, a, b, p)
    ensures !OpenedBefore(keys, b, a)
  {
  }

  lemma OpenedOnce<T>(t: Tally<T>, keys: seq<T>, i: nat, j: nat)
    requires Tallied(t, keys) && i < |t.streams| && j < |t.streams| && t.streams[i] == t.streams[j]
    ensures i == j
  {
    NotBeforeItself(keys, t.streams[i]);
  }

  lemma SeenFirst<T>(t: Tally<T>, keys: seq<T>, key: T)
    requires Tallied(t, keys) && key !in t.streams
    ensures Tallied(Seen(t, key, |keys|), keys + [key])
  {
    var u, longer := Seen(t, key, |keys|), keys + [key];
    forall i | 0 <= i < |u.streams| ensures LastAt(longer, u.streams[i], u.latest[i]) {
      if i < |t.streams| {
        assert LastAt(keys, t.streams[i], t.latest[i]);
      }
    }
    forall i, j | 0 <= i < j < |u.streams| ensures OpenedBefore(longer, u.streams[i], u.streams[j]) {
      if j < |t.streams| {
        OpenedBeforeSnoc(keys, key, t.streams[i], t.streams[j]);
      } else {
        assert LastAt(keys, t.streams[i], t.latest[i]);
        assert key !in keys;
        NewComesLast(keys, t.streams[i], key);
      }
    }
  }

  lemma {:induction false} TallyIs<T>(keys: seq<T>)
    ensures Tallied(TallyOf(keys), keys)
    decreases keys
  {
    if keys != [] {
      var n := |keys| - 1;
      TallyIs(keys[..n]);
      assert keys[..n] + [keys[n]] == keys;
      if keys[n] in TallyOf(keys[..n]).streams {
        SeenAgain(TallyOf(keys[..n]), keys[..n], keys[n]);
      } else {
        SeenFirst(TallyOf(keys[..n]), keys[..n], keys[n]);
      }
    }
  }

  /** A stream was continued, at `r`, after another was opened that had its last event, at `q`, before. */
  predicate CrossesAt<T(==)>(keys: seq<T>, p: nat, q: nat, r: nat) {
    && p < q < r < |keys| && keys[p] == keys[r] != keys[q]
    && StartsBefore(keys, keys[p], keys[q], p) && LastAt(keys, keys[q], q)
  }

  ghost predicate Crossed<T>(keys: seq<T>) {
    exists p: nat, q: nat, r: nat :: CrossesAt(keys, p, q, r)
  }

  predicate Ascends(latest: seq<nat>) {
    forall i, j :: 0 <= i < j < |latest| ==> latest[i] < latest[j]
  }

  lemma DescentCrosses<T>(t: Tally<T>, keys: seq<T>, i: nat, j: nat)
    requires Tallied(t, keys) && i < j < |t.latest| && t.latest[i] >= t.latest[j]
    ensures Crossed(keys)
  {
    var a, b, q, r := t.streams[i], t.streams[j], t.latest[j], t.latest[i];
    assert LastAt(keys, a, r) && LastAt(keys, b, q) && OpenedBefore(keys, a, b);
    var p: nat :| StartsBefore(keys, a, b, p);
    assert a != b;
    assert CrossesAt(keys, p, q, r);
  }

  lemma CrossingDescends<T>(t: Tally<T>, keys: seq<T>, p: nat, q: nat, r: nat)
    requires Tallied(t, keys) && CrossesAt(keys, p, q, r)
    ensures !Ascends(t.latest)
  {
    var a, b := keys[p], keys[q];
    assert a in t.streams && b in t.streams;
    var i: nat :| i < |t.streams| && t.streams[i] == a;
    var j: nat :| j < |t.streams| && t.streams[j] == b;
    assert LastAt(keys, a, t.latest[i]) && LastAt(keys, b, t.latest[j]);
    assert t.latest[j] == q && t.latest[i] >= r;
    OneFirst(keys, a, b, p);
  }

  /** The latest events are in the order of the first ones if and only if no two streams cross. */
  lemma AscendsIff<T>(keys: seq<T>)
    ensures Tallied(TallyOf(keys), keys)
    ensures Ascends(TallyOf(keys).latest) <==> !Crossed(keys)
  {
    TallyIs(keys);
    var t := TallyOf(keys);
    if Crossed(keys) {
      var p: nat, q: nat, r: nat :| CrossesAt(keys, p, q, r);
      CrossingDescends(t, keys, p, q, r);
    }
    if !Ascends(t.latest) {
      var i: nat, j: nat :| i < j < |t.latest| && t.latest[i] >= t.latest[j];
      DescentCrosses(t, keys, i, j);
    }
  }
}
