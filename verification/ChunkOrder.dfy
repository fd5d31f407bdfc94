/** When published numbers fall, told by the events taken in. */
module ChunkOrder {
  import opened Prelude
  import opened Utf8
  import opened StreamMerge
  import opened StreamOrder
  import opened Coalescer

  /** The stream of a chunk; nothing for any other event. */
  function StreamOf(e: Event): Option<Key> {
    var chunk := ChunkOf(e);
    if chunk.Some? then Some(chunk.value.key) else None
  }

  function StreamsOf(events: seq<Event>): (keys: seq<Option<Key>>)
    ensures |keys| == |events| && forall i :: 0 <= i < |keys| ==> keys[i] == StreamOf(events[i])
  {
    seq(|events|, i requires 0 <= i < |events| => StreamOf(events[i]))
  }

  ghost predicate EmitsAt(feeds: seq<Feed>, k: nat)
    requires k < |feeds|
  {
    Next(History(feeds[..k]).pending, feeds[k]).out != []
  }

  /**
   * The chunks taken in since the last emission. One that made the coalescer emit for
   * want of room is the first of them.
   */
  ghost function Since(feeds: seq<Feed>): seq<Event> {
    if feeds == [] then []
    else
      var n := |feeds| - 1;
      SinceNext(Since(feeds[..n]), EmitsAt(feeds, n), feeds[n])
  }

  function SinceNext(since: seq<Event>, emits: bool, feed: Feed): seq<Event> {
    match feed
    case Tick => if emits then [] else since
    case Event(e) =>
      if ChunkOf(e).None? then [] else if emits then [e] else since + [e]
  }

  /** The pending entries are the streams of the chunks since, in order, each with its latest number. */
  ghost predicate Mirrors(pending: seq<Pending>, since: seq<Event>) {
    var t := TallyOf(StreamsOf(since));
    && |pending| == |t.streams| == |t.latest|
    && forall i :: 0 <= i < |pending| ==> MirrorsAt(pending[i], since, t.streams[i], t.latest[i])
  }

  predicate MirrorsAt(p: Pending, since: seq<Event>, stream: Option<Key>, latest: nat) {
    stream == Some(p.key) && latest < |since| && p.event.envelope.seqNo == since[latest].envelope.seqNo
  }

  lemma StreamsSnoc(since: seq<Event>, e: Event)
    ensures StreamsOf(since + [e]) == StreamsOf(since) + [StreamOf(e)]
  {
  }

  lemma TallySnoc(keys: seq<Option<Key>>, key: Option<Key>)
    ensures TallyOf(keys + [key]) == Seen(TallyOf(keys), key, |keys|)
  {
    assert (keys + [key])[..|keys|] == keys;
  }

  /** The streams of the tally are found where the pending entries are. */
  lemma {:induction false} SamePlace(pending: seq<Pending>, streams: seq<Option<Key>>, key: Key)
    requires |pending| == |streams| && forall i :: 0 <= i < |pending| ==> streams[i] == Some(pending[i].key)
    ensures Index(streams, Some(key)) == Find(Chunks(pending), key)
  {
    var i, j := Index(streams, Some(key)), Find(Chunks(pending), key);
    if i < |pending| {
      assert Chunks(pending)[i].key == key;
    }
    if j < |pending| {
      assert streams[j] == Some(key);
    }
  }

  lemma {:induction false} MirrorsNew(pending: seq<Pending>, since: seq<Event>, e: Event, p: Pending)
    requires Mirrors(pending, since) && StreamOf(e) == Some(p.key) && p.event == e
    requires Find(Chunks(pending), p.key) == |pending|
    ensures Mirrors(pending + [p], since + [e])
  {
    var t := TallyOf(StreamsOf(since));
    StreamsSnoc(since, e);
    TallySnoc(StreamsOf(since), Some(p.key));
    SamePlace(pending, t.streams, p.key);
    forall i | 0 <= i < |pending| ensures MirrorsAt(pending[i], since + [e], t.streams[i], t.latest[i]) {
      assert MirrorsAt(pending[i], since, t.streams[i], t.latest[i]);
    }
  }

  lemma {:induction false} MirrorsMerged(pending: seq<Pending>, since: seq<Event>, e: Event, key: Key, text: Bytes)
    requires Mirrors(pending, since) && StreamOf(e) == Some(key)
    requires Find(Chunks(pending), key) < |pending|
    ensures var i := Find(Chunks(pending), key);
      Mirrors(pending[i := Merged(pending[i], e, text)], since + [e])
  {
    var t := TallyOf(StreamsOf(since));
    StreamsSnoc(since, e);
    TallySnoc(StreamsOf(since), Some(key));
    SamePlace(pending, t.streams, key);
    forall i | 0 <= i < |pending| ensures MirrorsAt(pending[i], since + [e], t.streams[i], t.latest[i]) {
      assert MirrorsAt(pending[i], since, t.streams[i], t.latest[i]);
    }
  }

  lemma MirrorsNothing()
    ensures Mirrors([], [])
  {
    assert StreamsOf([]) == [];
  }

  lemma MirrorsOne(e: Event, p: Pending)
    requires StreamOf(e) == Some(p.key) && p.event == e
    ensures Mirrors([p], [e])
  {
    MirrorsNothing();
    MirrorsNew([], [], e, p);
    assert [] + [p] == [p] && [] + [e] == [e];
  }

  lemma {:induction false} TakeInMirrors(pending: seq<Pending>, since: seq<Event>, e: Event, c: Chunk)
    requires Coherent(pending) && Mirrors(pending, since) && ChunkOf(e) == Some(c)
    ensures var after := TakeIn(pending, e, Some(c));
      Mirrors(after.pending, if after.out != [] then [e] else since + [e])
  {
    var p := Pending(c.key, e, c.text);
    var i := Find(Chunks(pending), c.key);
    if i == |pending| {
      MirrorsNew(pending, since, e, p);
    } else {
      MirrorsMerged(pending, since, e, c.key, c.text);
      MirrorsOne(e, p);
    }
  }

  lemma {:induction false} NextMirrors(pending: seq<Pending>, since: seq<Event>, feed: Feed)
    requires Coherent(pending) && Mirrors(pending, since)
    ensures var after := Next(pending, feed); Mirrors(after.pending, SinceNext(since, after.out != [], feed))
  {
    MirrorsNothing();
    match feed
    case Tick =>
      if pending == [] {
        assert Next(pending, feed).out == [];
      }
    case Event(e) =>
      if ChunkOf(e).Some? {
        TakeInMirrors(pending, since, e, ChunkOf(e).value);
      }
  }

  /** At any time the pending entries mirror the chunks since the last emission. */
  lemma {:induction false} PendingMirrors(feeds: seq<Feed>)
    ensures Mirrors(History(feeds).pending, Since(feeds))
    decreases feeds
  {
    MirrorsNothing();
    if feeds != [] {
      var n := |feeds| - 1;
      PendingMirrors(feeds[..n]);
      NextMirrors(History(feeds[..n]).pending, Since(feeds[..n]), feeds[n]);
    }
  }

  predicate Suffix(events: seq<Event>, all: seq<Event>) {
    |events| <= |all| && all[|all| - |events|..] == events
  }

  lemma SuffixNext(since: seq<Event>, all: seq<Event>, emits: bool, feed: Feed)
    requires Suffix(since, all)
    ensures Suffix(SinceNext(since, emits, feed), all + (if feed.Event? then [feed.event] else []))
  {
  }

  lemma SinceSnoc(feeds: seq<Feed>)
    requires feeds != []
    ensures var n := |feeds| - 1;
      Since(feeds) == SinceNext(Since(feeds[..n]), EmitsAt(feeds, n), feeds[n])
  {
  }

  /** They are the last events taken in, so their numbers rise when all do. */
  lemma {:induction false} SinceIsSuffix(feeds: seq<Feed>)
    ensures Suffix(Since(feeds), EventsOf(feeds))
    decreases feeds
  {
    if feeds != [] {
      var n := |feeds| - 1;
      SinceIsSuffix(feeds[..n]);
      SinceSnoc(feeds);
      SuffixNext(Since(feeds[..n]), EventsOf(feeds[..n]), EmitsAt(feeds, n), feeds[n]);
      assert feeds[..n] + [feeds[n]] == feeds;
      EventsOfSnoc(feeds[..n], feeds[n]);
    }
  }

  lemma SuffixRises(events: seq<Event>, all: seq<Event>)
    requires Suffix(events, all) && Rising(all)
    ensures Rising(events)
  {
    assert forall i :: 0 <= i < |events| ==> events[i] == all[|all| - |events| + i];
  }

  lemma LaterIff(p: Pending, q: Pending, since: seq<Event>, a: Option<Key>, b: Option<Key>, i: nat, j: nat)
    requires Rising(since) && MirrorsAt(p, since, a, i) && MirrorsAt(q, since, b, j)
    ensures p.event.envelope.seqNo < q.event.envelope.seqNo <==> i < j
  {
  }

  lemma {:induction false} InTurnIff(pending: seq<Pending>, since: seq<Event>)
    requires Mirrors(pending, since) && Rising(since)
    ensures InTurn(pending) <==> Ascends(TallyOf(StreamsOf(since)).latest)
  {
    var t := TallyOf(StreamsOf(since));
    forall i, j | 0 <= i < j < |pending|
      ensures pending[i].event.envelope.seqNo < pending[j].event.envelope.seqNo <==> t.latest[i] < t.latest[j]
    {
      LaterIff(pending[i], pending[j], since, t.streams[i], t.streams[j], t.latest[i], t.latest[j]);
    }
  }

  /** The `k`th feed makes the coalescer emit while two streams cross. */
  ghost predicate EmitsCrossed(feeds: seq<Feed>, k: nat)
    requires k < |feeds|
  {
    EmitsAt(feeds, k) && Crossed(StreamsOf(Since(feeds[..k])))
  }

  lemma EmitsInTurnIff(feeds: seq<Feed>, k: nat)
    requires k < |feeds| && Rising(EventsOf(feeds[..k]))
    ensures EmitsInTurnAt(feeds, k) <==> !EmitsCrossed(feeds, k)
  {
    var before := feeds[..k];
    PendingMirrors(before);
    SinceIsSuffix(before);
    SuffixRises(Since(before), EventsOf(before));
    InTurnIff(History(before).pending, Since(before));
    AscendsIff(StreamsOf(Since(before)));
  }


  lemma {:induction false} EventsOfPrefix(feeds: seq<Feed>, k: nat)
    requires k <= |feeds|
    ensures EventsOf(feeds[..k]) <= EventsOf(feeds)
    decreases |feeds|
  {
    if k == |feeds| {
      assert feeds[..k] == feeds;
    } else {
      var n := |feeds| - 1;
      EventsOfPrefix(feeds[..n], k);
      assert feeds[..n][..k] == feeds[..k];
    }
  }

  /**
   * When the events taken in are numbered in order, the emitted numbers rise if and only
   * if at no emission there are two streams, both begun since the last one, of which the
   * first to begin had its latest event after the other's.
   */
  lemma {:induction false} NumbersRiseUnlessCrossed(feeds: seq<Feed>)
    requires Rising(EventsOf(feeds))
    ensures Rising(History(feeds).out) <==> forall k :: 0 <= k < |feeds| ==> !EmitsCrossed(feeds, k)
  {
    NumbersRiseIff(feeds);
    forall k | 0 <= k < |feeds| ensures EmitsInTurnAt(feeds, k) <==> !EmitsCrossed(feeds, k) {
      EventsOfPrefix(feeds, k);
      PrefixRises(EventsOf(feeds[..k]), EventsOf(feeds));
      EmitsInTurnIff(feeds, k);
    }
  }

  lemma PrefixRises(events: seq<Event>, all: seq<Event>)
    requires events <= all && Rising(all)
    ensures Rising(events)
  {
    assert forall i :: 0 <= i < |events| ==> events[i] == all[i];
  }

  // --------------------------------------------------------------- when it emits

  /** The texts of the chunks since the last emission are what is pending, stream by stream. */
  ghost predicate TextsMirror(pending: seq<Pending>, since: seq<Event>, key: Key) {
    PendingText(Chunks(pending), key) == TextOf(Read(since), key)
  }

  lemma OneText(c: Chunk, key: Key)
    ensures PendingText([c], key) == TextOf([Some(c)], key) == TextIn(Some(c), key)
  {
    assert [Some(c)][..0] == [];
    assert TextOf([], key) == [];
    assert [] + TextIn(Some(c), key) == TextIn(Some(c), key);
  }

  lemma AnewMirrors(e: Event, c: Chunk, key: Key)
    requires ChunkOf(e) == Some(c)
    ensures TextsMirror([Pending(c.key, e, c.text)], [e], key)
  {
    OneText(c, key);
    assert Chunks([Pending(c.key, e, c.text)]) == [c];
    assert Read([e]) == [Some(c)];
  }

  lemma OnwardMirrors(pending: seq<Pending>, since: seq<Event>, e: Event, c: Chunk, key: Key)
    requires Coherent(pending) && Distinct(Chunks(pending)) && ChunkOf(e) == Some(c) && TextsMirror(pending, since, key)
    requires TakeIn(pending, e, Some(c)).out == []
    ensures TextsMirror(TakeIn(pending, e, Some(c)).pending, since + [e], key)
  {
    TakeInMerges(pending, e, Some(c));
    IngestText(Chunks(pending), Some(c), key);
    assert Read([]) == [] && TextOf([], key) == [];
    ReadSnoc(since, e);
    TextOfSnoc(Read(since), Some(c), key);
    var after := PendingText(Chunks(TakeIn(pending, e, Some(c)).pending), key);
    assert [] + after == after;
  }

  lemma OverflowStartsAnew(pending: seq<Pending>, e: Event, c: Chunk)
    requires Coherent(pending) && TakeIn(pending, e, Some(c)).out != []
    ensures TakeIn(pending, e, Some(c)).pending == [Pending(c.key, e, c.text)]
  {
  }

  lemma NothingMirrors(key: Key)
    ensures TextsMirror([], [], key)
  {
    assert Chunks([]) == [] && Read([]) == [];
  }

  lemma {:induction false} NextTexts(pending: seq<Pending>, since: seq<Event>, feed: Feed, key: Key)
    requires Coherent(pending) && Distinct(Chunks(pending)) && TextsMirror(pending, since, key)
    ensures var after := Next(pending, feed); TextsMirror(after.pending, SinceNext(since, after.out != [], feed), key)
  {
    NothingMirrors(key);
    match feed
    case Tick => if pending == [] { assert Next(pending, feed).out == []; }
    case Event(e) =>
      if ChunkOf(e).Some? {
        var c := ChunkOf(e).value;
        if TakeIn(pending, e, Some(c)).out == [] {
          OnwardMirrors(pending, since, e, c, key);
        } else {
          OverflowStartsAnew(pending, e, c);
          AnewMirrors(e, c, key);
        }
      }
  }

  lemma {:induction false} PendingTexts(feeds: seq<Feed>, key: Key)
    ensures TextsMirror(History(feeds).pending, Since(feeds), key)
    decreases feeds
  {
    NothingMirrors(key);
    if feeds != [] {
      var n := |feeds| - 1;
      PendingTexts(feeds[..n], key);
      HistoryMerges(feeds[..n]);
      RunDistinct(OpsOf(feeds[..n]));
      NextTexts(History(feeds[..n]).pending, Since(feeds[..n]), feeds[n], key);
    }
  }

  /** The tally lists the streams of the events and no others. */
  lemma {:induction false} TallyLists(keys: seq<Option<Key>>, key: Option<Key>)
    ensures key in TallyOf(keys).streams <==> key in keys
    decreases keys
  {
    if keys != [] {
      var n := |keys| - 1;
      TallyLists(keys[..n], key);
      TallySnoc(keys[..n], keys[n]);
      assert keys[..n] + [keys[n]] == keys;
    }
  }

  lemma {:induction false} MirroredKey(pending: seq<Pending>, since: seq<Event>, key: Key)
    requires Mirrors(pending, since)
    ensures Find(Chunks(pending), key) < |pending| <==> Some(key) in StreamsOf(since)
  {
    var t := TallyOf(StreamsOf(since));
    SamePlace(pending, t.streams, key);
    TallyLists(StreamsOf(since), Some(key));
  }

  lemma {:induction false} MirroredNothing(pending: seq<Pending>, since: seq<Event>)
    requires Mirrors(pending, since)
    ensures pending == [] <==> since == []
  {
    if since != [] {
      TallyLists(StreamsOf(since), StreamsOf(since)[0]);
    }
  }

  /** A stream is pending exactly when a chunk of it was taken in since. */
  lemma {:induction false} PendingIffSince(feeds: seq<Feed>, key: Key)
    ensures Find(Chunks(History(feeds).pending), key) < |History(feeds).pending| <==> Some(key) in StreamsOf(Since(feeds))
    ensures History(feeds).pending == [] <==> Since(feeds) == []
  {
    PendingMirrors(feeds);
    MirroredKey(History(feeds).pending, Since(feeds), key);
    MirroredNothing(History(feeds).pending, Since(feeds));
  }

  /**
   * What makes the coalescer emit, told by the events alone: a tick with something taken
   * in since the last emission; an event that is no chunk; or a chunk that would bring the
   * text of its stream since then to 60,000 bytes or more.
   */
  lemma {:induction false} EmitsIff(feeds: seq<Feed>, k: nat)
    requires k < |feeds|
    ensures var since := Since(feeds[..k]);
      EmitsAt(feeds, k) <==>
        match feeds[k]
        case Tick => since != []
        case Event(e) =>
          ChunkOf(e).None? ||
          (Some(ChunkOf(e).value.key) in StreamsOf(since) &&
           |TextOf(Read(since), ChunkOf(e).value.key)| + |ChunkOf(e).value.text| >= 60_000)
  {
    var before := feeds[..k];
    var pending := History(before).pending;
    match feeds[k]
    case Tick =>
      PendingIffSince(before, Key([], None, None, None, None, None));
    case Event(e) =>
      if ChunkOf(e).Some? {
        var c := ChunkOf(e).value;
        PendingIffSince(before, c.key);
        PendingTexts(before, c.key);
        TakeInEmits(pending, e, c);
      }
  }

  lemma TakeInEmits(pending: seq<Pending>, e: Event, c: Chunk)
    requires Coherent(pending)
    ensures TakeIn(pending, e, Some(c)).out != [] <==>
      Find(Chunks(pending), c.key) < |pending| && |PendingText(Chunks(pending), c.key)| + |c.text| >= 60_000
  {
  }
}
