/**
 * Merging message chunks on their way to the relay.
 *
 * Chunks of one stream (same update type, message, channel, session, turn and agent) are
 * concatenated until something else comes along, a flush is due, or the text would grow
 * too long. The events are JSON trees; what makes one a chunk is found in its payload.
 *
 * Read back as chunks, everything here follows the rule of `StreamMerge`.
 */
module Coalescer {
  import opened Prelude
  import opened Utf8
  import opened Json
  import opened FrameTrim
  import opened StreamMerge

  datatype Event = Event(envelope: Envelope, payload: Json)

  datatype Pending = Pending(key: Key, event: Event, text: Bytes)

  // --------------------------------------------------------------- object access

  function KeyIndex(keys: seq<Bytes>, key: Bytes): (i: nat)
    ensures i <= |keys| && (i < |keys| ==> keys[i] == key)
  {
    if keys == [] || keys[0] == key then 0 else 1 + KeyIndex(keys[1..], key)
  }

  /** `Value::get` with a string index. */
  function Get(v: Json, key: Bytes): Option<Json> {
    if v.Obj? && KeyIndex(v.keys, key) < |v.keys| && KeyIndex(v.keys, key) < |v.values|
    then Some(v.values[KeyIndex(v.keys, key)])
    else None
  }

  /** Overwrites the value of a key that is present. */
  function Replace(v: Json, key: Bytes, x: Json): Json
    requires Get(v, key).Some?
  {
    Obj(v.keys, v.values[KeyIndex(v.keys, key) := x])
  }

  lemma GetReplace(v: Json, key: Bytes, x: Json, other: Bytes)
    requires Get(v, key).Some?
    ensures Get(Replace(v, key, x), key) == Some(x)
    ensures other != key ==> Get(Replace(v, key, x), other) == Get(v, other)
  {
  }

  function GetText(v: Json, key: Bytes): Option<Bytes> {
    match Get(v, key)
    case Some(Str(s)) => Some(s)
    case _ => None
  }

  const PARAMS := Ascii("params")
  const UPDATE := Ascii("update")
  const SESSION_UPDATE := Ascii("sessionUpdate")
  const MESSAGE_ID := Ascii("messageId")
  const CONTENT := Ascii("content")
  const TEXT := Ascii("text")

  predicate IsChunkType(t: Bytes) {
    t == Ascii("agent_message_chunk") || t == Ascii("user_message_chunk") || t == Ascii("agent_thought_chunk")
  }

  function UpdateOf(payload: Json): Option<Json> {
    match Get(payload, PARAMS)
    case Some(params) => Get(params, UPDATE)
    case None => None
  }

  /** The stream a chunk belongs to and its text; nothing for any other event. */
  function ChunkOf(e: Event): Option<Chunk> {
    match UpdateOf(e.payload)
    case None => None
    case Some(update) =>
      match (GetText(update, SESSION_UPDATE), Get(update, CONTENT))
      case (Some(t), Some(content)) =>
        if !IsChunkType(t) || GetText(content, TEXT).None? then None
        else
          var n := e.envelope;
          Some(Chunk(Key(t, GetText(update, MESSAGE_ID), n.channelId, n.sessionId, n.turnId, n.agentIndex),
                     GetText(content, TEXT).value))
      case _ => None
  }

  /** The text found by following a path of keys. */
  function TextAt(v: Json, path: seq<Bytes>): Option<Bytes> {
    if path == [] then (if v.Str? then Some(v.s) else None)
    else
      match Get(v, path[0])
      case Some(inner) => TextAt(inner, path[1..])
      case None => None
  }

  lemma TextAtOne(v: Json, key: Bytes)
    ensures TextAt(v, [key]) == GetText(v, key)
  {
    assert [key][1..] == [];
  }

  lemma UpdateText(payload: Json, path: seq<Bytes>)
    ensures TextAt(payload, [PARAMS, UPDATE] + path) ==
      if UpdateOf(payload).Some? then TextAt(UpdateOf(payload).value, path) else None
  {
    var all := [PARAMS, UPDATE] + path;
    assert all[1..] == [UPDATE] + path && all[1..][1..] == path;
  }

  /**
   * An event is a chunk exactly when its payload has one of the three update types and a
   * text, each at its place; the chunk's text is that one, and its stream is told by six
   * fields and by nothing else.
   */
  lemma {:induction false} ChunkIff(e: Event)
    ensures var kind, text := TextAt(e.payload, [Ascii("params"), Ascii("update"), Ascii("sessionUpdate")]),
      TextAt(e.payload, [Ascii("params"), Ascii("update"), Ascii("content"), Ascii("text")]);
      var c, n := ChunkOf(e), e.envelope;
      && (c.Some? <==>
            text.Some? && (kind == Some(Ascii("agent_message_chunk")) || kind == Some(Ascii("user_message_chunk"))
                           || kind == Some(Ascii("agent_thought_chunk"))))
      && (c.Some? ==>
            && c.value.text == text.value && c.value.key.updateType == kind.value
            && c.value.key.messageId == TextAt(e.payload, [Ascii("params"), Ascii("update"), Ascii("messageId")])
            && c.value.key.channelId == n.channelId && c.value.key.sessionId == n.sessionId
            && c.value.key.turnId == n.turnId && c.value.key.agentIndex == n.agentIndex)
  {
    UpdateText(e.payload, [SESSION_UPDATE]);
    UpdateText(e.payload, [MESSAGE_ID]);
    UpdateText(e.payload, [CONTENT, TEXT]);
    assert [PARAMS, UPDATE] + [SESSION_UPDATE] == [PARAMS, UPDATE, SESSION_UPDATE];
    assert [PARAMS, UPDATE] + [MESSAGE_ID] == [PARAMS, UPDATE, MESSAGE_ID];
    assert [PARAMS, UPDATE] + [CONTENT, TEXT] == [PARAMS, UPDATE, CONTENT, TEXT];
    if UpdateOf(e.payload).Some? {
      var update := UpdateOf(e.payload).value;
      TextAtOne(update, SESSION_UPDATE);
      TextAtOne(update, MESSAGE_ID);
      ContentText(update);
    }
  }

  lemma ContentText(update: Json)
    ensures TextAt(update, [CONTENT, TEXT]) ==
      if Get(update, CONTENT).Some? then GetText(Get(update, CONTENT).value, TEXT) else None
  {
    assert [CONTENT, TEXT][1..] == [TEXT];
    if Get(update, CONTENT).Some? {
      TextAtOne(Get(update, CONTENT).value, TEXT);
    }
  }

  /** Two chunks share a stream if and only if update type, message, channel, session, turn and agent agree. */
  lemma {:induction false} SameStreamIff(a: Event, b: Event)
    requires ChunkOf(a).Some? && ChunkOf(b).Some?
    ensures ChunkOf(a).value.key == ChunkOf(b).value.key <==>
      && TextAt(a.payload, [PARAMS, UPDATE, SESSION_UPDATE]) == TextAt(b.payload, [PARAMS, UPDATE, SESSION_UPDATE])
      && TextAt(a.payload, [PARAMS, UPDATE, MESSAGE_ID]) == TextAt(b.payload, [PARAMS, UPDATE, MESSAGE_ID])
      && a.envelope.channelId == b.envelope.channelId && a.envelope.sessionId == b.envelope.sessionId
      && a.envelope.turnId == b.envelope.turnId && a.envelope.agentIndex == b.envelope.agentIndex
  {
    ChunkIff(a);
    ChunkIff(b);
  }

  /** The event with the chunk's text replaced. */
  function WithText(e: Event, text: Bytes): Event
    requires ChunkOf(e).Some?
  {
    var params := Get(e.payload, PARAMS).value;
    var update := Get(params, UPDATE).value;
    var content := Get(update, CONTENT).value;
    e.(payload := Replace(e.payload, PARAMS,
                    Replace(params, UPDATE,
                      Replace(update, CONTENT,
                        Replace(content, TEXT, Str(text))))))
  }

  /** Reading an emitted chunk back gives the stream it came from and the merged text. */
  lemma {:induction false} ChunkRoundTrip(e: Event, text: Bytes)
    requires ChunkOf(e).Some?
    ensures ChunkOf(WithText(e, text)) == Some(Chunk(ChunkOf(e).value.key, text))
  {
    var params := Get(e.payload, PARAMS).value;
    var update := Get(params, UPDATE).value;
    var content := Get(update, CONTENT).value;
    var content' := Replace(content, TEXT, Str(text));
    var update' := Replace(update, CONTENT, content');
    var params' := Replace(params, UPDATE, update');
    GetReplace(content, TEXT, Str(text), TEXT);
    assert |CONTENT| != |SESSION_UPDATE| && |CONTENT| != |MESSAGE_ID|;
    GetReplace(update, CONTENT, content', SESSION_UPDATE);
    GetReplace(update, CONTENT, content', MESSAGE_ID);
    GetReplace(params, UPDATE, update', UPDATE);
    GetReplace(e.payload, PARAMS, params', PARAMS);
    assert UpdateOf(WithText(e, text).payload) == Some(update');
  }

  // ------------------------------------------------------------- the specification

  function Chunks(pending: seq<Pending>): (r: seq<Chunk>)
    ensures |r| == |pending|
    ensures forall i :: 0 <= i < |r| ==> r[i] == Chunk(pending[i].key, pending[i].text)
  {
    seq(|pending|, i requires 0 <= i < |pending| => Chunk(pending[i].key, pending[i].text))
  }

  /** A sequence of events as the merging rule sees it. */
  function Read(events: seq<Event>): (r: seq<Item>)
    ensures |r| == |events|
    ensures forall i :: 0 <= i < |r| ==> r[i] == ChunkOf(events[i])
  {
    seq(|events|, i requires 0 <= i < |events| => ChunkOf(events[i]))
  }

  /** The event belongs to the stream. */
  predicate Carries(e: Event, key: Key) {
    var chunk := ChunkOf(e);
    chunk.Some? && chunk.value.key == key
  }

  predicate Coherent(pending: seq<Pending>) {
    forall i :: 0 <= i < |pending| ==> Carries(pending[i].event, pending[i].key)
  }

  function Emitted(pending: seq<Pending>): (out: seq<Event>)
    requires Coherent(pending)
    ensures |out| == |pending|
    ensures forall i :: 0 <= i < |out| ==>
      Carries(pending[i].event, pending[i].key) && out[i] == WithText(pending[i].event, pending[i].text)
  {
    seq(|pending|, i requires 0 <= i < |pending| =>
      assert Carries(pending[i].event, pending[i].key); WithText(pending[i].event, pending[i].text))
  }

  /** A pending entry that takes in another chunk: its event keeps everything but number and time. */
  function Merged(p: Pending, e: Event, text: Bytes): Pending {
    p.(text := p.text + text,
       event := p.event.(envelope := p.event.envelope.(seqNo := e.envelope.seqNo, timestamp := e.envelope.timestamp)))
  }

  datatype State = State(pending: seq<Pending>, out: seq<Event>)

  /** `chunk` is what the event `e` reads as. */
  function TakeIn(pending: seq<Pending>, e: Event, chunk: Item): State
    requires Coherent(pending)
  {
    match chunk
    case None => State([], Emitted(pending) + [e])
    case Some(c) =>
      var i := Find(Chunks(pending), c.key);
      if i == |pending| then State(pending + [Pending(c.key, e, c.text)], [])
      else if |pending[i].text| + |c.text| >= CHUNK_MAX_TEXT_BYTES then
        State([Pending(c.key, e, c.text)], Emitted(pending))
      else State(pending[i := Merged(pending[i], e, c.text)], [])
  }

  lemma MergedCarries(p: Pending, e: Event, text: Bytes)
    requires Carries(p.event, p.key)
    ensures Carries(Merged(p, e, text).event, p.key)
  {
    assert ChunkOf(Merged(p, e, text).event) == ChunkOf(p.event);
  }

  lemma EmittedReads(pending: seq<Pending>)
    requires Coherent(pending)
    ensures Read(Emitted(pending)) == Items(Chunks(pending))
  {
    forall i | 0 <= i < |pending|
      ensures Read(Emitted(pending))[i] == Some(Chunk(pending[i].key, pending[i].text))
    {
      assert Carries(pending[i].event, pending[i].key);
      ChunkRoundTrip(pending[i].event, pending[i].text);
    }
  }

  lemma {:induction false} TakeInCoherent(pending: seq<Pending>, e: Event, chunk: Item)
    requires Coherent(pending) && chunk == ChunkOf(e)
    ensures Coherent(TakeIn(pending, e, chunk).pending)
  {
    if chunk.Some? {
      assert Carries(e, chunk.value.key);
      var i := Find(Chunks(pending), chunk.value.key);
      if i < |pending| {
        MergedCarries(pending[i], e, chunk.value.text);
      }
    }
  }

  lemma ChunksSnoc(pending: seq<Pending>, p: Pending)
    ensures Chunks(pending + [p]) == Chunks(pending) + [Chunk(p.key, p.text)]
  {
  }

  lemma ChunksUpdate(pending: seq<Pending>, i: nat, p: Pending)
    requires i < |pending|
    ensures Chunks(pending[i := p]) == Chunks(pending)[i := Chunk(p.key, p.text)]
  {
  }

  lemma ReadSnoc(events: seq<Event>, e: Event)
    ensures Read(events + [e]) == Read(events) + [ChunkOf(e)]
  {
  }

  /** Read as chunks, taking in an event is the merging rule. */
  lemma {:induction false} TakeInMerges(pending: seq<Pending>, e: Event, chunk: Item)
    requires Coherent(pending) && chunk == ChunkOf(e)
    ensures var r := TakeIn(pending, e, chunk);
      Progress(Chunks(r.pending), Read(r.out)) == StreamMerge.Ingest(Chunks(pending), chunk)
  {
    EmittedReads(pending);
    match chunk
    case None => ReadSnoc(Emitted(pending), e);
    case Some(c) =>
      var entry := Pending(c.key, e, c.text);
      ChunksSnoc(pending, entry);
      ChunksSnoc([], entry);
      var i := Find(Chunks(pending), c.key);
      if i < |pending| {
        ChunksUpdate(pending, i, Merged(pending[i], e, c.text));
      }
  }

  datatype Feed = Event(event: Event) | Tick

  function Next(pending: seq<Pending>, feed: Feed): State
    requires Coherent(pending)
  {
    match feed
    case Event(e) => TakeIn(pending, e, ChunkOf(e))
    case Tick => State([], Emitted(pending))
  }

  lemma {:induction false} NextMerges(pending: seq<Pending>, feed: Feed)
    requires Coherent(pending)
    ensures Coherent(Next(pending, feed).pending)
    ensures var r := Next(pending, feed);
      Progress(Chunks(r.pending), Read(r.out)) == Apply(Chunks(pending), OpOf(feed))
  {
    match feed
    case Event(e) =>
      TakeInCoherent(pending, e, ChunkOf(e));
      TakeInMerges(pending, e, ChunkOf(e));
    case Tick => EmittedReads(pending);
  }

  function OpOf(feed: Feed): Op {
    match feed
    case Event(e) => Take(ChunkOf(e))
    case Tick => Op.Flush
  }

  function OpsOf(feeds: seq<Feed>): (ops: seq<Op>)
    ensures |ops| == |feeds|
    ensures forall i :: 0 <= i < |ops| ==> ops[i] == OpOf(feeds[i])
  {
    seq(|feeds|, i requires 0 <= i < |feeds| => OpOf(feeds[i]))
  }

  /** From an empty coalescer: all that was emitted and what is left pending. */
  ghost function History(feeds: seq<Feed>): (r: State)
    ensures Coherent(r.pending)
  {
    if feeds == [] then State([], [])
    else
      var before := History(feeds[..|feeds| - 1]);
      NextMerges(before.pending, feeds[|feeds| - 1]);
      var after := Next(before.pending, feeds[|feeds| - 1]);
      State(after.pending, before.out + after.out)
  }

  /** Every history of events, read as chunks, is a run of the merging rule. */
  lemma {:induction false} HistoryMerges(feeds: seq<Feed>)
    ensures Progress(Chunks(History(feeds).pending), Read(History(feeds).out)) == Run(OpsOf(feeds))
    decreases feeds
  {
    if feeds == [] {
      assert Chunks([]) == [] && Read([]) == [];
    } else {
      var n := |feeds| - 1;
      HistoryMerges(feeds[..n]);
      var before := History(feeds[..n]);
      NextMerges(before.pending, feeds[n]);
      var after := Next(before.pending, feeds[n]);
      assert OpsOf(feeds)[..n] == OpsOf(feeds[..n]);
      ReadConcat(before.out, after.out);
      assert Apply(Chunks(before.pending), OpOf(feeds[n])) == Progress(Chunks(after.pending), Read(after.out));
      assert History(feeds) == State(after.pending, before.out + after.out);
      RunLast(OpsOf(feeds));
    }
  }

  lemma RunLast(ops: seq<Op>)
    requires ops != []
    ensures var before := Run(ops[..|ops| - 1]);
      Run(ops) == Then(before, Apply(before.pending, ops[|ops| - 1]))
  {
  }

  lemma ReadConcat(a: seq<Event>, b: seq<Event>)
    ensures Read(a + b) == Read(a) + Read(b)
  {
  }

  // ---------------------------------------------------------------- what follows

  function EventsOf(feeds: seq<Feed>): seq<Event> {
    if feeds == [] then []
    else
      var rest := EventsOf(feeds[..|feeds| - 1]);
      match feeds[|feeds| - 1]
      case Event(e) => rest + [e]
      case Tick => rest
  }

  lemma {:induction false} IngestedReads(feeds: seq<Feed>)
    ensures Ingested(OpsOf(feeds)) == Read(EventsOf(feeds))
    decreases feeds
  {
    if feeds != [] {
      var n := |feeds| - 1;
      IngestedReads(feeds[..n]);
      assert OpsOf(feeds)[..n] == OpsOf(feeds[..n]);
    }
  }

  /**
   * For every stream, the texts of the emitted events followed by the pending text are
   * the texts of the events taken in: nothing lost, doubled or reordered.
   */
  lemma StreamTextConserved(feeds: seq<Feed>, key: Key)
    ensures TextOf(Read(History(feeds).out), key) + PendingText(Chunks(History(feeds).pending), key)
      == TextOf(Read(EventsOf(feeds)), key)
    ensures Distinct(Chunks(History(feeds).pending))
  {
    HistoryMerges(feeds);
    IngestedReads(feeds);
    TextConserved(OpsOf(feeds), key);
    RunDistinct(OpsOf(feeds));
  }

  /** An emitted chunk of 60,000 bytes or more is one that came in with that very text. */
  lemma {:induction false} LargeChunksCameInWhole(feeds: seq<Feed>, i: nat)
    requires i < |History(feeds).out| && ChunkOf(History(feeds).out[i]).Some?
    requires |ChunkOf(History(feeds).out[i]).value.text| >= CHUNK_MAX_TEXT_BYTES
    ensures exists j :: 0 <= j < |EventsOf(feeds)| && ChunkOf(EventsOf(feeds)[j]) == ChunkOf(History(feeds).out[i])
  {
    HistoryMerges(feeds);
    IngestedReads(feeds);
    MergedTextsAreSmall(OpsOf(feeds));
    var c := ChunkOf(History(feeds).out[i]);
    assert Read(History(feeds).out)[i] == c;
    assert Sized(c.value, Ingested(OpsOf(feeds)));
    assert c in Read(EventsOf(feeds));
  }

  // ------------------------------------------------------- what a merged event is

  /** The entry has the number and time of its stream's latest event. */
  ghost predicate Latest(p: Pending, events: seq<Event>) {
    exists j :: 0 <= j < |events| && LatestAt(p, events, j)
  }

  ghost predicate LatestAt(p: Pending, events: seq<Event>, j: nat)
    requires j < |events|
  {
    && Carries(events[j], p.key)
    && p.event.envelope.seqNo == events[j].envelope.seqNo
    && p.event.envelope.timestamp == events[j].envelope.timestamp
    && forall k :: j < k < |events| ==> !Carries(events[k], p.key)
  }

  /** In everything else it is one earlier event of its stream. */
  ghost predicate Originates(p: Pending, events: seq<Event>) {
    exists e :: e in events && OriginatesIn(p, e)
  }

  ghost predicate OriginatesIn(p: Pending, e: Event) {
    && Carries(e, p.key)
    && p.event == e.(envelope := e.envelope.(seqNo := p.event.envelope.seqNo, timestamp := p.event.envelope.timestamp))
  }

  ghost predicate Traced(p: Pending, events: seq<Event>) {
    Latest(p, events) && Originates(p, events)
  }

  lemma TracedFurther(p: Pending, events: seq<Event>, e: Event)
    requires Traced(p, events) && !Carries(e, p.key)
    ensures Traced(p, events + [e])
  {
    var longer := events + [e];
    var j :| 0 <= j < |events| && LatestAt(p, events, j);
    assert LatestAt(p, longer, j);
    var o :| o in events && OriginatesIn(p, o);
    assert o in longer;
  }

  lemma TracedMerged(p: Pending, events: seq<Event>, e: Event, text: Bytes)
    requires Traced(p, events) && Carries(e, p.key)
    ensures Traced(Merged(p, e, text), events + [e])
  {
    var longer := events + [e];
    assert LatestAt(Merged(p, e, text), longer, |events|);
    var o :| o in events && OriginatesIn(p, o);
    assert o in longer && OriginatesIn(Merged(p, e, text), o);
  }

  lemma TracedNew(e: Event, key: Key, text: Bytes, events: seq<Event>)
    requires Carries(e, key)
    ensures Traced(Pending(key, e, text), events + [e])
  {
    var longer := events + [e];
    assert LatestAt(Pending(key, e, text), longer, |events|);
    assert longer[|events|] == e && OriginatesIn(Pending(key, e, text), e);
  }

  lemma TracedOther(p: Pending, events: seq<Event>, e: Event, key: Key)
    requires Traced(p, events) && Carries(e, key) && p.key != key
    ensures Traced(p, events + [e])
  {
    TracedFurther(p, events, e);
  }

  ghost predicate AllTraced(pending: seq<Pending>, events: seq<Event>) {
    forall i :: 0 <= i < |pending| ==> Traced(pending[i], events)
  }

  lemma OthersTraced(pending: seq<Pending>, events: seq<Event>, e: Event, key: Key)
    requires AllTraced(pending, events) && Carries(e, key)
    ensures forall i :: 0 <= i < |pending| && pending[i].key != key ==> Traced(pending[i], events + [e])
  {
    forall i | 0 <= i < |pending| && pending[i].key != key ensures Traced(pending[i], events + [e]) {
      TracedOther(pending[i], events, e, key);
    }
  }

  lemma TakeInWhere(pending: seq<Pending>, e: Event, chunk: Chunk)
    requires Coherent(pending)
    ensures var after, at, p := TakeIn(pending, e, Some(chunk)).pending, Find(Chunks(pending), chunk.key), Pending(chunk.key, e, chunk.text);
      if at == |pending| then after == pending + [p]
      else after == [p] || after == pending[at := Merged(pending[at], e, chunk.text)]
  {
  }

  lemma AppendTraced(pending: seq<Pending>, p: Pending, events: seq<Event>)
    requires AllTraced(pending, events) && Traced(p, events)
    ensures AllTraced(pending + [p], events)
  {
  }

  lemma UpdateTraced(pending: seq<Pending>, at: nat, p: Pending, events: seq<Event>)
    requires at < |pending| && Traced(p, events)
    requires forall i :: 0 <= i < |pending| && i != at ==> Traced(pending[i], events)
    ensures AllTraced(pending[at := p], events)
  {
  }

  lemma NewTraced(pending: seq<Pending>, e: Event, chunk: Chunk, events: seq<Event>)
    requires AllTraced(pending, events) && Carries(e, chunk.key) && Find(Chunks(pending), chunk.key) == |pending|
    ensures AllTraced(pending + [Pending(chunk.key, e, chunk.text)], events + [e])
  {
    TracedNew(e, chunk.key, chunk.text, events);
    OthersTraced(pending, events, e, chunk.key);
    assert forall i :: 0 <= i < |pending| ==> Chunks(pending)[i].key != chunk.key;
    AppendTraced(pending, Pending(chunk.key, e, chunk.text), events + [e]);
  }

  lemma OneTraced(e: Event, chunk: Chunk, events: seq<Event>)
    requires Carries(e, chunk.key)
    ensures AllTraced([Pending(chunk.key, e, chunk.text)], events + [e])
  {
    TracedNew(e, chunk.key, chunk.text, events);
  }

  lemma MergedTraced(pending: seq<Pending>, at: nat, e: Event, chunk: Chunk, events: seq<Event>)
    requires AllTraced(pending, events) && Distinct(Chunks(pending)) && Carries(e, chunk.key)
    requires at < |pending| && pending[at].key == chunk.key
    ensures AllTraced(pending[at := Merged(pending[at], e, chunk.text)], events + [e])
  {
    TracedMerged(pending[at], events, e, chunk.text);
    OthersTraced(pending, events, e, chunk.key);
    assert forall i :: 0 <= i < |pending| && i != at ==> Chunks(pending)[i].key != Chunks(pending)[at].key;
    UpdateTraced(pending, at, Merged(pending[at], e, chunk.text), events + [e]);
  }

  lemma {:induction false} TakeInTraced(pending: seq<Pending>, e: Event, chunk: Chunk, events: seq<Event>)
    requires Coherent(pending) && Distinct(Chunks(pending)) && Carries(e, chunk.key)
    requires AllTraced(pending, events)
    ensures AllTraced(TakeIn(pending, e, Some(chunk)).pending, events + [e])
  {
    var at := Find(Chunks(pending), chunk.key);
    TakeInWhere(pending, e, chunk);
    if at == |pending| {
      NewTraced(pending, e, chunk, events);
    } else {
      MergedTraced(pending, at, e, chunk, events);
      OneTraced(e, chunk, events);
    }
  }

  /**
   * A pending entry, which is what will be emitted, carries the number and time of the
   * last event of its stream; the rest of it is the event the entry was opened with.
   */
  lemma {:induction false} PendingTraced(feeds: seq<Feed>, i: nat)
    requires i < |History(feeds).pending|
    ensures Traced(History(feeds).pending[i], EventsOf(feeds))
    decreases feeds
  {
    var n := |feeds| - 1;
    var before := History(feeds[..n]);
    forall j | 0 <= j < |before.pending| ensures Traced(before.pending[j], EventsOf(feeds[..n])) {
      PendingTraced(feeds[..n], j);
    }
    assert AllTraced(before.pending, EventsOf(feeds[..n]));
    if feeds[n].Event? && ChunkOf(feeds[n].event).Some? {
      HistoryMerges(feeds[..n]);
      RunDistinct(OpsOf(feeds[..n]));
      TakeInTraced(before.pending, feeds[n].event, ChunkOf(feeds[n].event).value, EventsOf(feeds[..n]));
    }
  }

  // ------------------------------------------------------------ order of the numbers

  /** The events' numbers strictly rise. */
  predicate Rising(events: seq<Event>) {
    forall i, j :: 0 <= i < j < |events| ==> events[i].envelope.seqNo < events[j].envelope.seqNo
  }

  /** Each stream's latest chunk came after the latest chunk of every stream opened before it. */
  predicate InTurn(pending: seq<Pending>) {
    forall i, j :: 0 <= i < j < |pending| ==> pending[i].event.envelope.seqNo < pending[j].event.envelope.seqNo
  }

  /** Everything emitted is older than everything pending, and nothing is newer than `top`. */
  predicate Layered(s: State, top: int) {
    && (forall i :: 0 <= i < |s.out| ==> s.out[i].envelope.seqNo <= top)
    && (forall j :: 0 <= j < |s.pending| ==> s.pending[j].event.envelope.seqNo <= top)
    && Before(s.out, s.pending)
  }

  /** The number of the latest event taken in. */
  function Top(events: seq<Event>): int {
    if events == [] then -1 else events[|events| - 1].envelope.seqNo
  }

  predicate Before(out: seq<Event>, pending: seq<Pending>) {
    forall i, j :: 0 <= i < |out| && 0 <= j < |pending| ==>
      out[i].envelope.seqNo < pending[j].event.envelope.seqNo
  }

  lemma EmittedAt(out: seq<Event>, pending: seq<Pending>)
    requires Coherent(pending)
    ensures var all := out + Emitted(pending);
      && |all| == |out| + |pending|
      && (forall i :: 0 <= i < |out| ==> all[i] == out[i])
      && forall j :: |out| <= j < |all| ==> all[j].envelope == pending[j - |out|].event.envelope
  {
  }

  lemma RisingApart(all: seq<Event>, out: seq<Event>, pending: seq<Pending>)
    requires |all| == |out| + |pending|
    requires forall i :: 0 <= i < |out| ==> all[i] == out[i]
    requires forall j :: |out| <= j < |all| ==> all[j].envelope == pending[j - |out|].event.envelope
    requires Rising(all)
    ensures Rising(out) && InTurn(pending)
  {
    forall i, j | 0 <= i < j < |pending|
      ensures pending[i].event.envelope.seqNo < pending[j].event.envelope.seqNo
    {
      assert all[|out| + i].envelope.seqNo < all[|out| + j].envelope.seqNo;
    }
  }

  lemma EmittedRising(out: seq<Event>, pending: seq<Pending>)
    requires Coherent(pending) && Before(out, pending)
    ensures Rising(out + Emitted(pending)) <==> Rising(out) && InTurn(pending)
  {
    var all := out + Emitted(pending);
    EmittedAt(out, pending);
    if Rising(all) {
      RisingApart(all, out, pending);
    }
  }

  lemma RisingSnoc(events: seq<Event>, e: Event)
    requires forall i :: 0 <= i < |events| ==> events[i].envelope.seqNo < e.envelope.seqNo
    ensures Rising(events + [e]) <==> Rising(events)
  {
    assert forall i :: 0 <= i < |events| ==> (events + [e])[i] == events[i];
  }

  lemma LayeredFlushed(before: State, top: int, e: Event)
    requires Coherent(before.pending) && Layered(before, top) && top < e.envelope.seqNo
    ensures Layered(State([], before.out + (Emitted(before.pending) + [e])), e.envelope.seqNo)
    ensures forall p: Pending :: p.event == e ==>
      Layered(State([p], before.out + Emitted(before.pending)), e.envelope.seqNo)
  {
    EmittedAt(before.out, before.pending);
    assert before.out + (Emitted(before.pending) + [e]) == before.out + Emitted(before.pending) + [e];
  }

  lemma LayeredMore(before: State, top: int, e: Event, pending: seq<Pending>)
    requires Layered(before, top) && top < e.envelope.seqNo
    requires forall j :: 0 <= j < |pending| ==>
      pending[j].event.envelope.seqNo == e.envelope.seqNo || (j < |before.pending| && pending[j] == before.pending[j])
    ensures Layered(State(pending, before.out), e.envelope.seqNo)
  {
  }

  lemma {:induction false} TakeInLayered(before: State, top: int, e: Event, chunk: Item)
    requires Coherent(before.pending) && Layered(before, top) && top < e.envelope.seqNo
    ensures var after := TakeIn(before.pending, e, chunk);
      Layered(State(after.pending, before.out + after.out), e.envelope.seqNo)
  {
    LayeredFlushed(before, top, e);
    var after := TakeIn(before.pending, e, chunk);
    if after.out == [] {
      assert before.out + after.out == before.out;
      LayeredMore(before, top, e, after.pending);
    }
  }

  lemma FlushedRising(out: seq<Event>, pending: seq<Pending>, e: Event)
    requires Coherent(pending) && Before(out, pending)
    requires forall i :: 0 <= i < |out| ==> out[i].envelope.seqNo < e.envelope.seqNo
    requires forall j :: 0 <= j < |pending| ==> pending[j].event.envelope.seqNo < e.envelope.seqNo
    ensures Rising(out + (Emitted(pending) + [e])) <==> Rising(out) && InTurn(pending)
  {
    EmittedAt(out, pending);
    EmittedRising(out, pending);
    RisingSnoc(out + Emitted(pending), e);
    assert out + (Emitted(pending) + [e]) == out + Emitted(pending) + [e];
  }

  lemma {:induction false} TakeInRising(before: State, top: int, e: Event, chunk: Item)
    requires Coherent(before.pending) && Layered(before, top) && top < e.envelope.seqNo
    ensures var out := TakeIn(before.pending, e, chunk).out;
      Rising(before.out + out) <==> Rising(before.out) && (out != [] ==> InTurn(before.pending))
  {
    FlushedRising(before.out, before.pending, e);
    EmittedRising(before.out, before.pending);
    assert before.out + [] == before.out;
  }

  lemma NextRising(before: State, top: int, feed: Feed)
    requires Coherent(before.pending) && Layered(before, top)
    requires feed.Event? ==> top < feed.event.envelope.seqNo
    ensures var after := Next(before.pending, feed);
      && Layered(State(after.pending, before.out + after.out), if feed.Event? then feed.event.envelope.seqNo else top)
      && (Rising(before.out + after.out) <==> Rising(before.out) && EmitsInTurn(before.pending, feed))
  {
    match feed
    case Event(e) =>
      TakeInLayered(before, top, e, ChunkOf(e));
      TakeInRising(before, top, e, ChunkOf(e));
    case Tick => EmittedRising(before.out, before.pending);
  }

  lemma EventsSnoc(events: seq<Event>, e: Event)
    requires Rising(events + [e])
    ensures Rising(events) && Top(events) < e.envelope.seqNo == Top(events + [e])
  {
    var longer := events + [e];
    assert forall i :: 0 <= i < |events| ==> longer[i] == events[i];
    assert longer[|events|] == e;
  }

  /** If the feed makes the coalescer emit, what is pending is in turn. */
  predicate EmitsInTurn(pending: seq<Pending>, feed: Feed)
    requires Coherent(pending)
  {
    Next(pending, feed).out != [] ==> InTurn(pending)
  }

  ghost predicate EmitsInTurnAt(feeds: seq<Feed>, k: nat)
    requires k < |feeds|
  {
    EmitsInTurn(History(feeds[..k]).pending, feeds[k])
  }

  lemma HistorySnoc(feeds: seq<Feed>, feed: Feed)
    ensures var before, after := History(feeds), Next(History(feeds).pending, feed);
      History(feeds + [feed]) == State(after.pending, before.out + after.out)
  {
    assert (feeds + [feed])[..|feeds|] == feeds;
  }

  lemma EventsOfSnoc(feeds: seq<Feed>, feed: Feed)
    ensures EventsOf(feeds + [feed]) == EventsOf(feeds) + (if feed.Event? then [feed.event] else [])
  {
    assert (feeds + [feed])[..|feeds|] == feeds;
  }

  lemma EmitsBefore(feeds: seq<Feed>, feed: Feed, k: nat)
    requires k < |feeds|
    ensures EmitsInTurnAt(feeds + [feed], k) == EmitsInTurnAt(feeds, k)
  {
    assert (feeds + [feed])[..k] == feeds[..k];
  }

  lemma EmitsLast(feeds: seq<Feed>, feed: Feed)
    ensures EmitsInTurnAt(feeds + [feed], |feeds|) == EmitsInTurn(History(feeds).pending, feed)
  {
    assert (feeds + [feed])[..|feeds|] == feeds;
  }

  lemma EmitsSnoc(feeds: seq<Feed>, feed: Feed)
    ensures (forall k :: 0 <= k < |feeds + [feed]| ==> EmitsInTurnAt(feeds + [feed], k)) <==>
      && (forall k :: 0 <= k < |feeds| ==> EmitsInTurnAt(feeds, k))
      && EmitsInTurn(History(feeds).pending, feed)
  {
    forall k | 0 <= k < |feeds| ensures EmitsInTurnAt(feeds + [feed], k) == EmitsInTurnAt(feeds, k) {
      EmitsBefore(feeds, feed, k);
    }
    EmitsLast(feeds, feed);
  }

  /**
   * When the events taken in are numbered in order, the emitted numbers fall exactly
   * when something is emitted while a stream has been continued after a later one was
   * opened, and the later one not since.
   */
  lemma {:induction false} NumbersRiseIff(feeds: seq<Feed>)
    requires Rising(EventsOf(feeds))
    ensures Layered(History(feeds), Top(EventsOf(feeds)))
    ensures Rising(History(feeds).out) <==> forall k :: 0 <= k < |feeds| ==> EmitsInTurnAt(feeds, k)
    decreases feeds
  {
    if feeds != [] {
      var init, last := feeds[..|feeds| - 1], feeds[|feeds| - 1];
      assert feeds == init + [last];
      EventsOfSnoc(init, last);
      if last.Event? {
        EventsSnoc(EventsOf(init), last.event);
      }
      NumbersRiseIff(init);
      HistorySnoc(init, last);
      NextRising(History(init), Top(EventsOf(init)), last);
      EmitsSnoc(init, last);
    }
  }

  predicate Opens(pending: seq<Pending>, e: Event, p: Pending) {
    ChunkOf(e) == Some(Chunk(p.key, p.text)) && p.event == e && forall i :: 0 <= i < |pending| ==> pending[i].key != p.key
  }

  lemma OpensPending(feeds: seq<Feed>, pending: seq<Pending>, e: Event, p: Pending)
    requires History(feeds) == State(pending, []) && Opens(pending, e, p)
    ensures History(feeds + [Feed.Event(e)]) == State(pending + [p], [])
  {
    HistorySnoc(feeds, Feed.Event(e));
  }

  lemma ContinuesFirst(feeds: seq<Feed>, pending: seq<Pending>, e: Event, text: Bytes)
    requires pending != [] && History(feeds) == State(pending, [])
    requires ChunkOf(e) == Some(Chunk(pending[0].key, text)) && |pending[0].text| + |text| < CHUNK_MAX_TEXT_BYTES
    ensures History(feeds + [Feed.Event(e)]) == State(pending[0 := Merged(pending[0], e, text)], [])
  {
    HistorySnoc(feeds, Feed.Event(e));
  }

  lemma FlushesTwo(feeds: seq<Feed>, pending: seq<Pending>)
    requires |pending| == 2 && History(feeds) == State(pending, [])
    ensures var out := History(feeds + [Tick]).out;
      |out| == 2 && out[0].envelope == pending[0].event.envelope && out[1].envelope == pending[1].event.envelope
  {
    HistorySnoc(feeds, Tick);
  }

  /** The smallest such case: one stream, another, the first again, then a flush. */
  lemma {:induction false} InterleavingFalls(a: Event, b: Event, c: Event)
    requires ChunkOf(a).Some? && ChunkOf(b).Some? && ChunkOf(c).Some?
    requires ChunkOf(a).value.key == ChunkOf(c).value.key != ChunkOf(b).value.key
    requires |ChunkOf(a).value.text| + |ChunkOf(c).value.text| < CHUNK_MAX_TEXT_BYTES
    requires a.envelope.seqNo < b.envelope.seqNo < c.envelope.seqNo
    ensures var out := History([Feed.Event(a), Feed.Event(b)] + [Feed.Event(c)] + [Tick]).out;
      |out| == 2 && out[0].envelope.seqNo == c.envelope.seqNo > out[1].envelope.seqNo == b.envelope.seqNo
  {
    var x, y, z := ChunkOf(a).value, ChunkOf(b).value, ChunkOf(c).value;
    var p, q := Pending(x.key, a, x.text), Pending(y.key, b, y.text);
    TwoOpen(a, b, p, q);
    ContinuedThenFlushed([Feed.Event(a), Feed.Event(b)], [p, q], c, z.text);
  }

  lemma ContinuedThenFlushed(feeds: seq<Feed>, pending: seq<Pending>, e: Event, text: Bytes)
    requires |pending| == 2 && History(feeds) == State(pending, [])
    requires ChunkOf(e) == Some(Chunk(pending[0].key, text)) && |pending[0].text| + |text| < CHUNK_MAX_TEXT_BYTES
    ensures var out := History(feeds + [Feed.Event(e)] + [Tick]).out;
      |out| == 2 && out[0].envelope.seqNo == e.envelope.seqNo && out[1].envelope == pending[1].event.envelope
  {
    ContinuesFirst(feeds, pending, e, text);
    FlushesTwo(feeds + [Feed.Event(e)], pending[0 := Merged(pending[0], e, text)]);
  }

  lemma {:induction false} TwoOpen(a: Event, b: Event, p: Pending, q: Pending)
    requires Opens([], a, p) && Opens([p], b, q)
    ensures History([Feed.Event(a), Feed.Event(b)]) == State([p, q], [])
  {
    var f, g := Feed.Event(a), Feed.Event(b);
    OpensPending([], [], a, p);
    assert [] + [f] == [f] && [f] + [g] == [f, g];
    OpensPending([f], [p], b, q);
  }

  // ------------------------------------------------------------------ the coalescer

  lemma TakeInValid(pending: seq<Pending>, e: Event, chunk: Item)
    requires Coherent(pending) && Distinct(Chunks(pending)) && chunk == ChunkOf(e)
    ensures Coherent(TakeIn(pending, e, chunk).pending)
    ensures Distinct(Chunks(TakeIn(pending, e, chunk).pending))
  {
    TakeInCoherent(pending, e, chunk);
    TakeInMerges(pending, e, chunk);
    IngestDistinct(Chunks(pending), chunk);
  }

  class ObserverChunkCoalescer {
    var pending: seq<Pending>

    ghost predicate Valid() reads this { Coherent(pending) && Distinct(Chunks(pending)) }

    constructor ()
      ensures Valid() && pending == []
    {
      pending := [];
    }

    /** Drains the pending entries in order. */
    method Flush() returns (events: seq<Event>)
      requires Valid()
      modifies this
      ensures Valid()
      ensures State(pending, events) == Next(old(pending), Tick)
    {
      events := [];
      var i := 0;
      while i < |pending|
        invariant pending == old(pending)
        invariant 0 <= i <= |pending|
        invariant events == Emitted(pending)[..i]
      {
        assert Carries(pending[i].event, pending[i].key);
        events := events + [WithText(pending[i].event, pending[i].text)];
        i := i + 1;
      }
      pending := [];
    }

    method Ingest(event: Event) returns (events: seq<Event>)
      requires Valid()
      modifies this
      ensures Valid()
      ensures State(pending, events) == Next(old(pending), Feed.Event(event))
    {
      var found := ChunkOf(event);
      TakeInValid(pending, event, found);
      events := Accept(event, found);
    }

    method Accept(event: Event, found: Item) returns (events: seq<Event>)
      requires Valid()
      requires Coherent(TakeIn(pending, event, found).pending)
      requires Distinct(Chunks(TakeIn(pending, event, found).pending))
      modifies this
      ensures Valid()
      ensures State(pending, events) == TakeIn(old(pending), event, found)
    {
      if found.None? {
        events := Flush();
        events := events + [event];
        return;
      }
      var key, text := found.value.key, found.value.text;
      var i := Position(key);
      if i < |pending| {
        if |pending[i].text| + |text| >= CHUNK_MAX_TEXT_BYTES {
          events := Flush();
          pending := [Pending(key, event, text)];
          return;
        }
        pending := pending[i := Merged(pending[i], event, text)];
        events := [];
        return;
      }
      pending := pending + [Pending(key, event, text)];
      events := [];
    }

    method Position(key: Key) returns (i: nat)
      ensures i == Find(Chunks(pending), key)
    {
      ghost var shadow := Chunks(pending);
      i := 0;
      while i < |pending| && pending[i].key != key
        invariant i <= |pending|
        invariant forall j :: 0 <= j < i ==> shadow[j].key != key
      {
        i := i + 1;
      }
      FindFirst(shadow, key, i);
    }
  }

  lemma FindFirst(pending: seq<Chunk>, key: Key, i: nat)
    requires i <= |pending| && (i < |pending| ==> pending[i].key == key)
    requires forall j :: 0 <= j < i ==> pending[j].key != key
    ensures Find(pending, key) == i
  {
  }
}
