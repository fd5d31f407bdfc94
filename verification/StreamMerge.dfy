/**
 * The merging rule of the observer coalescer, on chunks alone: an item is a chunk of
 * some stream, or nothing for an event that is no chunk.
 */
module StreamMerge {
  import opened Prelude
  import opened Utf8

  const CHUNK_MAX_TEXT_BYTES := 60_000

  datatype Key = Key(
    updateType: Bytes,
    messageId: Option<Bytes>,
    channelId: Option<Bytes>,
    sessionId: Option<Bytes>,
    turnId: Option<Bytes>,
    agentIndex: Option<nat>)

  datatype Chunk = Chunk(key: Key, text: Bytes)

  type Item = Option<Chunk>

  /** Position of the pending chunk of a stream. */
  function Find(pending: seq<Chunk>, key: Key): (i: nat)
    ensures i <= |pending| && (i < |pending| ==> pending[i].key == key)
    ensures forall j :: 0 <= j < i ==> pending[j].key != key
  {
    if pending == [] || pending[0].key == key then 0 else 1 + Find(pending[1..], key)
  }

  /** At most one pending chunk per stream. */
  predicate Distinct(pending: seq<Chunk>) {
    forall i, j :: 0 <= i < j < |pending| ==> pending[i].key != pending[j].key
  }

  function Items(pending: seq<Chunk>): seq<Item> {
    seq(|pending|, i requires 0 <= i < |pending| => Some(pending[i]))
  }

  datatype Progress = Progress(pending: seq<Chunk>, out: seq<Item>)

  /** One item in. Anything but a chunk flushes first; so does a chunk its stream has no room for. */
  function Ingest(pending: seq<Chunk>, item: Item): Progress {
    match item
    case None => Progress([], Items(pending) + [None])
    case Some(chunk) =>
      var i := Find(pending, chunk.key);
      if i == |pending| then Progress(pending + [chunk], [])
      else if |pending[i].text| + |chunk.text| >= CHUNK_MAX_TEXT_BYTES then Progress([chunk], Items(pending))
      else Progress(pending[i := Chunk(chunk.key, pending[i].text + chunk.text)], [])
  }

  datatype Op = Take(item: Item) | Flush

  function Apply(pending: seq<Chunk>, op: Op): Progress {
    match op
    case Take(item) => Ingest(pending, item)
    case Flush => Progress([], Items(pending))
  }

  /** From an empty coalescer: everything emitted, and what is left pending. */
  function Run(ops: seq<Op>): Progress {
    if ops == [] then Progress([], [])
    else
      var before := Run(ops[..|ops| - 1]);
      var after := Apply(before.pending, ops[|ops| - 1]);
      Progress(after.pending, before.out + after.out)
  }

  lemma IngestDistinct(pending: seq<Chunk>, item: Item)
    requires Distinct(pending)
    ensures Distinct(Ingest(pending, item).pending)
  {
  }

  lemma {:induction false} RunDistinct(ops: seq<Op>)
    ensures Distinct(Run(ops).pending)
  {
    if ops != [] {
      RunDistinct(ops[..|ops| - 1]);
    }
  }

  // ------------------------------------------------------------------ conservation

  function TextIn(item: Item, key: Key): Bytes {
    if item.Some? && item.value.key == key then item.value.text else []
  }

  /** The text of one stream in a sequence of items. */
  function TextOf(items: seq<Item>, key: Key): Bytes {
    if items == [] then [] else TextOf(items[..|items| - 1], key) + TextIn(items[|items| - 1], key)
  }

  function Ingested(ops: seq<Op>): seq<Item> {
    if ops == [] then []
    else
      var rest := Ingested(ops[..|ops| - 1]);
      match ops[|ops| - 1]
      case Take(item) => rest + [item]
      case Flush => rest
  }

  function PendingText(pending: seq<Chunk>, key: Key): Bytes {
    var i := Find(pending, key);
    if i < |pending| then pending[i].text else []
  }

  lemma {:induction false} TextOfConcat(a: seq<Item>, b: seq<Item>, key: Key)
    ensures TextOf(a + b, key) == TextOf(a, key) + TextOf(b, key)
    decreases b
  {
    if b == [] {
      assert a + b == a;
    } else {
      var n := |b| - 1;
      assert (a + b)[..|a| + n] == a + b[..n] && (a + b)[|a| + n] == b[n];
      TextOfConcat(a, b[..n], key);
    }
  }

  lemma TextOfSnoc(a: seq<Item>, x: Item, key: Key)
    ensures TextOf(a + [x], key) == TextOf(a, key) + TextIn(x, key)
  {
    assert (a + [x])[..|a|] == a;
  }

  lemma FindSnoc(pending: seq<Chunk>, p: Chunk, key: Key)
    ensures Find(pending + [p], key) ==
      if Find(pending, key) < |pending| || p.key == key then Find(pending, key) else |pending| + 1
  {
    if pending != [] && pending[0].key != key {
      assert (pending + [p])[1..] == pending[1..] + [p];
      FindSnoc(pending[1..], p, key);
    } else if pending == [] {
      assert (pending + [p])[1..] == [];
    }
  }

  lemma FindUpdate(pending: seq<Chunk>, i: nat, p: Chunk, key: Key)
    requires i < |pending| && p.key == pending[i].key
    ensures Find(pending[i := p], key) == Find(pending, key)
  {
    assert forall k :: 0 <= k < |pending| ==> pending[i := p][k].key == pending[k].key;
  }

  lemma ItemsSnoc(pending: seq<Chunk>, p: Chunk)
    ensures Items(pending + [p]) == Items(pending) + [Some(p)]
  {
  }

  lemma PendingTextSnoc(pending: seq<Chunk>, p: Chunk, key: Key)
    ensures PendingText(pending + [p], key) ==
      if Find(pending, key) < |pending| then PendingText(pending, key) else if p.key == key then p.text else []
  {
    FindSnoc(pending, p, key);
  }

  lemma FlushedSnoc(pending: seq<Chunk>, p: Chunk, key: Key)
    requires Distinct(pending + [p]) && TextOf(Items(pending), key) == PendingText(pending, key)
    ensures TextOf(Items(pending + [p]), key) == PendingText(pending + [p], key)
  {
    ItemsSnoc(pending, p);
    TextOfSnoc(Items(pending), Some(p), key);
    PendingTextSnoc(pending, p, key);
    var i := Find(pending, key);
    assert (pending + [p])[|pending|] == p && (i < |pending| ==> (pending + [p])[i].key == key);
  }

  /** Flushing emits exactly the pending text of each stream. */
  lemma {:induction false} FlushedText(pending: seq<Chunk>, key: Key)
    requires Distinct(pending)
    ensures TextOf(Items(pending), key) == PendingText(pending, key)
    decreases pending
  {
    if pending != [] {
      var n := |pending| - 1;
      FlushedText(pending[..n], key);
      assert pending == pending[..n] + [pending[n]];
      FlushedSnoc(pending[..n], pending[n], key);
    }
  }

  lemma IngestText(pending: seq<Chunk>, item: Item, key: Key)
    requires Distinct(pending)
    ensures var r := Ingest(pending, item);
      TextOf(r.out, key) + PendingText(r.pending, key) == PendingText(pending, key) + TextIn(item, key)
  {
    FlushedText(pending, key);
    match item
    case None => TextOfSnoc(Items(pending), None, key);
    case Some(chunk) =>
      var i := Find(pending, chunk.key);
      if i == |pending| {
        FindSnoc(pending, chunk, key);
      } else if |pending[i].text| + |chunk.text| < CHUNK_MAX_TEXT_BYTES {
        FindUpdate(pending, i, Chunk(chunk.key, pending[i].text + chunk.text), key);
      }
  }

  lemma Assoc(a: Bytes, b: Bytes, c: Bytes)
    ensures (a + b) + c == a + (b + c)
  {
  }

  /**
   * No text is lost, repeated or reordered: for every stream, what was emitted followed
   * by what is pending is the concatenation of the chunks taken in.
   */
  lemma {:induction false} TextConserved(ops: seq<Op>, key: Key)
    ensures TextOf(Run(ops).out, key) + PendingText(Run(ops).pending, key) == TextOf(Ingested(ops), key)
    decreases ops
  {
    if ops != [] {
      var n := |ops| - 1;
      TextConserved(ops[..n], key);
      RunDistinct(ops[..n]);
      var before := Run(ops[..n]);
      var after := Apply(before.pending, ops[n]);
      TextOfConcat(before.out, after.out, key);
      Assoc(TextOf(before.out, key), TextOf(after.out, key), PendingText(after.pending, key));
      match ops[n]
      case Flush => FlushedText(before.pending, key);
      case Take(item) =>
        IngestText(before.pending, item, key);
        TextOfSnoc(Ingested(ops[..n]), item, key);
        Assoc(TextOf(before.out, key), PendingText(before.pending, key), TextIn(item, key));
    }
  }

  // ------------------------------------------------------------------------- sizes

  /** Either a single chunk as it came in, or a merged text below the limit. */
  predicate Sized(chunk: Chunk, taken: seq<Item>) {
    |chunk.text| < CHUNK_MAX_TEXT_BYTES || Some(chunk) in taken
  }

  /** Whatever is emitted or pending and was merged from several chunks is under 60,000 bytes. */
  lemma {:induction false} MergedTextsAreSmall(ops: seq<Op>)
    ensures forall c :: Some(c) in Run(ops).out || c in Run(ops).pending ==> Sized(c, Ingested(ops))
    decreases ops
  {
    if ops != [] {
      var n := |ops| - 1;
      MergedTextsAreSmall(ops[..n]);
      var before := Run(ops[..n]);
      SizedStep(before.pending, ops[n], Ingested(ops[..n]), Ingested(ops));
      assert forall c :: Sized(c, Ingested(ops[..n])) ==> Sized(c, Ingested(ops));
    }
  }

  lemma SizedLater(c: Chunk, taken: seq<Item>, now: seq<Item>)
    requires Sized(c, taken) && forall x :: x in taken ==> x in now
    ensures Sized(c, now)
  {
  }

  lemma ItemsMember(pending: seq<Chunk>, c: Chunk)
    requires Some(c) in Items(pending)
    ensures c in pending
  {
    var i :| 0 <= i < |pending| && Items(pending)[i] == Some(c);
    assert pending[i] == c;
  }

  /** An emitted or pending chunk was pending, came in now, or was merged below the limit. */
  lemma IngestedFrom(pending: seq<Chunk>, item: Item, c: Chunk)
    requires var r := Ingest(pending, item); Some(c) in r.out || c in r.pending
    ensures c in pending || Some(c) == item || |c.text| < CHUNK_MAX_TEXT_BYTES
  {
    if Some(c) in Items(pending) {
      ItemsMember(pending, c);
    }
  }

  lemma {:induction false} SizedStep(pending: seq<Chunk>, op: Op, taken: seq<Item>, now: seq<Item>)
    requires forall c :: c in pending ==> Sized(c, taken)
    requires now == if op.Take? then taken + [op.item] else taken
    ensures var r := Apply(pending, op);
      forall c :: Some(c) in r.out || c in r.pending ==> Sized(c, now)
    ensures forall x :: x in taken ==> x in now
  {
    var r := Apply(pending, op);
    forall c | Some(c) in r.out || c in r.pending ensures Sized(c, now) {
      match op
      case Flush => ItemsMember(pending, c);
      case Take(item) =>
        IngestedFrom(pending, item, c);
        if c in pending {
          SizedLater(c, taken, now);
        }
    }
  }

  // ------------------------------------------------------------------------- order

  function Then(before: Progress, after: Progress): Progress {
    Progress(after.pending, before.out + after.out)
  }

  lemma RunSnoc(a: seq<Op>, op: Op)
    ensures Run(a + [op]) == Then(Run(a), Apply(Run(a).pending, op))
  {
    assert (a + [op])[..|a|] == a;
  }

  lemma ThenAssoc(x: Progress, y: Progress, z: Progress)
    ensures Then(Then(x, y), z) == Then(x, Then(y, z))
  {
    assert x.out + y.out + z.out == x.out + (y.out + z.out);
  }

  lemma {:induction false} RunConcat(a: seq<Op>, b: seq<Op>)
    requires Run(a).pending == []
    ensures Run(a + b) == Then(Run(a), Run(b))
    decreases b
  {
    if b == [] {
      assert a + b == a;
    } else {
      var n := |b| - 1;
      var last := Apply(Run(b[..n]).pending, b[n]);
      assert a + b == (a + b[..n]) + [b[n]] && b == b[..n] + [b[n]];
      RunConcat(a, b[..n]);
      RunSnoc(a + b[..n], b[n]);
      RunSnoc(b[..n], b[n]);
      ThenAssoc(Run(a), Run(b[..n]), last);
    }
  }

  /**
   * Nothing crosses an event that is no chunk: all that came before it is emitted
   * before it, it is emitted next, and what follows starts from an empty coalescer.
   */
  lemma {:induction false} NothingCrosses(a: seq<Op>, b: seq<Op>)
    ensures Run(a + [Take(None)] + b) ==
      Progress(Run(b).pending, Run(a).out + Items(Run(a).pending) + [None] + Run(b).out)
  {
    var c := a + [Take(None)];
    assert c[..|a|] == a;
    assert Run(c) == Progress([], Run(a).out + (Items(Run(a).pending) + [None]));
    RunConcat(c, b);
  }

  /** The same for a flush. */
  lemma {:induction false} NothingCrossesFlush(a: seq<Op>, b: seq<Op>)
    ensures Run(a + [Flush] + b) ==
      Progress(Run(b).pending, Run(a).out + Items(Run(a).pending) + Run(b).out)
  {
    var c := a + [Flush];
    assert c[..|a|] == a;
    RunConcat(c, b);
  }
}
