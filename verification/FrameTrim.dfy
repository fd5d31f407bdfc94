/** Trimming an oversized observer frame: the longest string leaf that can shrink is elided until the frame fits. */
module FrameTrim {
  import opened Prelude
  import opened Utf8
  import opened Json
  import opened Elision

  const MAX_PLAINTEXT_LEN := 65_535

  // --------------------------------------------------------------- leaf search

  /** The greatest length among the string leaves that can shrink. */
  function MaxShrinkable(v: Json): Option<nat>
    decreases v
  {
    match v
    case Str(s) => if LeafShrinks(s) then Some(|s|) else None
    case Arr(items) => MaxShrinkables(items)
    case Obj(_, values) => MaxShrinkables(values)
    case _ => None
  }

  function MaxShrinkables(items: seq<Json>): Option<nat>
    decreases items
  {
    if items == [] then None
    else match (MaxShrinkable(items[0]), MaxShrinkables(items[1..]))
         case (None, rest) => rest
         case (first, None) => first
         case (Some(a), Some(b)) => Some(if a >= b then a else b)
  }

  predicate Wanted(s: Bytes, target: nat) {
    |s| == target && LeafShrinks(s)
  }

  /** The first shrinkable leaf of length `target`, in document order. */
  function FindLeaf(v: Json, target: nat): Option<Path>
    decreases v
  {
    match v
    case Str(s) => if Wanted(s, target) then Some([]) else None
    case Arr(items) => FindIn(items, target)
    case Obj(_, values) => FindIn(values, target)
    case _ => None
  }

  function FindIn(items: seq<Json>, target: nat): (p: Option<Path>)
    ensures p.Some? ==> p.value != []
    decreases items
  {
    if items == [] then None
    else match FindLeaf(items[0], target)
         case Some(p) => Some([0] + p)
         case None =>
           match FindIn(items[1..], target)
           case Some(q) => Some([q[0] + 1] + q[1..])
           case None => None
  }

  /** Leaf addresses below a list of children. */
  function LeafIn(items: seq<Json>, p: Path): Option<Bytes> {
    if p != [] && p[0] < |items| then LeafAt(items[p[0]], p[1..]) else None
  }

  lemma LeafInRest(items: seq<Json>, p: Path)
    requires items != [] && p != [] && p[0] > 0
    ensures LeafIn(items, p) == LeafIn(items[1..], [p[0] - 1] + p[1..])
  {
    assert ([p[0] - 1] + p[1..])[1..] == p[1..];
  }

  lemma {:induction false} FindLeafSound(v: Json, target: nat)
    ensures FindLeaf(v, target).Some? ==>
      LeafAt(v, FindLeaf(v, target).value).Some? && Wanted(LeafAt(v, FindLeaf(v, target).value).value, target)
    decreases v
  {
    if v.Arr? || v.Obj? {
      FindInSound(v.Children(), target);
    }
  }

  lemma {:induction false} FindInSound(items: seq<Json>, target: nat)
    ensures FindIn(items, target).Some? ==>
      LeafIn(items, FindIn(items, target).value).Some? && Wanted(LeafIn(items, FindIn(items, target).value).value, target)
    decreases items
  {
    if items != [] {
      FindLeafSound(items[0], target);
      FindInSound(items[1..], target);
      match FindLeaf(items[0], target)
      case Some(p) => assert ([0] + p)[1..] == p;
      case None =>
        if FindIn(items[1..], target).Some? {
          var q := FindIn(items[1..], target).value;
          var r := [q[0] + 1] + q[1..];
          LeafInRest(items, r);
          assert [r[0] - 1] + r[1..] == q;
        }
    }
  }

  /** Document order of two leaf addresses, neither a prefix of the other. */
  predicate Before(p: Path, q: Path)
    decreases p
  {
    p != [] && q != [] && (p[0] < q[0] || (p[0] == q[0] && Before(p[1..], q[1..])))
  }

  /** Every matching leaf is the one found or comes after it; none is missed. */
  lemma {:induction false} FindLeafFirst(v: Json, target: nat, q: Path)
    requires LeafAt(v, q).Some? && Wanted(LeafAt(v, q).value, target)
    ensures FindLeaf(v, target).Some?
    ensures FindLeaf(v, target).value == q || Before(FindLeaf(v, target).value, q)
    decreases v
  {
    if v.Arr? || v.Obj? {
      assert LeafIn(v.Children(), q) == LeafAt(v, q);
      FindInFirst(v.Children(), target, q);
    }
  }

  lemma {:induction false} FindInFirst(items: seq<Json>, target: nat, q: Path)
    requires LeafIn(items, q).Some? && Wanted(LeafIn(items, q).value, target)
    ensures FindIn(items, target).Some?
    ensures FindIn(items, target).value == q || Before(FindIn(items, target).value, q)
    decreases items
  {
    if q[0] == 0 {
      FindLeafFirst(items[0], target, q[1..]);
      var p := FindLeaf(items[0], target).value;
      assert ([0] + p)[1..] == p;
      assert q == [0] + q[1..];
    } else if FindLeaf(items[0], target).None? {
      LeafInRest(items, q);
      var r := [q[0] - 1] + q[1..];
      FindInFirst(items[1..], target, r);
      var p := FindIn(items[1..], target).value;
      assert r[1..] == q[1..] && ([p[0] + 1] + p[1..])[1..] == p[1..];
      assert q == [q[0]] + q[1..] && p == [p[0]] + p[1..];
    }
  }

  lemma {:induction false} MaxIsAttained(v: Json)
    ensures MaxShrinkable(v).Some? ==> FindLeaf(v, MaxShrinkable(v).value).Some?
    decreases v
  {
    if v.Arr? || v.Obj? {
      MaxesIsAttained(v.Children());
    }
  }

  lemma {:induction false} MaxesIsAttained(items: seq<Json>)
    ensures MaxShrinkables(items).Some? ==> FindIn(items, MaxShrinkables(items).value).Some?
    decreases items
  {
    if items != [] {
      MaxIsAttained(items[0]);
      MaxesIsAttained(items[1..]);
    }
  }

  lemma {:induction false} MaxIsMax(v: Json, q: Path)
    requires LeafAt(v, q).Some? && LeafShrinks(LeafAt(v, q).value)
    ensures MaxShrinkable(v).Some? && |LeafAt(v, q).value| <= MaxShrinkable(v).value
    decreases v
  {
    if v.Arr? || v.Obj? {
      assert LeafIn(v.Children(), q) == LeafAt(v, q);
      MaxesIsMax(v.Children(), q);
    }
  }

  lemma {:induction false} MaxesIsMax(items: seq<Json>, q: Path)
    requires LeafIn(items, q).Some? && LeafShrinks(LeafIn(items, q).value)
    ensures MaxShrinkables(items).Some? && |LeafIn(items, q).value| <= MaxShrinkables(items).value
    decreases items
  {
    if q[0] == 0 {
      MaxIsMax(items[0], q[1..]);
    } else {
      LeafInRest(items, q);
      MaxesIsMax(items[1..], [q[0] - 1] + q[1..]);
    }
  }

  /** The leaf the loop elides next: the two passes of `largest_shrinkable_leaf`. */
  function LargestLeaf(v: Json): Option<Path> {
    match MaxShrinkable(v)
    case None => None
    case Some(n) => FindLeaf(v, n)
  }

  /**
   * The second pass never fails after the first: a leaf is found iff some leaf can
   * shrink; it can shrink, no shrinkable leaf is longer, and none as long precedes it.
   */
  lemma LargestLeafCorrect(v: Json)
    ensures LargestLeaf(v).Some? <==>
      exists q: Path :: LeafAt(v, q).Some? && LeafShrinks(LeafAt(v, q).value)
    ensures LargestLeaf(v).Some? ==>
      var p := LargestLeaf(v).value;
      && LeafAt(v, p).Some? && LeafShrinks(LeafAt(v, p).value)
      && forall q: Path :: LeafAt(v, q).Some? && LeafShrinks(LeafAt(v, q).value) ==>
           |LeafAt(v, q).value| < |LeafAt(v, p).value|
           || (|LeafAt(v, q).value| == |LeafAt(v, p).value| && (p == q || Before(p, q)))
  {
    MaxIsAttained(v);
    if MaxShrinkable(v).Some? {
      var n := MaxShrinkable(v).value;
      FindLeafSound(v, n);
    }
    forall q: Path | LeafAt(v, q).Some? && LeafShrinks(LeafAt(v, q).value)
      ensures MaxShrinkable(v).Some? && |LeafAt(v, q).value| <= MaxShrinkable(v).value
      ensures |LeafAt(v, q).value| == MaxShrinkable(v).value ==>
        LargestLeaf(v).value == q || Before(LargestLeaf(v).value, q)
    {
      MaxIsMax(v, q);
      if |LeafAt(v, q).value| == MaxShrinkable(v).value {
        FindLeafFirst(v, MaxShrinkable(v).value, q);
      }
    }
  }

  // -------------------------------------------------------------- one pass, all passes

  /** Every string leaf is a Rust string. */
  ghost predicate TextsOk(v: Json) {
    forall q: Path :: LeafAt(v, q).Some? ==> RustText(LeafAt(v, q).value)
  }

  /** The value with every string leaf emptied: its shape, keys and other scalars. */
  function Blank(v: Json): Json
    decreases v
  {
    match v
    case Str(_) => Str([])
    case Arr(items) => Arr(seq(|items|, i requires 0 <= i < |items| => Blank(items[i])))
    case Obj(keys, values) => Obj(keys, seq(|values|, i requires 0 <= i < |values| => Blank(values[i])))
    case _ => v
  }

  /** `w` is `v` with some string leaves elided, and nothing else changed. */
  ghost predicate Trimmed(v: Json, w: Json) {
    && Blank(w) == Blank(v)
    && forall q: Path :: LeafAt(v, q).Some? ==>
         LeafAt(w, q).Some? && Trims(LeafAt(v, q).value, LeafAt(w, q).value)
  }

  lemma {:induction false} PutLeaf(v: Json, p: Path, s: Bytes, q: Path)
    requires LeafAt(v, p).Some?
    ensures LeafAt(Put(v, p, s), q) == if q == p then Some(s) else LeafAt(v, q)
    decreases p
  {
    if p != [] && q != [] {
      assert q == p <==> q[0] == p[0] && q[1..] == p[1..] by {
        assert q == [q[0]] + q[1..] && p == [p[0]] + p[1..];
      }
      if q[0] == p[0] {
        PutLeaf(v.Children()[p[0]], p[1..], s, q[1..]);
      }
    }
  }

  lemma {:induction false} PutBlank(v: Json, p: Path, s: Bytes)
    requires LeafAt(v, p).Some?
    ensures Blank(Put(v, p, s)) == Blank(v)
    decreases p
  {
    if p != [] {
      var w := Put(v.Children()[p[0]], p[1..], s);
      PutBlank(v.Children()[p[0]], p[1..], s);
      assert Blank(v.WithChild(p[0], w)).Children() == Blank(v).Children();
    }
  }

  /** One pass of the loop: the chosen leaf elided in place. */
  function ElideLargest(v: Json): (w: Json)
    requires LargestLeaf(v).Some?
  {
    LargestLeafCorrect(v);
    Put(v, LargestLeaf(v).value, Elide(LeafAt(v, LargestLeaf(v).value).value))
  }

  function Floor(s: Bytes): nat {
    EscLens(FloorText(s))
  }

  /** Serialised length once every leaf is elided as far as it goes. */
  function MinimalLen(v: Json): nat {
    SerLen(Blank(v)) + Weigh(v, Floor)
  }

  /** Total number of elisions the leaves admit. */
  function AllPasses(v: Json): nat {
    Weigh(v, Passes)
  }

  function LeafCount(v: Json): nat {
    Weigh(v, (s: Bytes) => 1)
  }

  /** A pass keeps the texts Rust strings and changes nothing but the chosen leaf. */
  lemma PassTrims(v: Json)
    requires TextsOk(v) && LargestLeaf(v).Some?
    ensures TextsOk(ElideLargest(v)) && Trimmed(v, ElideLargest(v))
  {
    LargestLeafCorrect(v);
    var p := LargestLeaf(v).value;
    var s := LeafAt(v, p).value;
    var w := ElideLargest(v);
    ElideShrinks(s);
    PutBlank(v, p, Elide(s));
    assert Trims(s, Elide(s)) by { assert Trims(Elide(s), Elide(s)); }
    forall q: Path
      ensures LeafAt(w, q).Some? ==> RustText(LeafAt(w, q).value)
      ensures LeafAt(v, q).Some? ==> LeafAt(w, q).Some? && Trims(LeafAt(v, q).value, LeafAt(w, q).value)
    {
      PutLeaf(v, p, Elide(s), q);
    }
  }

  /**
   * The serialised length and the number of remaining passes go down with every
   * pass; the length that full elision would reach stays the same.
   */
  lemma PassProgress(v: Json)
    requires TextsOk(v) && LargestLeaf(v).Some?
    ensures SerLen(ElideLargest(v)) < SerLen(v)
    ensures AllPasses(ElideLargest(v)) == AllPasses(v) - 1
    ensures MinimalLen(ElideLargest(v)) == MinimalLen(v)
  {
    LargestLeafCorrect(v);
    ElidedProgress(v, LargestLeaf(v).value);
  }

  lemma ElidedProgress(v: Json, p: Path)
    requires LeafAt(v, p).Some? && Valid(LeafAt(v, p).value) && LeafShrinks(LeafAt(v, p).value)
    ensures var w := Put(v, p, Elide(LeafAt(v, p).value));
      SerLen(w) < SerLen(v) && AllPasses(w) == AllPasses(v) - 1 && MinimalLen(w) == MinimalLen(v)
  {
    var s := LeafAt(v, p).value;
    ElideShrinks(s);
    SerLenPut(v, p, Elide(s));
    WeighPut(v, p, Elide(s), Passes);
    ElidedFloor(v, p);
    assert Passes(s) == 1 + Passes(Elide(s));
  }

  lemma ElidedFloor(v: Json, p: Path)
    requires LeafAt(v, p).Some? && Valid(LeafAt(v, p).value) && LeafShrinks(LeafAt(v, p).value)
    ensures MinimalLen(Put(v, p, Elide(LeafAt(v, p).value))) == MinimalLen(v)
  {
    var s := LeafAt(v, p).value;
    WeighPut(v, p, Elide(s), Floor);
    PutBlank(v, p, Elide(s));
    assert Floor(Elide(s)) == Floor(s);
  }

  lemma {:induction false} TrimsTrans(s: Bytes, t: Bytes, u: Bytes)
    requires Trims(s, t) && Trims(t, u)
    ensures Trims(s, u)
    decreases |s|
  {
    if t != s {
      TrimsTrans(Elide(s), t, u);
    }
  }

  lemma TrimmedTrans(a: Json, b: Json, c: Json)
    requires Trimmed(a, b) && Trimmed(b, c)
    ensures Trimmed(a, c)
  {
    forall q: Path | LeafAt(a, q).Some?
      ensures LeafAt(c, q).Some? && Trims(LeafAt(a, q).value, LeafAt(c, q).value)
    {
      TrimsTrans(LeafAt(a, q).value, LeafAt(b, q).value, LeafAt(c, q).value);
    }
  }

  /** Serialised length split into shape and string leaves. */
  lemma {:induction false} SerLenSplit(v: Json)
    ensures SerLen(v) == SerLen(Blank(v)) + Weigh(v, EscLens)
    decreases v
  {
    if v.Arr? || v.Obj? {
      SerLensSplit(v.Children(), Blank(v).Children());
    }
  }

  lemma {:induction false} SerLensSplit(items: seq<Json>, blanks: seq<Json>)
    requires |blanks| == |items| && forall i :: 0 <= i < |items| ==> blanks[i] == Blank(items[i])
    ensures SerLens(items) == SerLens(blanks) + Weighs(items, EscLens)
    decreases items
  {
    if items != [] {
      SerLenSplit(items[0]);
      SerLensSplit(items[1..], blanks[1..]);
    }
  }

  lemma ChildLeaf(v: Json, i: nat, q: Path)
    requires i < |v.Children()|
    ensures LeafAt(v, [i] + q) == LeafAt(v.Children()[i], q)
  {
    assert ([i] + q)[1..] == q;
  }

  /** A leafwise bound carries over to the sum. */
  lemma {:induction false} WeighBelow(v: Json, f: Bytes -> nat, g: Bytes -> nat)
    requires forall q: Path :: LeafAt(v, q).Some? ==> f(LeafAt(v, q).value) <= g(LeafAt(v, q).value)
    ensures Weigh(v, f) <= Weigh(v, g)
    decreases v, 1
  {
    if v.Str? {
      assert LeafAt(v, []) == Some(v.s);
    } else {
      var items := v.Children();
      forall i, q: Path | 0 <= i < |items| && LeafAt(items[i], q).Some?
        ensures f(LeafAt(items[i], q).value) <= g(LeafAt(items[i], q).value)
      {
        ChildLeaf(v, i, q);
      }
      if v.Arr? || v.Obj? {
        WeighsBelow(items, f, g);
      }
    }
  }

  lemma {:induction false} WeighsBelow(items: seq<Json>, f: Bytes -> nat, g: Bytes -> nat)
    requires forall i, q: Path :: 0 <= i < |items| && LeafAt(items[i], q).Some? ==>
               f(LeafAt(items[i], q).value) <= g(LeafAt(items[i], q).value)
    ensures Weighs(items, f) <= Weighs(items, g)
    decreases items, 0
  {
    if items != [] {
      forall q: Path | LeafAt(items[0], q).Some?
        ensures f(LeafAt(items[0], q).value) <= g(LeafAt(items[0], q).value) {}
      WeighBelow(items[0], f, g);
      forall i, q: Path | 0 <= i < |items| - 1 && LeafAt(items[1..][i], q).Some?
        ensures f(LeafAt(items[1..][i], q).value) <= g(LeafAt(items[1..][i], q).value)
      {
        assert items[1..][i] == items[i + 1];
      }
      WeighsBelow(items[1..], f, g);
    }
  }

  /** The loop: the payload of the first frame under the cap, or `None` when no leaf is left to shrink. */
  function TrimLoop(envelope: nat, v: Json): Option<Json>
    requires TextsOk(v)
    decreases SerLen(v)
  {
    if LargestLeaf(v).None? then None
    else
      PassTrims(v);
      PassProgress(v);
      var w := ElideLargest(v);
      if envelope + SerLen(w) <= MAX_PLAINTEXT_LEN then Some(w) else TrimLoop(envelope, w)
  }

  /** Elisions the loop performs before it stops. */
  function LoopPasses(envelope: nat, v: Json): nat
    requires TextsOk(v)
    decreases SerLen(v)
  {
    if LargestLeaf(v).None? then 0
    else
      PassTrims(v);
      PassProgress(v);
      var w := ElideLargest(v);
      if envelope + SerLen(w) <= MAX_PLAINTEXT_LEN then 1 else 1 + LoopPasses(envelope, w)
  }

  /** Full elision is what the loop is left with when nothing shrinks, and never longer than any frame before. */
  lemma {:induction false} FloorReached(v: Json)
    requires TextsOk(v)
    ensures MinimalLen(v) <= SerLen(v)
    ensures LargestLeaf(v).None? ==> MinimalLen(v) == SerLen(v)
  {
    SerLenSplit(v);
    forall q: Path | LeafAt(v, q).Some? ensures Floor(LeafAt(v, q).value) <= EscLens(LeafAt(v, q).value) {
      TrimsToFloor(LeafAt(v, q).value, LeafAt(v, q).value);
    }
    WeighBelow(v, Floor, EscLens);
    if LargestLeaf(v).None? {
      LargestLeafCorrect(v);
      WeighBelow(v, EscLens, Floor);
    }
  }

  /**
   * The loop succeeds exactly when eliding every leaf as far as it goes would fit,
   * whichever order the leaves come in; then the frame fits and only string leaves
   * of the payload differ, each one by elisions.
   */
  lemma {:induction false} TrimLoopCorrect(envelope: nat, v: Json)
    requires TextsOk(v) && envelope + SerLen(v) > MAX_PLAINTEXT_LEN
    ensures TrimLoop(envelope, v).Some? <==> envelope + MinimalLen(v) <= MAX_PLAINTEXT_LEN
    ensures TrimLoop(envelope, v).Some? ==>
      envelope + SerLen(TrimLoop(envelope, v).value) <= MAX_PLAINTEXT_LEN && Trimmed(v, TrimLoop(envelope, v).value)
    decreases SerLen(v)
  {
    FloorReached(v);
    if LargestLeaf(v).Some? {
      LoopStep(envelope, v);
      var w := ElideLargest(v);
      FloorReached(w);
      if envelope + SerLen(w) > MAX_PLAINTEXT_LEN {
        TrimLoopCorrect(envelope, w);
        if TrimLoop(envelope, w).Some? {
          TrimmedTrans(v, w, TrimLoop(envelope, w).value);
        }
      }
    }
  }

  /** One pass of the loop, and what it leaves to do. */
  lemma LoopStep(envelope: nat, v: Json)
    requires TextsOk(v) && LargestLeaf(v).Some?
    ensures var w := ElideLargest(v);
      && TextsOk(w) && Trimmed(v, w) && SerLen(w) < SerLen(v) && MinimalLen(w) == MinimalLen(v)
      && TrimLoop(envelope, v) == (if envelope + SerLen(w) <= MAX_PLAINTEXT_LEN then Some(w) else TrimLoop(envelope, w))
  {
    PassTrims(v);
    PassProgress(v);
  }

  lemma {:induction false} LoopPassesBelow(envelope: nat, v: Json)
    requires TextsOk(v)
    ensures LoopPasses(envelope, v) <= AllPasses(v)
    decreases SerLen(v)
  {
    if LargestLeaf(v).Some? {
      PassTrims(v);
      PassProgress(v);
      LoopPassesBelow(envelope, ElideLargest(v));
    }
  }

  lemma {:induction false} TwoPerLeaf(v: Json)
    ensures Weigh(v, (s: Bytes) => 2) == 2 * LeafCount(v)
    decreases v
  {
    if v.Arr? || v.Obj? {
      TwosPerLeaf(v.Children());
    }
  }

  lemma {:induction false} TwosPerLeaf(items: seq<Json>)
    ensures Weighs(items, (s: Bytes) => 2) == 2 * Weighs(items, (s: Bytes) => 1)
    decreases items
  {
    if items != [] {
      TwoPerLeaf(items[0]);
      TwosPerLeaf(items[1..]);
    }
  }

  /** The loop ends after at most two elisions per string leaf (the source's comment says one). */
  lemma LoopBound(envelope: nat, v: Json)
    requires TextsOk(v)
    ensures LoopPasses(envelope, v) <= 2 * LeafCount(v)
  {
    LoopPassesBelow(envelope, v);
    forall q: Path | LeafAt(v, q).Some? ensures Passes(LeafAt(v, q).value) <= 2 {
      PassesAtMostTwo(LeafAt(v, q).value);
    }
    WeighBelow(v, Passes, (s: Bytes) => 2);
    TwoPerLeaf(v);
  }

  lemma {:induction false} WeighNone(v: Json, f: Bytes -> nat)
    requires forall q: Path :: LeafAt(v, q).Some? ==> f(LeafAt(v, q).value) == 0
    ensures Weigh(v, f) == 0
  {
    var none := (s: Bytes) => 0;
    WeighBelow(v, f, none);
    WeighZero(v);
  }

  lemma {:induction false} WeighZero(v: Json)
    ensures Weigh(v, (s: Bytes) => 0) == 0
    decreases v
  {
    if v.Arr? || v.Obj? {
      WeighsZero(v.Children());
    }
  }

  lemma {:induction false} WeighsZero(items: seq<Json>)
    ensures Weighs(items, (s: Bytes) => 0) == 0
    decreases items
  {
    if items != [] {
      WeighZero(items[0]);
      WeighsZero(items[1..]);
    }
  }

  /** A frame that not even full elision makes fit goes through every elision its leaves admit. */
  lemma {:induction false} HopelessPasses(envelope: nat, v: Json)
    requires TextsOk(v) && envelope + MinimalLen(v) > MAX_PLAINTEXT_LEN
    ensures LoopPasses(envelope, v) == AllPasses(v)
    decreases SerLen(v)
  {
    if LargestLeaf(v).None? {
      LargestLeafCorrect(v);
      WeighNone(v, Passes);
    } else {
      LoopStep(envelope, v);
      PassProgress(v);
      var w := ElideLargest(v);
      FloorReached(w);
      HopelessPasses(envelope, w);
    }
  }

  /** The bound that the source's comment states fails for some envelope if and only if the leaves admit more passes than there are leaves. */
  lemma OnePerLeafFailsIff(v: Json)
    requires TextsOk(v)
    ensures (exists envelope: nat :: LoopPasses(envelope, v) > LeafCount(v)) <==> AllPasses(v) > LeafCount(v)
  {
    HopelessPasses(MAX_PLAINTEXT_LEN + 1, v);
    forall envelope: nat ensures LoopPasses(envelope, v) <= AllPasses(v) {
      LoopPassesBelow(envelope, v);
    }
  }

  // --------------------------------------------------- more passes than leaves

  lemma TwicePasses(s: Bytes)
    requires RustText(s) && LeafShrinks(s) && LeafShrinks(Elide(s))
    ensures Passes(s) == 2 && FloorText(s) == Elide(Elide(s))
  {
    AtMostTwice(s);
    assert Passes(Elide(s)) == 1 + Passes(Elide(Elide(s)));
    assert FloorText(Elide(s)) == Elide(Elide(s));
  }

  /** A leaf of 6200 letters is elided twice and keeps 6023 bytes. */
  lemma TwoPasses(s: Bytes)
    requires s == Repeat(0x78, 6_200)
    ensures RustText(s) && Passes(s) == 2 && Floor(s) >= 6_023
  {
    ReElisionExample();
    TwicePasses(s);
    SecondRemoved(s);
    TwiceLength(s);
  }

  lemma TwiceLength(s: Bytes)
    requires Valid(s) && |s| == 6_200 && LeafShrinks(s) && Removed(s) == 200
    requires Removed(Elide(s)) == 24 && |Digits(Removed(Elide(s)))| == 2
    ensures |Elide(Elide(s))| >= 6_023
  {
    ThreeDigits();
    ElideLength(s);
    ElideLength(Elide(s));
  }

  lemma ElideLength(s: Bytes)
    ensures |Elide(s)| == |s| - Removed(s) + 21 + |Digits(Removed(s))|
  {
  }

  function Copies(s: Bytes, n: nat): seq<Json> {
    if n == 0 then [] else [Str(s)] + Copies(s, n - 1)
  }

  lemma {:induction false} WeighCopies(s: Bytes, n: nat, f: Bytes -> nat)
    ensures Weighs(Copies(s, n), f) == n * f(s)
  {
    if n > 0 {
      assert Copies(s, n)[1..] == Copies(s, n - 1);
      WeighCopies(s, n - 1, f);
    }
  }

  lemma {:induction false} CopiesTexts(s: Bytes, n: nat, q: Path)
    requires LeafAt(Arr(Copies(s, n)), q).Some?
    ensures LeafAt(Arr(Copies(s, n)), q) == Some(s)
  {
    CopiesAt(s, n, q[0]);
  }

  lemma {:induction false} CopiesAt(s: Bytes, n: nat, i: nat)
    requires i < |Copies(s, n)|
    ensures Copies(s, n)[i] == Str(s)
  {
    if i > 0 {
      CopiesAt(s, n - 1, i - 1);
    }
  }

  /** Equal leaves that are elided twice each, and together too long even so. */
  lemma CopiesPasses(envelope: nat, s: Bytes, n: nat)
    requires RustText(s) && Passes(s) == 2 && n * Floor(s) > MAX_PLAINTEXT_LEN
    ensures var v := Arr(Copies(s, n)); TextsOk(v) && LeafCount(v) == n && LoopPasses(envelope, v) == 2 * n
  {
    CopiesOk(s, n);
    CopiesWeigh(s, n);
    HopelessPasses(envelope, Arr(Copies(s, n)));
  }

  lemma CopiesOk(s: Bytes, n: nat)
    requires RustText(s)
    ensures TextsOk(Arr(Copies(s, n)))
  {
    var v := Arr(Copies(s, n));
    forall q: Path | LeafAt(v, q).Some? ensures RustText(LeafAt(v, q).value) {
      CopiesTexts(s, n, q);
    }
  }

  lemma CopiesWeigh(s: Bytes, n: nat)
    ensures var v := Arr(Copies(s, n));
      LeafCount(v) == n && AllPasses(v) == n * Passes(s) && MinimalLen(v) >= n * Floor(s)
  {
    WeighCopies(s, n, Passes);
    WeighCopies(s, n, Floor);
    WeighCopies(s, n, (t: Bytes) => 1);
  }

  /** Eleven such leaves are elided twenty-two times, whatever the envelope: twice as many passes as leaves. */
  lemma MorePassesThanLeaves(envelope: nat)
    ensures var v := Arr(Copies(Repeat(0x78, 6_200), 11));
      TextsOk(v) && LeafCount(v) == 11 && LoopPasses(envelope, v) == 22
  {
    var s := Repeat(0x78, 6_200);
    TwoPasses(s);
    assert 11 * Floor(s) >= 11 * 6_023;
    CopiesPasses(envelope, s, 11);
  }

  // ------------------------------------------------------------------ the frame

  /** The fields of an observer event around its payload. */
  datatype Envelope = Envelope(
    seqNo: nat,
    timestamp: Bytes,
    kind: Bytes,
    agentIndex: Option<nat>,
    channelId: Option<Bytes>,
    sessionId: Option<Bytes>,
    turnId: Option<Bytes>,
    startedAt: Option<Bytes>)

  function Text(t: Option<Bytes>): Json {
    if t.Some? then Str(t.value) else Null
  }

  /** The serialised frame: camel-case keys, `startedAt` left out when absent. */
  function Frame(e: Envelope, payload: Json): (f: Json)
    ensures f.Obj? && |f.keys| == |f.values| > 6
    ensures f.values[2] == Str(e.kind) && f.values[5] == Text(e.sessionId)
    ensures f.values[|f.values| - 1] == payload
  {
    var keys := [Ascii("seq"), Ascii("timestamp"), Ascii("kind"), Ascii("agentIndex"),
                 Ascii("channelId"), Ascii("sessionId"), Ascii("turnId")];
    var values := [Number(Digits(e.seqNo)), Str(e.timestamp), Str(e.kind),
                   if e.agentIndex.Some? then Number(Digits(e.agentIndex.value)) else Null,
                   Text(e.channelId), Text(e.sessionId), Text(e.turnId)];
    if e.startedAt.Some?
    then Obj(keys + [Ascii("startedAt"), Ascii("payload")], values + [Str(e.startedAt.value), payload])
    else Obj(keys + [Ascii("payload")], values + [payload])
  }

  /** The object has the value under the key. */
  ghost predicate Has(f: Json, key: Bytes, value: Json) {
    f.Obj? && |f.keys| == |f.values| && exists i :: 0 <= i < |f.keys| && f.keys[i] == key && f.values[i] == value
  }

  lemma HasAt(f: Json, key: Bytes, value: Json, i: nat)
    requires f.Obj? && |f.keys| == |f.values| && i < |f.keys| && f.keys[i] == key && f.values[i] == value
    ensures Has(f, key, value)
  {
  }

  /** A frame has the event's fields under their names, its payload, and nothing else. */
  lemma {:induction false} FrameStarts(e: Envelope, payload: Json)
    ensures var f := Frame(e, payload);
      && Has(f, Ascii("seq"), Number(Digits(e.seqNo))) && Has(f, Ascii("timestamp"), Str(e.timestamp))
      && Has(f, Ascii("kind"), Str(e.kind))
      && Has(f, Ascii("agentIndex"), if e.agentIndex.Some? then Number(Digits(e.agentIndex.value)) else Null)
  {
    var f := Frame(e, payload);
    HasAt(f, Ascii("seq"), Number(Digits(e.seqNo)), 0);
    HasAt(f, Ascii("timestamp"), Str(e.timestamp), 1);
    HasAt(f, Ascii("kind"), Str(e.kind), 2);
    HasAt(f, Ascii("agentIndex"), if e.agentIndex.Some? then Number(Digits(e.agentIndex.value)) else Null, 3);
  }

  lemma {:induction false} FrameScope(e: Envelope, payload: Json)
    ensures var f := Frame(e, payload);
      && Has(f, Ascii("channelId"), Text(e.channelId)) && Has(f, Ascii("sessionId"), Text(e.sessionId))
      && Has(f, Ascii("turnId"), Text(e.turnId))
  {
    var f := Frame(e, payload);
    HasAt(f, Ascii("channelId"), Text(e.channelId), 4);
    HasAt(f, Ascii("sessionId"), Text(e.sessionId), 5);
    HasAt(f, Ascii("turnId"), Text(e.turnId), 6);
  }

  lemma {:induction false} FrameEnds(e: Envelope, payload: Json)
    ensures var f := Frame(e, payload);
      && (e.startedAt.Some? ==> Has(f, Ascii("startedAt"), Str(e.startedAt.value)))
      && Has(f, Ascii("payload"), payload) && |f.keys| == if e.startedAt.Some? then 9 else 8
  {
    var f := Frame(e, payload);
    if e.startedAt.Some? {
      HasAt(f, Ascii("startedAt"), Str(e.startedAt.value), 7);
    }
    HasAt(f, Ascii("payload"), payload, |f.keys| - 1);
  }

  /** Serialised length of the frame without its payload. */
  function EnvelopeLen(e: Envelope): nat {
    SerLen(Frame(e, Arr([]))) - 2
  }

  lemma FrameLen(e: Envelope, payload: Json)
    ensures SerLen(Frame(e, payload)) == EnvelopeLen(e) + SerLen(payload)
  {
    var f := Frame(e, Arr([]));
    var last := |f.values| - 1;
    assert Frame(e, payload) == f.WithChild(last, payload);
    SerLensUpdate(f.values, last, payload);
    assert SerLen(Arr([])) == 2;
  }

  /** The payload of last resort; `original` counts the serialised bytes discarded. */
  function Stub(kind: Bytes, original: nat): Json {
    Obj([Ascii("elided"), Ascii("originalBytes")],
        [Str(kind + Ascii(" payload too large")), Number(Digits(original))])
  }

  predicate Fits(e: Envelope, payload: Json) {
    SerLen(Frame(e, payload)) <= MAX_PLAINTEXT_LEN
  }

  /** The payload the trimming leaves. */
  function Fitted(e: Envelope, v: Json): Json
    requires TextsOk(v)
  {
    if Fits(e, v) then v
    else match TrimLoop(EnvelopeLen(e), v)
         case Some(w) => w
         case None => Stub(e.kind, SerLen(v))
  }

  /**
   * A frame under the cap is untouched. Otherwise the payload keeps its shape and
   * fits exactly when full elision of its leaves would fit, and is the stub exactly
   * when that would not.
   */
  lemma {:induction false} FittedCorrect(e: Envelope, v: Json)
    requires TextsOk(v)
    ensures Fits(e, v) ==> Fitted(e, v) == v
    ensures !Fits(e, v) && EnvelopeLen(e) + MinimalLen(v) <= MAX_PLAINTEXT_LEN ==>
      Fits(e, Fitted(e, v)) && Trimmed(v, Fitted(e, v))
    ensures EnvelopeLen(e) + MinimalLen(v) > MAX_PLAINTEXT_LEN ==> Fitted(e, v) == Stub(e.kind, SerLen(v))
  {
    FrameLen(e, v);
    FloorReached(v);
    if !Fits(e, v) {
      TrimLoopCorrect(EnvelopeLen(e), v);
      FrameLen(e, Fitted(e, v));
    }
  }

  /**
   * The source calls the stub trivially under the cap, yet it repeats the event's
   * kind. The trimmed frame fits if and only if the fully elided frame or the stub
   * frame does.
   */
  lemma {:induction false} FitsIff(e: Envelope, v: Json)
    requires TextsOk(v)
    ensures Fits(e, Fitted(e, v)) <==>
            EnvelopeLen(e) + MinimalLen(v) <= 65_535 || SerLen(Frame(e, Stub(e.kind, SerLen(v)))) <= 65_535
  {
    FittedCorrect(e, v);
    FrameLen(e, v);
    FloorReached(v);
  }

  lemma {:induction false} ElementLen(items: seq<Json>, i: nat)
    requires i < |items|
    ensures SerLens(items) >= SerLen(items[i])
  {
    if i > 0 {
      ElementLen(items[1..], i - 1);
    }
  }

  lemma KindInFrame(e: Envelope, payload: Json)
    ensures SerLen(Frame(e, payload)) >= |e.kind|
  {
    var f := Frame(e, payload);
    ElementLen(f.values, 2);
  }

  /** The stub names the event's kind and tells how long the payload was. */
  lemma {:induction false} StubTells(kind: Bytes, original: nat)
    ensures var f := Stub(kind, original);
      && f.Obj? && f.keys == [Ascii("elided"), Ascii("originalBytes")] && |f.values| == 2
      && f.values[0] == Str(kind + Ascii(" payload too large"))
      && f.values[1].Number? && Decimal(f.values[1].text) == original
  {
    DigitsSay(original);
  }

  /** An event whose kind alone is over the cap stays over it, stub or not. */
  lemma OversizedKind(e: Envelope, v: Json)
    requires TextsOk(v) && |e.kind| > MAX_PLAINTEXT_LEN
    ensures !Fits(e, Fitted(e, v))
  {
    KindInFrame(e, Fitted(e, v));
  }

  /**
   * So does one whose session id, which the agent chose, is over the cap: no trimming of
   * the payload makes room for the envelope.
   */
  lemma OversizedSessionId(e: Envelope, v: Json)
    requires TextsOk(v) && e.sessionId.Some? && |e.sessionId.value| > MAX_PLAINTEXT_LEN
    ensures !Fits(e, Fitted(e, v))
  {
    SessionIdInFrame(e, Fitted(e, v));
  }

  lemma SessionIdInFrame(e: Envelope, payload: Json)
    requires e.sessionId.Some?
    ensures SerLen(Frame(e, payload)) >= |e.sessionId.value|
  {
    var f := Frame(e, payload);
    ElementLen(f.values, 5);
  }

  /** An event on its way to the relay; only the payload may be rewritten. */
  class ObserverEvent {
    const envelope: Envelope
    var payload: Json

    constructor (envelope: Envelope, payload: Json)
      ensures this.envelope == envelope && this.payload == payload
    {
      this.envelope := envelope;
      this.payload := payload;
    }

    method FitToBudget()
      requires TextsOk(payload)
      modifies this`payload
      ensures payload == Fitted(envelope, old(payload))
    {
      FrameLen(envelope, payload);
      if SerLen(Frame(envelope, payload)) <= MAX_PLAINTEXT_LEN {
        return;
      }
      var originalBytes := SerLen(payload);
      var leaf := LargestLeaf(payload);
      while leaf.Some?
        invariant TextsOk(payload) && leaf == LargestLeaf(payload)
        invariant TrimLoop(EnvelopeLen(envelope), payload) == TrimLoop(EnvelopeLen(envelope), old(payload))
        decreases SerLen(payload)
      {
        LoopStep(EnvelopeLen(envelope), payload);
        LargestLeafCorrect(payload);
        payload := Put(payload, leaf.value, Elide(LeafAt(payload, leaf.value).value));
        FrameLen(envelope, payload);
        if SerLen(Frame(envelope, payload)) <= MAX_PLAINTEXT_LEN {
          return;
        }
        leaf := LargestLeaf(payload);
      }
      payload := Stub(envelope.kind, originalBytes);
    }
  }
}
