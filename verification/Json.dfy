/**
 * JSON values as `serde_json::Value` holds them, and the length of their compact
 * serialisation (section 7 of RFC 8259 for strings).
 *
 * Strings are UTF-8 byte strings; a number is its printed text. The keys and the values
 * of an object run in parallel, in serialisation order.
 *
 * Only lengths matter to the frames; `JsonText` shows that they are those of the text. A
 * string leaf is addressed by the child positions that lead to it, and a function on leaves can
 * be added up over all of them.
 */
module Json {
  import opened Prelude
  import opened Utf8

  datatype Json =
    | Null
    | Bool(b: bool)
    | Number(text: Bytes)
    | Str(s: Bytes)
    | Arr(items: seq<Json>)
    | Obj(keys: seq<Bytes>, values: seq<Json>)
  {
    /** What a container holds; nothing for a scalar. */
    function Children(): seq<Json> {
      if Arr? then items else if Obj? then values else []
    }

    function WithChild(i: nat, child: Json): Json
      requires i < |Children()|
    {
      if Arr? then Arr(items[i := child]) else Obj(keys, values[i := child])
    }
  }

  /** Bytes one byte of a string takes once escaped (section 7 of RFC 8259). */
  function EscLen(b: Byte): (n: nat)
    ensures n >= 1
  {
    if b in {0x22, 0x5C, 0x08, 0x09, 0x0A, 0x0C, 0x0D} then 2
    else if b < 0x20 then 6
    else 1
  }

  function EscLens(s: Bytes): (n: nat)
    ensures n >= |s|
  {
    if s == [] then 0 else EscLen(s[0]) + EscLens(s[1..])
  }

  /** A serialised string: its escaped bytes between two quotes. */
  function StrLen(s: Bytes): nat {
    2 + EscLens(s)
  }

  function Commas(n: nat): nat {
    if n == 0 then 0 else n - 1
  }

  function KeysLen(keys: seq<Bytes>): nat {
    if keys == [] then 0 else StrLen(keys[0]) + 1 + KeysLen(keys[1..])
  }

  /** Length in bytes of the compact serialisation. */
  function SerLen(v: Json): nat
    decreases v
  {
    match v
    case Null => 4
    case Bool(b) => if b then 4 else 5
    case Number(text) => |text|
    case Str(s) => StrLen(s)
    case Arr(items) => 2 + Commas(|items|) + SerLens(items)
    case Obj(keys, values) => 2 + Commas(|values|) + KeysLen(keys) + SerLens(values)
  }

  function SerLens(items: seq<Json>): nat
    decreases items
  {
    if items == [] then 0 else SerLen(items[0]) + SerLens(items[1..])
  }

  lemma {:induction false} EscLensConcat(a: Bytes, b: Bytes)
    ensures EscLens(a + b) == EscLens(a) + EscLens(b)
  {
    if a == [] {
      assert a + b == b;
    } else {
      assert (a + b)[1..] == a[1..] + b;
      EscLensConcat(a[1..], b);
    }
  }

  /** A string leaf is addressed by the child positions that lead to it. */
  type Path = seq<nat>

  function LeafAt(v: Json, p: Path): Option<Bytes>
    decreases p
  {
    if p == [] then (if v.Str? then Some(v.s) else None)
    else if p[0] < |v.Children()| then LeafAt(v.Children()[p[0]], p[1..])
    else None
  }

  /** Overwrites the string leaf at `p` in place. */
  function Put(v: Json, p: Path, s: Bytes): Json
    requires LeafAt(v, p).Some?
    decreases p
  {
    if p == [] then Str(s) else v.WithChild(p[0], Put(v.Children()[p[0]], p[1..], s))
  }

  /** Adds `f` up over the string leaves. */
  function Weigh(v: Json, f: Bytes -> nat): nat
    decreases v
  {
    match v
    case Str(s) => f(s)
    case Arr(items) => Weighs(items, f)
    case Obj(_, values) => Weighs(values, f)
    case _ => 0
  }

  function Weighs(items: seq<Json>, f: Bytes -> nat): nat
    decreases items
  {
    if items == [] then 0 else Weigh(items[0], f) + Weighs(items[1..], f)
  }

  lemma {:induction false} WeighsUpdate(items: seq<Json>, i: nat, w: Json, f: Bytes -> nat)
    requires i < |items|
    ensures Weighs(items[i := w], f) + Weigh(items[i], f) == Weighs(items, f) + Weigh(w, f)
  {
    if i == 0 {
      assert items[0 := w][1..] == items[1..];
    } else {
      assert items[i := w][1..] == items[1..][i - 1 := w];
      WeighsUpdate(items[1..], i - 1, w, f);
    }
  }

  /** Overwriting one leaf changes a leaf sum by that leaf's share only. */
  lemma {:induction false} WeighPut(v: Json, p: Path, s: Bytes, f: Bytes -> nat)
    requires LeafAt(v, p).Some?
    ensures Weigh(Put(v, p, s), f) + f(LeafAt(v, p).value) == Weigh(v, f) + f(s)
    decreases p
  {
    if p != [] {
      WeighPut(v.Children()[p[0]], p[1..], s, f);
      WeighsUpdate(v.Children(), p[0], Put(v.Children()[p[0]], p[1..], s), f);
    }
  }

  lemma {:induction false} SerLensUpdate(items: seq<Json>, i: nat, w: Json)
    requires i < |items|
    ensures SerLens(items[i := w]) + SerLen(items[i]) == SerLens(items) + SerLen(w)
  {
    if i == 0 {
      assert items[0 := w][1..] == items[1..];
    } else {
      assert items[i := w][1..] == items[1..][i - 1 := w];
      SerLensUpdate(items[1..], i - 1, w);
    }
  }

  /** Overwriting one leaf changes the serialised length by exactly that leaf's. */
  lemma {:induction false} SerLenPut(v: Json, p: Path, s: Bytes)
    requires LeafAt(v, p).Some?
    ensures SerLen(Put(v, p, s)) + StrLen(LeafAt(v, p).value) == SerLen(v) + StrLen(s)
    decreases p
  {
    if p != [] {
      SerLenPut(v.Children()[p[0]], p[1..], s);
      SerLensUpdate(v.Children(), p[0], Put(v.Children()[p[0]], p[1..], s));
    }
  }
}
