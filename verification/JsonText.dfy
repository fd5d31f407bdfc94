/** The compact serialisation itself, and that the lengths used elsewhere are its lengths. */
module JsonText {
  import opened Prelude
  import opened Utf8
  import opened Json

  /** One digit of a hexadecimal number, in lower case. */
  function HexDigit(n: nat): Byte
    requires n < 16
  {
    if n < 10 then 48 + n else 87 + n
  }

  /** One byte of a string as it is written (section 7 of RFC 8259). */
  function Escaped(b: Byte): Bytes {
    if b == 0x22 then Ascii("\\\"")
    else if b == 0x5C then Ascii("\\\\")
    else if b == 0x08 then Ascii("\\b")
    else if b == 0x09 then Ascii("\\t")
    else if b == 0x0A then Ascii("\\n")
    else if b == 0x0C then Ascii("\\f")
    else if b == 0x0D then Ascii("\\r")
    else if b < 0x20 then Ascii("\\u00") + [HexDigit(b / 16), HexDigit(b % 16)]
    else [b]
  }

  function EscapedAll(s: Bytes): Bytes {
    if s == [] then [] else Escaped(s[0]) + EscapedAll(s[1..])
  }

  function StrText(s: Bytes): Bytes {
    Ascii("\"") + EscapedAll(s) + Ascii("\"")
  }

  /** Keys and values of every object run in parallel. */
  predicate Shaped(v: Json)
    decreases v
  {
    match v
    case Arr(items) => forall i :: 0 <= i < |items| ==> Shaped(items[i])
    case Obj(keys, values) => |keys| == |values| && forall i :: 0 <= i < |values| ==> Shaped(values[i])
    case _ => true
  }

  function Written(v: Json): Bytes
    decreases v
  {
    match v
    case Null => Ascii("null")
    case Bool(b) => if b then Ascii("true") else Ascii("false")
    case Number(text) => text
    case Str(s) => StrText(s)
    case Arr(items) => Ascii("[") + Elements(items) + Ascii("]")
    case Obj(keys, values) => Ascii("{") + Members(keys, values) + Ascii("}")
  }

  function Elements(items: seq<Json>): Bytes
    decreases items
  {
    if items == [] then []
    else if |items| == 1 then Written(items[0])
    else Written(items[0]) + Ascii(",") + Elements(items[1..])
  }

  function Members(keys: seq<Bytes>, values: seq<Json>): Bytes
    decreases values
  {
    if keys == [] || values == [] then []
    else
      var member := StrText(keys[0]) + Ascii(":") + Written(values[0]);
      if |values| == 1 then member else member + Ascii(",") + Members(keys[1..], values[1..])
  }

  lemma {:induction false} EscapedLength(s: Bytes)
    ensures |EscapedAll(s)| == EscLens(s)
  {
    if s != [] {
      assert |Escaped(s[0])| == EscLen(s[0]);
      EscapedLength(s[1..]);
    }
  }

  lemma StrTextLength(s: Bytes)
    ensures |StrText(s)| == StrLen(s)
  {
    EscapedLength(s);
  }

  /** The serialised length is the length of the serialised text. */
  lemma {:induction false} SerLenIsLength(v: Json)
    requires Shaped(v)
    ensures |Written(v)| == SerLen(v)
    decreases v
  {
    match v
    case Str(s) => StrTextLength(s);
    case Arr(items) => ElementsLength(items);
    case Obj(keys, values) => MembersLength(keys, values);
    case _ =>
  }

  lemma {:induction false} ElementsLength(items: seq<Json>)
    requires forall i :: 0 <= i < |items| ==> Shaped(items[i])
    ensures |Elements(items)| == Commas(|items|) + SerLens(items)
    decreases items
  {
    if items != [] {
      SerLenIsLength(items[0]);
      if |items| == 1 {
        assert SerLens(items[1..]) == 0;
      } else {
        ElementsLength(items[1..]);
      }
    }
  }

  lemma {:induction false} MembersLength(keys: seq<Bytes>, values: seq<Json>)
    requires |keys| == |values| && forall i :: 0 <= i < |values| ==> Shaped(values[i])
    ensures |Members(keys, values)| == Commas(|values|) + KeysLen(keys) + SerLens(values)
    decreases values
  {
    if values != [] {
      StrTextLength(keys[0]);
      SerLenIsLength(values[0]);
      if |values| == 1 {
        assert SerLens(values[1..]) == 0 && KeysLen(keys[1..]) == 0;
      } else {
        MembersLength(keys[1..], values[1..]);
      }
    }
  }
}
