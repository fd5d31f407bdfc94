/**
 * The client side of the Redis serialization protocol: commands are written as arrays of
 * bulk strings, replies of any type are read back. Texts are UTF-8 byte strings.
 *
 * Encoding and reading are functions on byte strings, where reading also gives what is
 * left of the stream; the methods at the end build the frame with the loop of the
 * original and read from a stream that they advance.
 *
 * The source is a benchmark client, apart from the rest of the repository.
 */
module Resp {
  import opened Prelude
  import opened Utf8

  datatype Reply = Nil | Text(text: Bytes) | Number(value: int) | List(items: seq<Reply>)

  datatype Error = Closed | Malformed | Undecodable | UnknownPrefix | ServerError(text: Bytes)

  const CR: Byte := 13
  const LF: Byte := 10
  const CRLF: Bytes := [13, 10]
  const PLUS: Byte := 43
  const MINUS: Byte := 45
  const COLON: Byte := 58
  const DOLLAR: Byte := 36
  const STAR: Byte := 42
  const UNDERSCORE: Byte := 95

  // ------------------------------------------------------------------------ writing

  function Header(prefix: Byte, n: nat): Bytes {
    [prefix] + Digits(n) + CRLF
  }

  function Bulk(part: Bytes): Bytes {
    Header(DOLLAR, |part|) + part + CRLF
  }

  function Bulks(parts: seq<Bytes>): Bytes {
    if parts == [] then [] else Bulk(parts[0]) + Bulks(parts[1..])
  }

  function Encode(parts: seq<Bytes>): Bytes {
    Header(STAR, |parts|) + Bulks(parts)
  }

  method EncodeCommand(parts: seq<Bytes>) returns (frame: Bytes)
    ensures frame == Encode(parts)
  {
    frame := Header(STAR, |parts|);
    var i := 0;
    while i < |parts|
      invariant 0 <= i <= |parts|
      invariant frame + Bulks(parts[i..]) == Encode(parts)
    {
      ghost var before := frame;
      frame := frame + Header(DOLLAR, |parts[i]|);
      frame := frame + parts[i];
      frame := frame + CRLF;
      assert frame == before + Bulk(parts[i]);
      assert parts[i..][0] == parts[i] && parts[i..][1..] == parts[i + 1..];
      i := i + 1;
    }
    assert frame + [] == frame;
  }

  // ---------------------------------------------------------------- reading numbers

  predicate IsDigit(b: Byte) {
    48 <= b <= 57
  }

  predicate IsSpace(b: Byte) {
    b == 32 || 9 <= b <= 13
  }

  /** Digits, with single underscores between them allowed. */
  function Unsigned(s: Bytes): Option<nat> {
    if s == [] || !IsDigit(s[|s| - 1]) then None
    else
      var digit := s[|s| - 1] - 48;
      if |s| == 1 then Some(digit)
      else
        var head := if s[|s| - 2] == UNDERSCORE then s[..|s| - 2] else s[..|s| - 1];
        var before := Unsigned(head);
        if before.None? then None else Some(10 * before.value + digit)
  }

  function Strip(s: Bytes): Bytes {
    if s == [] then s
    else if IsSpace(s[0]) then Strip(s[1..])
    else if IsSpace(s[|s| - 1]) then Strip(s[..|s| - 1])
    else s
  }

  /** Python's `int` on a byte string. */
  function IntOf(line: Bytes): Option<int> {
    var s := Strip(line);
    if s != [] && s[0] in {PLUS, MINUS} then
      var n := Unsigned(s[1..]);
      if n.None? then None else Some(if s[0] == MINUS then 0 - n.value else n.value)
    else
      var n := Unsigned(s);
      if n.None? then None else Some(n.value)
  }

  lemma {:induction false} UnsignedDigits(n: nat)
    ensures Unsigned(Digits(n)) == Some(n)
  {
    var d := Digits(n);
    if n >= 10 {
      UnsignedDigits(n / 10);
      assert d[..|d| - 1] == Digits(n / 10);
      assert IsDigit(d[|d| - 2]);
    }
  }

  lemma IntOfDigits(n: nat)
    ensures IntOf(Digits(n)) == Some(n)
  {
    UnsignedDigits(n);
    DigitsIntOf(Digits(n));
  }

  /** Nothing is stripped from digits, and there is no sign. */
  lemma DigitsIntOf(d: Bytes)
    requires d != [] && forall i :: 0 <= i < |d| ==> IsDigit(d[i])
    ensures IntOf(d) == if Unsigned(d).Some? then Some(Unsigned(d).value) else None
  {
    assert IsDigit(d[0]) && IsDigit(d[|d| - 1]);
    assert Strip(d) == d;
  }

  // ------------------------------------------------------------------------ reading

  /** Position of the first line feed. */
  function LineFeed(s: Bytes): (i: nat)
    ensures i <= |s| && (i < |s| ==> s[i] == LF)
    ensures forall j :: 0 <= j < i ==> s[j] != LF
  {
    if s == [] || s[0] == LF then 0 else 1 + LineFeed(s[1..])
  }

  /** A line without its terminator, and what follows it. */
  function ReadLine(s: Bytes): (r: Result<(Bytes, Bytes), Error>)
    ensures r.Ok? ==> |r.value.1| < |s|
  {
    var i := LineFeed(s);
    if s == [] then Err(Closed)
    else if i == |s| || i == 0 || s[i - 1] != CR then Err(Malformed)
    else Ok((s[..i - 1], s[i + 1..]))
  }

  function ReadNumber(s: Bytes): (r: Result<(int, Bytes), Error>)
    ensures r.Ok? ==> |r.value.1| < |s|
  {
    var line := ReadLine(s);
    if line.Err? then Err(line.error)
    else
      var n := IntOf(line.value.0);
      if n.None? then Err(Malformed) else Ok((n.value, line.value.1))
  }

  function ReadText(s: Bytes): (r: Result<(Bytes, Bytes), Error>)
    ensures r.Ok? ==> |r.value.1| < |s|
  {
    var line := ReadLine(s);
    if line.Err? then line else if !Valid(line.value.0) then Err(Undecodable) else line
  }

  /** `n` bytes and their terminator; a length below zero never matches what is read. */
  function ReadBulk(s: Bytes, n: int): (r: Result<(Reply, Bytes), Error>)
    ensures r.Ok? ==> |r.value.1| < |s|
  {
    if n < 0 || |s| < n + 2 || s[n..n + 2] != CRLF then Err(Malformed)
    else if !Valid(s[..n]) then Err(Undecodable)
    else Ok((Text(s[..n]), s[n + 2..]))
  }

  function Read(s: Bytes): (r: Result<(Reply, Bytes), Error>)
    ensures r.Ok? ==> |r.value.1| < |s|
    decreases |s|, 0
  {
    if s == [] then Err(Closed)
    else if s[0] == PLUS then
      var text := ReadText(s[1..]);
      if text.Err? then Err(text.error) else Ok((Text(text.value.0), text.value.1))
    else if s[0] == MINUS then
      var text := ReadText(s[1..]);
      if text.Err? then Err(text.error) else Err(ServerError(text.value.0))
    else if s[0] == COLON then
      var n := ReadNumber(s[1..]);
      if n.Err? then Err(n.error) else Ok((Number(n.value.0), n.value.1))
    else if s[0] == DOLLAR then
      var n := ReadNumber(s[1..]);
      if n.Err? then Err(n.error)
      else if n.value.0 == -1 then Ok((Nil, n.value.1))
      else ReadBulk(n.value.1, n.value.0)
    else if s[0] == STAR then
      var n := ReadNumber(s[1..]);
      if n.Err? then Err(n.error)
      else if n.value.0 == -1 then Ok((Nil, n.value.1))
      else
        var items := ReadItems(n.value.1, Max(n.value.0, 0));
        if items.Err? then Err(items.error) else Ok((List(items.value.0), items.value.1))
    else Err(UnknownPrefix)
  }

  function ReadItems(s: Bytes, n: nat): (r: Result<(seq<Reply>, Bytes), Error>)
    ensures r.Ok? ==> |r.value.1| <= |s| && |r.value.0| == n
    decreases |s|, 1
  {
    if n == 0 then Ok(([], s))
    else
      var first := Read(s);
      if first.Err? then Err(first.error)
      else
        var others := ReadItems(first.value.1, n - 1);
        if others.Err? then others else Ok(([first.value.0] + others.value.0, others.value.1))
  }

  // --------------------------------------------------------------------- round trip

  lemma {:induction false} LineFeedAfter(line: Bytes, rest: Bytes)
    requires LF !in line
    ensures LineFeed(line + CRLF + rest) == |line| + 1
  {
    var s := line + CRLF + rest;
    assert s[|line| + 1] == LF;
    assert forall j :: 0 <= j < |line| ==> s[j] == line[j];
  }

  lemma HeaderReads(n: nat, rest: Bytes)
    ensures ReadNumber(Digits(n) + CRLF + rest) == Ok((n, rest))
  {
    var d := Digits(n);
    var s := d + CRLF + rest;
    LineFeedAfter(d, rest);
    IntOfDigits(n);
    assert s[..|d|] == d && s[|d| + 2..] == rest;
  }

  lemma HeaderDropped(prefix: Byte, n: nat, body: Bytes)
    ensures var s := Header(prefix, n) + body; s[0] == prefix && s[1..] == Digits(n) + CRLF + body
  {
  }

  lemma {:induction false} BodyReads(part: Bytes, rest: Bytes)
    requires Valid(part)
    ensures ReadBulk(part + CRLF + rest, |part|) == Ok((Text(part), rest))
  {
    var body := part + CRLF + rest;
    assert body[..|part|] == part && body[|part|..|part| + 2] == CRLF && body[|part| + 2..] == rest;
  }

  lemma BulkReads(part: Bytes, rest: Bytes)
    requires Valid(part)
    ensures Read(Bulk(part) + rest) == Ok((Text(part), rest))
  {
    var body := part + CRLF + rest;
    assert Bulk(part) + rest == Header(DOLLAR, |part|) + body;
    HeaderDropped(DOLLAR, |part|, body);
    HeaderReads(|part|, body);
    BodyReads(part, rest);
    DollarReads(Header(DOLLAR, |part|) + body, |part|, body);
  }

  lemma DollarReads(s: Bytes, n: nat, body: Bytes)
    requires s != [] && s[0] == DOLLAR && ReadNumber(s[1..]) == Ok((n, body))
    ensures Read(s) == ReadBulk(body, n)
  {
  }

  lemma StarReads(s: Bytes, n: nat, body: Bytes)
    requires s != [] && s[0] == STAR && ReadNumber(s[1..]) == Ok((n, body)) && ReadItems(body, n).Ok?
    ensures Read(s) == Ok((List(ReadItems(body, n).value.0), ReadItems(body, n).value.1))
  {
  }

  /** Every part is text. */
  predicate Sendable(parts: seq<Bytes>) {
    forall p :: p in parts ==> Valid(p)
  }

  function Texts(parts: seq<Bytes>): (r: seq<Reply>)
    ensures |r| == |parts| && forall i :: 0 <= i < |r| ==> r[i] == Text(parts[i])
  {
    seq(|parts|, i requires 0 <= i < |parts| => Text(parts[i]))
  }

  lemma ItemReads(s: Bytes, n: nat)
    requires n > 0 && Read(s).Ok? && ReadItems(Read(s).value.1, n - 1).Ok?
    ensures var others := ReadItems(Read(s).value.1, n - 1).value;
      ReadItems(s, n) == Ok(([Read(s).value.0] + others.0, others.1))
  {
  }

  lemma TextsSplit(parts: seq<Bytes>)
    requires parts != []
    ensures Texts(parts) == [Text(parts[0])] + Texts(parts[1..])
  {
  }

  lemma {:induction false} BulksRead(parts: seq<Bytes>, rest: Bytes)
    requires Sendable(parts)
    ensures ReadItems(Bulks(parts) + rest, |parts|) == Ok((Texts(parts), rest))
    decreases parts
  {
    if parts == [] {
      assert Bulks(parts) + rest == rest;
    } else {
      var tail := Bulks(parts[1..]) + rest;
      assert Bulks(parts) + rest == Bulk(parts[0]) + tail;
      BulkReads(parts[0], tail);
      BulksRead(parts[1..], rest);
      ItemReads(Bulk(parts[0]) + tail, |parts|);
      TextsSplit(parts);
    }
  }

  /** Reading a command gives back its parts and stops exactly at its end, whatever bytes the parts or the rest hold. */
  lemma RoundTrip(parts: seq<Bytes>, rest: Bytes)
    requires Sendable(parts)
    ensures Read(Encode(parts) + rest) == Ok((List(Texts(parts)), rest))
  {
    var body := Bulks(parts) + rest;
    assert Encode(parts) + rest == Header(STAR, |parts|) + body;
    HeaderDropped(STAR, |parts|, body);
    HeaderReads(|parts|, body);
    BulksRead(parts, rest);
    StarReads(Header(STAR, |parts|) + body, |parts|, body);
  }

  function EncodeAll(commands: seq<seq<Bytes>>): Bytes {
    if commands == [] then [] else Encode(commands[0]) + EncodeAll(commands[1..])
  }

  function Lists(commands: seq<seq<Bytes>>): (r: seq<Reply>)
    ensures |r| == |commands| && forall i :: 0 <= i < |r| ==> r[i] == List(Texts(commands[i]))
  {
    seq(|commands|, i requires 0 <= i < |commands| => List(Texts(commands[i])))
  }

  lemma EncodeAllFirst(commands: seq<seq<Bytes>>, rest: Bytes)
    requires commands != []
    ensures EncodeAll(commands) + rest == Encode(commands[0]) + (EncodeAll(commands[1..]) + rest)
  {
    assert EncodeAll(commands) == Encode(commands[0]) + EncodeAll(commands[1..]);
  }

  lemma ListsFirst(commands: seq<seq<Bytes>>)
    requires commands != []
    ensures Lists(commands) == [List(Texts(commands[0]))] + Lists(commands[1..])
  {
  }

  lemma {:induction false} PipelineStep(commands: seq<seq<Bytes>>, rest: Bytes)
    requires commands != [] && var tail := EncodeAll(commands[1..]) + rest;
      && Read(Encode(commands[0]) + tail) == Ok((List(Texts(commands[0])), tail))
      && ReadItems(tail, |commands| - 1) == Ok((Lists(commands[1..]), rest))
    ensures ReadItems(EncodeAll(commands) + rest, |commands|) == Ok((Lists(commands), rest))
  {
    EncodeAllFirst(commands, rest);
    ListsFirst(commands);
    ItemReadsFirst(EncodeAll(commands) + rest, |commands|, List(Texts(commands[0])), Lists(commands[1..]), rest);
  }

  /** Commands written one after the other are read back one after the other. */
  lemma {:induction false} PipelineRoundTrip(commands: seq<seq<Bytes>>, rest: Bytes)
    requires forall c :: c in commands ==> Sendable(c)
    ensures ReadItems(EncodeAll(commands) + rest, |commands|) == Ok((Lists(commands), rest))
    decreases commands
  {
    if commands == [] {
      assert EncodeAll(commands) + rest == rest;
    } else {
      RoundTrip(commands[0], EncodeAll(commands[1..]) + rest);
      PipelineRoundTrip(commands[1..], rest);
      PipelineStep(commands, rest);
    }
  }

  /** No command is the beginning of another one. */
  lemma CommandsArePrefixFree(a: seq<Bytes>, b: seq<Bytes>, x: Bytes, y: Bytes)
    requires Sendable(a) && Sendable(b)
    requires Encode(a) + x == Encode(b) + y
    ensures a == b && x == y
  {
    RoundTrip(a, x);
    RoundTrip(b, y);
    assert |Texts(a)| == |a| && |Texts(b)| == |b|;
    assert forall i :: 0 <= i < |a| ==> Text(a[i]) == Text(b[i]);
  }

  // ---------------------------------------------------------------- other replies

  function Signed(n: int): Bytes {
    if n < 0 then [MINUS] + Digits(-n) else Digits(n)
  }

  /** A reply as a server writes it, in its binary-safe forms. */
  function Print(r: Reply): Bytes
    decreases r
  {
    match r
    case Nil => [DOLLAR] + Signed(-1) + CRLF
    case Number(n) => [COLON] + Signed(n) + CRLF
    case Text(t) => Bulk(t)
    case List(items) => Header(STAR, |items|) + PrintAll(items)
  }

  function PrintAll(items: seq<Reply>): Bytes
    decreases items
  {
    if items == [] then [] else Print(items[0]) + PrintAll(items[1..])
  }

  ghost predicate Printable(r: Reply)
    decreases r
  {
    match r
    case Text(t) => Valid(t)
    case List(items) => forall i :: 0 <= i < |items| ==> Printable(items[i])
    case _ => true
  }

  lemma LineReads(line: Bytes, rest: Bytes)
    requires LF !in line
    ensures ReadLine(line + CRLF + rest) == Ok((line, rest))
  {
    var s := line + CRLF + rest;
    LineFeedAfter(line, rest);
    assert s[..|line|] == line && s[|line| + 2..] == rest;
  }

  lemma SignedReads(n: int, rest: Bytes)
    ensures ReadNumber(Signed(n) + CRLF + rest) == Ok((n, rest))
  {
    if n < 0 {
      MinusDigits(-n);
    } else {
      IntOfDigits(n);
    }
    assert LF !in Digits(if n < 0 then -n else n);
    NumberLineReads(Signed(n), n, rest);
  }

  lemma NumberLineReads(line: Bytes, n: int, rest: Bytes)
    requires LF !in line && IntOf(line).Some? && IntOf(line).value == n
    ensures ReadNumber(line + CRLF + rest) == Ok((n, rest))
  {
    LineReads(line, rest);
  }

  lemma MinusDigits(n: nat)
    ensures IntOf([MINUS] + Digits(n)).Some? && IntOf([MINUS] + Digits(n)).value == 0 - n
  {
    var s := [MINUS] + Digits(n);
    assert !IsSpace(s[0]) && IsDigit(s[|s| - 1]) && !IsSpace(s[|s| - 1]);
    assert Strip(s) == s && s[1..] == Digits(n);
    UnsignedDigits(n);
  }

  lemma PrefixedReads(prefix: Byte, n: int, rest: Bytes)
    ensures var s := [prefix] + Signed(n) + CRLF + rest;
      s[0] == prefix && ReadNumber(s[1..]) == Ok((n, rest))
  {
    assert ([prefix] + Signed(n) + CRLF + rest)[1..] == Signed(n) + CRLF + rest;
    SignedReads(n, rest);
  }

  /** Replies of every type, nested to any depth, are read back as they are, and exactly to their end. */
  lemma {:induction false} ReplyRoundTrip(r: Reply, rest: Bytes)
    requires Printable(r)
    ensures Read(Print(r) + rest) == Ok((r, rest))
    decreases r
  {
    match r
    case Nil => PrefixedReads(DOLLAR, -1, rest);
    case Number(n) => PrefixedReads(COLON, n, rest);
    case Text(t) => BulkReads(t, rest);
    case List(items) =>
      var body := PrintAll(items) + rest;
      assert Print(r) + rest == Header(STAR, |items|) + body;
      HeaderDropped(STAR, |items|, body);
      HeaderReads(|items|, body);
      ItemsRoundTrip(items, rest);
      StarReads(Header(STAR, |items|) + body, |items|, body);
  }

  lemma PrintAllFirst(items: seq<Reply>, rest: Bytes)
    requires items != []
    ensures PrintAll(items) + rest == Print(items[0]) + (PrintAll(items[1..]) + rest)
  {
    assert PrintAll(items) == Print(items[0]) + PrintAll(items[1..]);
  }

  lemma {:induction false} ItemsStep(s: Bytes, items: seq<Reply>, tail: Bytes, rest: Bytes)
    requires items != [] && Read(s) == Ok((items[0], tail))
    requires ReadItems(tail, |items| - 1) == Ok((items[1..], rest))
    ensures ReadItems(s, |items|) == Ok((items, rest))
  {
    assert [items[0]] + items[1..] == items;
    ItemReadsFirst(s, |items|, items[0], items[1..], rest);
  }

  lemma {:induction false} ItemsRoundTrip(items: seq<Reply>, rest: Bytes)
    requires forall i :: 0 <= i < |items| ==> Printable(items[i])
    ensures ReadItems(PrintAll(items) + rest, |items|) == Ok((items, rest))
    decreases items
  {
    if items == [] {
      assert PrintAll(items) + rest == rest;
    } else {
      ReplyRoundTrip(items[0], PrintAll(items[1..]) + rest);
      ItemsRoundTrip(items[1..], rest);
      PrintAllFirst(items, rest);
      ItemsStep(PrintAll(items) + rest, items, PrintAll(items[1..]) + rest, rest);
    }
  }

  lemma ItemReadsFirst(s: Bytes, n: nat, item: Reply, others: seq<Reply>, rest: Bytes)
    requires n > 0 && Read(s).Ok? && Read(s).value.0 == item
    requires ReadItems(Read(s).value.1, n - 1) == Ok((others, rest))
    ensures ReadItems(s, n) == Ok(([item] + others, rest))
  {
  }

  lemma {:induction false} PlusReads(line: Bytes, rest: Bytes)
    requires Valid(line) && ReadLine(line + CRLF + rest) == Ok((line, rest))
    ensures Read([PLUS] + line + CRLF + rest) == Ok((Text(line), rest))
  {
    assert ([PLUS] + line + CRLF + rest)[1..] == line + CRLF + rest;
  }

  lemma {:induction false} MinusReads(line: Bytes, rest: Bytes)
    requires Valid(line) && ReadLine(line + CRLF + rest) == Ok((line, rest))
    ensures Read([MINUS] + line + CRLF + rest) == Err(ServerError(line))
  {
    assert ([MINUS] + line + CRLF + rest)[1..] == line + CRLF + rest;
  }

  /** A line reply is its text, a line error is raised with its text. */
  lemma {:induction false} LineReplies(line: Bytes, rest: Bytes)
    requires Valid(line) && LF !in line
    ensures Read([PLUS] + line + CRLF + rest) == Ok((Text(line), rest))
    ensures Read([MINUS] + line + CRLF + rest) == Err(ServerError(line))
  {
    LineReads(line, rest);
    PlusReads(line, rest);
    MinusReads(line, rest);
  }

  /** Of the negative lengths -1 is nil; any other is an error for a string and an empty list for an array. */
  lemma NegativeLengths(n: int, rest: Bytes)
    requires n < 0
    ensures Read([DOLLAR] + Signed(n) + CRLF + rest) == if n == -1 then Ok((Nil, rest)) else Err(Malformed)
    ensures Read([STAR] + Signed(n) + CRLF + rest) == Ok((if n == -1 then Nil else List([]), rest))
  {
    PrefixedReads(DOLLAR, n, rest);
    PrefixedReads(STAR, n, rest);
    assert ReadItems(rest, 0) == Ok(([], rest));
  }

  // ----------------------------------------------------------------- partial frames

  lemma {:induction false} LineFeedStays(s: Bytes, more: Bytes)
    requires LineFeed(s) < |s|
    ensures LineFeed(s + more) == LineFeed(s)
  {
    var i := LineFeed(s);
    assert forall j :: 0 <= j <= i ==> (s + more)[j] == s[j];
  }

  lemma NumberStays(s: Bytes, more: Bytes)
    requires ReadNumber(s).Ok?
    ensures ReadNumber(s + more) == Ok((ReadNumber(s).value.0, ReadNumber(s).value.1 + more))
  {
    LineStays(s, more);
  }

  lemma LineStays(s: Bytes, more: Bytes)
    requires ReadLine(s).Ok?
    ensures ReadLine(s + more) == Ok((ReadLine(s).value.0, ReadLine(s).value.1 + more))
  {
    LineFeedStays(s, more);
    var i := LineFeed(s);
    assert (s + more)[..i - 1] == s[..i - 1];
    assert (s + more)[i + 1..] == s[i + 1..] + more;
  }

  lemma BulkStays(s: Bytes, n: int, more: Bytes)
    requires ReadBulk(s, n).Ok?
    ensures ReadBulk(s + more, n) == Ok((ReadBulk(s, n).value.0, ReadBulk(s, n).value.1 + more))
  {
    assert (s + more)[..n] == s[..n];
    assert (s + more)[n..n + 2] == s[n..n + 2];
    assert (s + more)[n + 2..] == s[n + 2..] + more;
  }

  /** A reply that could be read is read the same however the stream goes on. */
  lemma {:induction false} ReadStays(s: Bytes, more: Bytes)
    requires Read(s).Ok?
    ensures Read(s + more) == Ok((Read(s).value.0, Read(s).value.1 + more))
    decreases |s|, 0
  {
    var t := s[1..];
    assert (s + more)[0] == s[0] && (s + more)[1..] == t + more;
    if s[0] == PLUS {
      LineStays(t, more);
    } else {
      NumberStays(t, more);
      var n, rest := ReadNumber(t).value.0, ReadNumber(t).value.1;
      if s[0] == DOLLAR && n != -1 {
        BulkStays(rest, n, more);
      } else if s[0] == STAR && n != -1 {
        ItemsStay(rest, Max(n, 0), more);
      }
    }
  }

  lemma FirstOfItems(s: Bytes, n: nat)
    requires n > 0 && ReadItems(s, n).Ok?
    ensures Read(s).Ok? && ReadItems(Read(s).value.1, n - 1).Ok?
    ensures var others := ReadItems(Read(s).value.1, n - 1).value;
      ReadItems(s, n) == Ok(([Read(s).value.0] + others.0, others.1))
  {
  }

  lemma {:induction false} ItemsStay(s: Bytes, n: nat, more: Bytes)
    requires ReadItems(s, n).Ok?
    ensures ReadItems(s + more, n) == Ok((ReadItems(s, n).value.0, ReadItems(s, n).value.1 + more))
    decreases |s|, 1
  {
    if n > 0 {
      FirstOfItems(s, n);
      ReadStays(s, more);
      var item, rest := Read(s).value.0, Read(s).value.1;
      ItemsStay(rest, n - 1, more);
      var others := ReadItems(rest, n - 1).value;
      ItemReadsFirst(s + more, n, item, others.0, others.1 + more);
    }
  }

  lemma NothingLeftOut(parts: seq<Bytes>, t: Bytes, u: Bytes)
    requires Sendable(parts) && t + u == Encode(parts) && Read(t).Ok?
    ensures u == []
  {
    ReadStays(t, u);
    RoundTrip(parts, []);
    assert t + u == Encode(parts) + [];
  }

  /** A command cut short is never read as a reply. */
  lemma TruncatedFails(parts: seq<Bytes>, n: nat)
    requires Sendable(parts) && n < |Encode(parts)|
    ensures Read(Encode(parts)[..n]).Err?
  {
    var whole := Encode(parts);
    assert whole[..n] + whole[n..] == whole;
    if Read(whole[..n]).Ok? {
      NothingLeftOut(parts, whole[..n], whole[n..]);
    }
  }

  // ---------------------------------------------------------------- the bytes themselves

  lemma {:induction false} PingParts()
    ensures Encode([Ascii("PING")]) == Ascii("*1") + CRLF + Ascii("$4") + CRLF + Ascii("PING") + CRLF
  {
    assert Digits(1) == [49] && Digits(4) == [52];
    assert Bulks([Ascii("PING")]) == Bulk(Ascii("PING")) + Bulks([]);
    assert Header(STAR, 1) == Ascii("*1") + CRLF && Header(DOLLAR, 4) == Ascii("$4") + CRLF;
  }

  /** What goes over the wire for `PING`. */
  lemma {:induction false} PingIs()
    ensures Encode([Ascii("PING")]) == [42, 49, 13, 10, 36, 52, 13, 10, 80, 73, 78, 71, 13, 10]
  {
    PingParts();
  }

  /** The bytes that tell the replies apart; with these forms they are read back by `ReplyRoundTrip`. */
  lemma {:induction false} ReplyBytes(b: Bytes, n: int, items: seq<Reply>)
    ensures Print(Text(b)) == [36] + Digits(|b|) + [13, 10] + b + [13, 10]
    ensures Print(Number(n)) == [58] + (if n < 0 then [45] + Digits(-n) else Digits(n)) + [13, 10]
    ensures Print(List(items)) == [42] + Digits(|items|) + [13, 10] + PrintAll(items)
    ensures Print(Nil) == [36, 45, 49, 13, 10]
  {
    assert Digits(1) == [49];
  }

  /** A status line begins with a plus sign, an error line with a minus sign. */
  lemma {:induction false} LineBytes(line: Bytes, rest: Bytes)
    requires Valid(line) && 10 !in line
    ensures Read([43] + line + [13, 10] + rest) == Ok((Text(line), rest))
    ensures Read([45] + line + [13, 10] + rest) == Err(ServerError(line))
  {
    LineReplies(line, rest);
  }

  /** An exhausted stream and any other first byte are errors. */
  lemma {:induction false} OtherBytes(s: Bytes)
    requires s == [] || s[0] !in {43, 45, 58, 36, 42}
    ensures Read(s) == Err(if s == [] then Closed else UnknownPrefix)
  {
  }

  /** A line is what stands before the first line end; an empty stream is closed, anything else malformed. */
  lemma {:induction false} LineIff(s: Bytes, line: Bytes, rest: Bytes)
    ensures ReadLine(s) == Ok((line, rest)) <==> s == line + [13, 10] + rest && 10 !in line
    ensures ReadLine(s).Err? ==> ReadLine(s).error == if s == [] then Closed else Malformed
  {
    if s == line + [13, 10] + rest && 10 !in line {
      LineFeedAfter(line, rest);
      assert s[..|line|] == line && s[|line| + 2..] == rest;
    }
    var i := LineFeed(s);
    if ReadLine(s) == Ok((line, rest)) {
      assert s == s[..i - 1] + [s[i - 1], s[i]] + s[i + 1..];
      assert forall j :: 0 <= j < |line| ==> line[j] == s[j];
    }
  }

  /** As many bytes as announced and a line end are a string if they are text; nothing else is one. */
  lemma {:induction false} BulkIff(s: Bytes, n: int, t: Bytes, rest: Bytes)
    ensures ReadBulk(s, n) == Ok((Text(t), rest)) <==> |t| == n && s == t + [13, 10] + rest && Valid(t)
    ensures ReadBulk(t + [13, 10] + rest, |t|).Err? ==>
      !Valid(t) && ReadBulk(t + [13, 10] + rest, |t|).error == Undecodable
  {
    var body := t + [13, 10] + rest;
    assert body[..|t|] == t && body[|t|..|t| + 2] == [13, 10] && body[|t| + 2..] == rest;
    if ReadBulk(s, n) == Ok((Text(t), rest)) {
      assert s == s[..n] + s[n..n + 2] + s[n + 2..];
    }
  }

  /** A number as Python takes it: digits, with single underscores between them. */
  ghost predicate Grouped(s: Bytes) {
    && s != [] && s[0] != 95 && s[|s| - 1] != 95
    && (forall i :: 0 <= i < |s| ==> 48 <= s[i] <= 57 || s[i] == 95)
    && (forall i, j :: 0 <= i && j == i + 1 && j < |s| ==> s[i] != 95 || s[j] != 95)
  }

  /** The number its digits stand for. */
  function ValueOf(s: Bytes): int {
    if s == [] then 0
    else
      var before := ValueOf(s[..|s| - 1]);
      if s[|s| - 1] == 95 then before else 10 * before + (s[|s| - 1] as int - 48)
  }

  /** What is in front of the last digit and the underscore before it. */
  function Front(s: Bytes): Bytes
    requires |s| > 1
  {
    if s[|s| - 2] == 95 then s[..|s| - 2] else s[..|s| - 1]
  }

  lemma {:induction false} GroupedFront(s: Bytes)
    requires |s| > 1
    ensures Grouped(s) <==> 48 <= s[|s| - 1] <= 57 && Grouped(Front(s))
  {
    var f := Front(s);
    assert forall i :: 0 <= i < |f| ==> f[i] == s[i];
  }

  lemma {:induction false} ValueOfFront(s: Bytes)
    requires |s| > 1 && s[|s| - 1] != 95
    ensures ValueOf(s) == 10 * ValueOf(Front(s)) + (s[|s| - 1] as int - 48)
  {
    var k := |s| - 1;
    assert s[..k][..k - 1] == s[..k - 1];
  }

  lemma {:induction false} UnsignedIff(s: Bytes)
    ensures Unsigned(s).Some? <==> Grouped(s)
    ensures Unsigned(s).Some? ==> Unsigned(s).value == ValueOf(s)
    decreases |s|
  {
    if |s| == 1 {
      assert s[..0] == [];
    } else if |s| > 1 {
      UnsignedIff(Front(s));
      GroupedFront(s);
      if IsDigit(s[|s| - 1]) {
        ValueOfFront(s);
      }
    }
  }

  predicate Spaces(s: Bytes) {
    forall i :: 0 <= i < |s| ==> s[i] == 32 || 9 <= s[i] <= 13
  }

  lemma {:induction false} StripSpaces(a: Bytes, core: Bytes, b: Bytes)
    requires Spaces(a) && Spaces(b)
    requires core != [] && !IsSpace(core[0]) && !IsSpace(core[|core| - 1])
    ensures Strip(a + core + b) == core
    decreases |a| + |b|
  {
    var s := a + core + b;
    if a != [] {
      assert s[0] == a[0] && s[1..] == a[1..] + core + b;
      StripSpaces(a[1..], core, b);
    } else if b != [] {
      var n := |b| - 1;
      assert s[0] == core[0] && s[|s| - 1] == b[n] && s[..|s| - 1] == a + core + b[..n];
      StripSpaces(a, core, b[..n]);
    } else {
      assert s == core;
    }
  }

  lemma {:induction false} StripParts(s: Bytes) returns (a: Bytes, b: Bytes)
    ensures Spaces(a) && Spaces(b) && s == a + Strip(s) + b
    decreases |s|
  {
    if s == [] {
      a, b := [], [];
    } else if IsSpace(s[0]) {
      a, b := StripParts(s[1..]);
      a := [s[0]] + a;
      assert s == [s[0]] + s[1..];
    } else if IsSpace(s[|s| - 1]) {
      a, b := StripParts(s[..|s| - 1]);
      b := b + [s[|s| - 1]];
      assert s == s[..|s| - 1] + [s[|s| - 1]];
    } else {
      a, b := [], [];
    }
  }

  predicate Sign(s: Bytes) {
    s == [] || s == [43] || s == [45]
  }

  /** What is read of a line once spaces are gone. */
  lemma SignedCore(line: Bytes, sign: Bytes, digits: Bytes)
    requires Sign(sign) && Strip(line) == sign + digits && Grouped(digits)
    ensures IntOf(line) == Some(if sign == [45] then -ValueOf(digits) else ValueOf(digits))
  {
    UnsignedIff(digits);
    var core := sign + digits;
    if sign == [] {
      assert core == digits;
    } else {
      assert core[0] == sign[0] && core[1..] == digits;
    }
  }

  /** Spaces around a number, and a sign before it, are taken as Python takes them. */
  lemma {:induction false} SpacedNumber(a: Bytes, sign: Bytes, digits: Bytes, b: Bytes)
    requires Spaces(a) && Spaces(b) && Sign(sign) && Grouped(digits)
    ensures IntOf(a + (sign + digits) + b) == Some(if sign == [45] then -ValueOf(digits) else ValueOf(digits))
  {
    var core := sign + digits;
    assert core[|core| - 1] == digits[|digits| - 1];
    StripSpaces(a, core, b);
    SignedCore(a + core + b, sign, digits);
  }

  lemma SplitSign(core: Bytes) returns (sign: Bytes, digits: Bytes)
    ensures Sign(sign) && core == sign + digits
    ensures if core != [] && core[0] in {43, 45} then digits == core[1..] else digits == core
  {
    if core != [] && core[0] in {43, 45} {
      sign, digits := [core[0]], core[1..];
    } else {
      sign, digits := [], core;
    }
  }

  /** Nothing else is taken for a number. */
  lemma {:induction false} OnlySpacedNumbers(line: Bytes) returns (a: Bytes, sign: Bytes, digits: Bytes, b: Bytes)
    requires IntOf(line).Some?
    ensures Spaces(a) && Spaces(b) && Sign(sign) && Grouped(digits) && line == a + (sign + digits) + b
  {
    a, b := StripParts(line);
    sign, digits := SplitSign(Strip(line));
    UnsignedIff(digits);
  }

  // ----------------------------------------------------------------- the stream

  class Stream {
    const data: Bytes
    var pos: nat

    ghost predicate Valid() reads this { pos <= |data| }

    function Rest(): Bytes
      reads this
      requires Valid()
    {
      data[pos..]
    }

    constructor (data: Bytes)
      ensures this.data == data && Valid() && Rest() == data
    {
      this.data, pos := data, 0;
    }

    /** Up to `n` bytes, or all of them for a negative `n`. */
    method Take(n: int) returns (part: Bytes)
      requires Valid()
      modifies this
      ensures Valid()
      ensures var m := if n < 0 then |old(Rest())| else Min(n, |old(Rest())|);
        part == old(Rest())[..m] && Rest() == old(Rest())[m..]
    {
      var m := if n < 0 then |data| - pos else Min(n, |data| - pos);
      part := data[pos..pos + m];
      pos := pos + m;
    }

    /** Up to and including the next line feed, or to the end. */
    method TakeLine() returns (line: Bytes)
      requires Valid()
      modifies this
      ensures Valid()
      ensures var s := old(Rest());
        var m := Min(LineFeed(s) + 1, |s|);
        line == s[..m] && Rest() == s[m..]
    {
      ghost var s := Rest();
      var end := pos;
      while end < |data| && data[end] != LF
        invariant pos <= end <= |data| && pos == old(pos)
        invariant forall j :: 0 <= j < end - pos ==> s[j] != LF
      {
        assert s[end - pos] == data[end];
        end := end + 1;
      }
      FirstLineFeed(s, end - pos);
      if end < |data| {
        end := end + 1;
      }
      line := data[pos..end];
      pos := end;
    }
  }

  lemma FirstLineFeed(s: Bytes, i: nat)
    requires i <= |s| && (i < |s| ==> s[i] == LF)
    requires forall j :: 0 <= j < i ==> s[j] != LF
    ensures LineFeed(s) == i
  {
  }

  method NextLine(stream: Stream) returns (r: Result<Bytes, Error>)
    requires stream.Valid()
    modifies stream
    ensures stream.Valid()
    ensures Answers(ReadLine(old(stream.Rest())), r, stream.Rest())
  {
    ghost var s := stream.Rest();
    var line := stream.TakeLine();
    if line == [] {
      return Err(Closed);
    }
    if |line| < 2 || line[|line| - 2..] != CRLF {
      NotALine(s);
      return Err(Malformed);
    }
    IsALine(s, line);
    r := Ok(line[..|line| - 2]);
  }

  /** A result agrees with what the specification reads, and the stream with what it leaves. */
  ghost predicate Answers<T(!new)>(spec: Result<(T, Bytes), Error>, r: Result<T, Error>, rest: Bytes) {
    match r
    case Ok(value) => spec == Ok((value, rest))
    case Err(error) => spec == Err(error)
  }

  lemma EndsInCrlf(line: Bytes)
    requires |line| >= 2 && line[|line| - 2..] == CRLF
    ensures line[|line| - 2] == CR && line[|line| - 1] == LF
  {
    assert line[|line| - 2..][0] == CR && line[|line| - 2..][1] == LF;
  }

  /** A cut that ends in a line feed was made at the first one. */
  lemma CutAtLineFeed(s: Bytes, line: Bytes)
    requires line == s[..Min(LineFeed(s) + 1, |s|)] && line != [] && line[|line| - 1] == LF
    ensures |line| == LineFeed(s) + 1
  {
    assert s[|line| - 1] == LF;
  }

  lemma {:induction false} IsALine(s: Bytes, line: Bytes)
    requires line == s[..Min(LineFeed(s) + 1, |s|)] && |line| >= 2 && line[|line| - 2..] == CRLF
    ensures ReadLine(s) == Ok((line[..|line| - 2], s[Min(LineFeed(s) + 1, |s|)..]))
  {
    EndsInCrlf(line);
    CutAtLineFeed(s, line);
    var i := LineFeed(s);
    assert s[i - 1] == line[i - 1];
    assert s[..i + 1][..i - 1] == s[..i - 1];
  }

  lemma NotALine(s: Bytes)
    requires var line := s[..Min(LineFeed(s) + 1, |s|)];
      line != [] && (|line| < 2 || line[|line| - 2..] != CRLF)
    ensures ReadLine(s) == Err(Malformed)
  {
    if LineFeed(s) < |s| && LineFeed(s) > 0 && s[LineFeed(s) - 1] == CR {
      ALine(s);
    }
  }

  lemma ALine(s: Bytes)
    requires 0 < LineFeed(s) < |s| && s[LineFeed(s) - 1] == CR
    ensures var line := s[..LineFeed(s) + 1]; |line| >= 2 && line[|line| - 2..] == CRLF
  {
  }

  method ReadInt(stream: Stream) returns (r: Result<int, Error>)
    requires stream.Valid()
    modifies stream
    ensures stream.Valid()
    ensures Answers(ReadNumber(old(stream.Rest())), r, stream.Rest())
  {
    var line := NextLine(stream);
    if line.Err? {
      return Err(line.error);
    }
    var n := IntOf(line.value);
    r := if n.None? then Err(Malformed) else Ok(n.value);
  }

  method ReadString(stream: Stream) returns (r: Result<Bytes, Error>)
    requires stream.Valid()
    modifies stream
    ensures stream.Valid()
    ensures Answers(ReadText(old(stream.Rest())), r, stream.Rest())
  {
    var line := NextLine(stream);
    if line.Ok? && !Valid(line.value) {
      return Err(Undecodable);
    }
    r := line;
  }

  method ReadBody(stream: Stream, length: int) returns (r: Result<Reply, Error>)
    requires stream.Valid()
    modifies stream
    ensures stream.Valid()
    ensures Answers(ReadBulk(old(stream.Rest()), length), r, stream.Rest())
  {
    ghost var s := stream.Rest();
    var data := stream.Take(length);
    ghost var after := stream.Rest();
    var terminator := stream.Take(2);
    if |data| != length || terminator != CRLF {
      assert length >= 0 && |s| >= length + 2 ==> s[length..length + 2] == after[..2];
      return Err(Malformed);
    }
    assert s[length..length + 2] == after[..2];
    if !Valid(data) {
      return Err(Undecodable);
    }
    r := Ok(Text(data));
  }

  method ReadResp(stream: Stream) returns (r: Result<Reply, Error>)
    requires stream.Valid()
    modifies stream
    ensures stream.Valid()
    ensures Answers(Read(old(stream.Rest())), r, stream.Rest())
    decreases |stream.Rest()|, 0
  {
    ghost var s := stream.Rest();
    var prefix := stream.Take(1);
    if prefix == [] {
      return Err(Closed);
    }
    assert prefix[0] == s[0] && stream.Rest() == s[1..];
    if prefix[0] == PLUS {
      var text := ReadString(stream);
      r := if text.Ok? then Ok(Text(text.value)) else Err(text.error);
    } else if prefix[0] == MINUS {
      var text := ReadString(stream);
      r := Err(if text.Ok? then ServerError(text.value) else text.error);
    } else if prefix[0] == COLON {
      var n := ReadInt(stream);
      r := if n.Ok? then Ok(Number(n.value)) else Err(n.error);
    } else if prefix[0] == DOLLAR {
      var n := ReadInt(stream);
      if n.Err? {
        return Err(n.error);
      }
      if n.value == -1 {
        return Ok(Nil);
      }
      r := ReadBody(stream, n.value);
    } else if prefix[0] == STAR {
      var n := ReadInt(stream);
      if n.Err? {
        return Err(n.error);
      }
      if n.value == -1 {
        return Ok(Nil);
      }
      var items := ReadList(stream, n.value);
      r := if items.Ok? then Ok(List(items.value)) else Err(items.error);
    } else {
      r := Err(UnknownPrefix);
    }
  }

  /** What is left to read, put behind what was read. */
  function After(items: seq<Reply>, r: Result<(seq<Reply>, Bytes), Error>): Result<(seq<Reply>, Bytes), Error> {
    if r.Ok? then Ok((items + r.value.0, r.value.1)) else r
  }

  /** The specification of a list is met by `items` and what the stream still holds of it. */
  ghost predicate Remaining(spec: Result<(seq<Reply>, Bytes), Error>, items: seq<Reply>, rest: Bytes, n: nat) {
    spec == After(items, ReadItems(rest, n))
  }

  method ReadList(stream: Stream, length: int) returns (r: Result<seq<Reply>, Error>)
    requires stream.Valid()
    modifies stream
    ensures stream.Valid()
    ensures Answers(ReadItems(old(stream.Rest()), Max(length, 0)), r, stream.Rest())
    decreases |stream.Rest()|, 3
  {
    var n := Max(length, 0);
    ghost var spec := ReadItems(stream.Rest(), n);
    AfterNone(spec);
    r := ReadRemaining(stream, n, spec);
  }

  /** One item of the list, or the error that ends it. */
  method ReadItem(stream: Stream, n: nat, ghost spec: Result<(seq<Reply>, Bytes), Error>, ghost items: seq<Reply>)
    returns (item: Result<Reply, Error>)
    requires n > 0 && stream.Valid() && Remaining(spec, items, stream.Rest(), n)
    modifies stream
    ensures stream.Valid()
    ensures item.Ok? ==>
      |stream.Rest()| <= |old(stream.Rest())| && Remaining(spec, items + [item.value], stream.Rest(), n - 1)
    ensures item.Err? ==> spec == Err(item.error)
    decreases |stream.Rest()|, 1
  {
    ghost var rest := stream.Rest();
    item := ReadResp(stream);
    if item.Ok? {
      RemainingNext(spec, items, rest, n);
    } else {
      RemainingFails(spec, items, rest, n);
    }
  }

  method ReadRemaining(stream: Stream, n: nat, ghost spec: Result<(seq<Reply>, Bytes), Error>)
    returns (r: Result<seq<Reply>, Error>)
    requires stream.Valid() && Remaining(spec, [], stream.Rest(), n)
    modifies stream
    ensures stream.Valid() && Answers(spec, r, stream.Rest())
    decreases |stream.Rest()|, 2
  {
    var items: seq<Reply> := [];
    for i := 0 to n
      invariant stream.Valid() && |stream.Rest()| <= |old(stream.Rest())|
      invariant Remaining(spec, items, stream.Rest(), n - i)
    {
      var item := ReadItem(stream, n - i, spec, items);
      if item.Err? {
        return Err(item.error);
      }
      items := items + [item.value];
    }
    RemainingDone(spec, items, stream.Rest());
    r := Ok(items);
  }

  lemma RemainingNext(spec: Result<(seq<Reply>, Bytes), Error>, items: seq<Reply>, rest: Bytes, n: nat)
    requires n > 0 && Remaining(spec, items, rest, n) && Read(rest).Ok?
    ensures Remaining(spec, items + [Read(rest).value.0], Read(rest).value.1, n - 1)
  {
    ItemsUnfold(rest, n);
    AfterOne(items, Read(rest).value.0, ReadItems(Read(rest).value.1, n - 1));
  }

  lemma RemainingFails(spec: Result<(seq<Reply>, Bytes), Error>, items: seq<Reply>, rest: Bytes, n: nat)
    requires n > 0 && Remaining(spec, items, rest, n) && Read(rest).Err?
    ensures spec == Err(Read(rest).error)
  {
    ItemsUnfold(rest, n);
  }

  lemma RemainingDone(spec: Result<(seq<Reply>, Bytes), Error>, items: seq<Reply>, rest: Bytes)
    requires Remaining(spec, items, rest, 0)
    ensures spec == Ok((items, rest))
  {
    assert items + [] == items;
  }

  lemma ItemsUnfold(s: Bytes, n: nat)
    requires n > 0
    ensures ReadItems(s, n) ==
      match Read(s)
      case Err(e) => Err(e)
      case Ok((item, rest)) => After([item], ReadItems(rest, n - 1))
  {
  }

  lemma AfterNone(r: Result<(seq<Reply>, Bytes), Error>)
    ensures After([], r) == r
  {
    if r.Ok? {
      assert [] + r.value.0 == r.value.0;
    }
  }

  lemma AfterOne(items: seq<Reply>, item: Reply, r: Result<(seq<Reply>, Bytes), Error>)
    ensures After(items, After([item], r)) == After(items + [item], r)
  {
    if r.Ok? {
      assert items + ([item] + r.value.0) == (items + [item]) + r.value.0;
    }
  }
}
