/**
 * Eliding the middle of one string leaf: head, marker, tail. Both cuts are snapped
 * to character boundaries; the marker counts the raw bytes removed.
 */
module Elision {
  import opened Prelude
  import opened Utf8
  import opened Json

  const RETAIN_BYTES := 3_000
  const USIZE_LIMIT := 0x1_0000_0000_0000_0000

  // ---------------------------------------------------------------- boundaries

  /** The last character boundary at or before `i`. */
  function FloorBoundary(s: Bytes, i: nat): (j: nat)
    requires i <= |s|
    ensures j <= i && Boundary(s, j)
    ensures forall k :: j < k <= i ==> !Boundary(s, k)
  {
    if Boundary(s, i) then i else FloorBoundary(s, i - 1)
  }

  /** The first character boundary at or after `i`. */
  function CeilBoundary(s: Bytes, i: nat): (j: nat)
    requires i <= |s|
    ensures i <= j <= |s| && Boundary(s, j)
    ensures forall k :: i <= k < j ==> !Boundary(s, k)
    decreases |s| - i
  {
    if Boundary(s, i) then i else CeilBoundary(s, i + 1)
  }

  method FloorCharBoundary(s: Bytes, start: nat) returns (i: nat)
    requires start <= |s|
    ensures i == FloorBoundary(s, start)
  {
    i := start;
    while i > 0 && !Boundary(s, i)
      invariant i <= start
      invariant FloorBoundary(s, start) == FloorBoundary(s, i)
    {
      i := i - 1;
    }
  }

  method CeilCharBoundary(s: Bytes, start: nat) returns (i: nat)
    requires start <= |s|
    ensures i == CeilBoundary(s, start)
  {
    i := start;
    while i < |s| && !Boundary(s, i)
      invariant start <= i <= |s|
      invariant CeilBoundary(s, start) == CeilBoundary(s, i)
    {
      i := i + 1;
    }
  }

  // ------------------------------------------------------------------- elision

  const ELLIPSIS: Bytes := [0xE2, 0x80, 0xA6]

  /** The part of the marker between its two ellipses: printable ASCII, nothing to escape. */
  function MarkerText(removed: nat): (m: Bytes)
    ensures |m| == 15 + |Digits(removed)| && m[0] == 0x5B
    ensures forall i :: 0 <= i < |m| ==> m[i] < 128 && EscLen(m[i]) == 1
  {
    Ascii("[elided ") + Digits(removed) + Ascii(" bytes]")
  }

  function Marker(removed: nat): (m: Bytes)
    ensures |m| == 21 + |Digits(removed)|
  {
    ELLIPSIS + MarkerText(removed) + ELLIPSIS
  }

  function HeadEnd(s: Bytes): (h: nat)
    ensures h <= |s| && h <= RETAIN_BYTES
  {
    FloorBoundary(s, Min(RETAIN_BYTES, |s|))
  }

  function TailStart(s: Bytes): (t: nat)
    ensures HeadEnd(s) <= t <= |s| && Boundary(s, t)
  {
    Max(CeilBoundary(s, Max(0, |s| - RETAIN_BYTES)), HeadEnd(s))
  }

  /** Bytes the elision cuts out. */
  function Removed(s: Bytes): nat {
    TailStart(s) - HeadEnd(s)
  }

  predicate LeafShrinks(s: Bytes) {
    Removed(s) > 0 && HeadEnd(s) + |Marker(Removed(s))| + (|s| - TailStart(s)) < |s|
  }

  function Elide(s: Bytes): Bytes {
    s[..HeadEnd(s)] + Marker(Removed(s)) + s[TailStart(s)..]
  }

  lemma {:induction false} DigitsBound(n: nat, limit: nat, k: nat)
    requires k >= 1 && limit == Pow10(k) && n < limit
    ensures |Digits(n)| <= k
    decreases k
  {
    if n >= 10 {
      assert k >= 2;
      DigitsBound(n / 10, Pow10(k - 1), k - 1);
    }
  }

  function Pow10(k: nat): nat {
    if k == 0 then 1 else 10 * Pow10(k - 1)
  }

  lemma {:induction false} Pow10Add(a: nat, b: nat)
    ensures Pow10(a + b) == Pow10(a) * Pow10(b)
  {
    if a > 0 {
      Pow10Add(a - 1, b);
    }
  }

  /** With at most 6000 bytes the two retained ends leave at most six bytes to cut. */
  lemma ShortCutsLittle(s: Bytes)
    requires Valid(s) && |s| <= 2 * RETAIN_BYTES
    ensures Removed(s) <= 6
  {
    if |s| > RETAIN_BYTES {
      BoundaryNearby(s, RETAIN_BYTES);
      CeilNearby(s, |s| - RETAIN_BYTES);
    }
  }

  /** What a shrinking string keeps: two ends of 2997 to 3000 bytes each. */
  lemma ShrinkingIsLong(s: Bytes)
    requires Valid(s) && LeafShrinks(s)
    ensures |s| > 2 * RETAIN_BYTES
    ensures RETAIN_BYTES - 3 <= HeadEnd(s)
    ensures RETAIN_BYTES - 3 <= |s| - TailStart(s) <= RETAIN_BYTES
    ensures Removed(s) > 21 + |Digits(Removed(s))|
  {
    if |s| <= 2 * RETAIN_BYTES {
      ShortCutsLittle(s);
    } else {
      BoundaryNearby(s, RETAIN_BYTES);
      CeilNearby(s, |s| - RETAIN_BYTES);
    }
  }

  lemma CeilNearby(s: Bytes, i: nat)
    requires Valid(s) && i <= |s|
    ensures CeilBoundary(s, i) <= i + 3
  {
    var c := CeilBoundary(s, i);
    if c > i {
      BoundaryNearby(s, c - 1);
      var j :| c - 1 - 3 <= j <= c - 1 && 0 <= j && Boundary(s, j);
      assert j < i;
    }
  }

  lemma MarkerValid(n: nat)
    ensures Valid(Marker(n))
    ensures EscLens(Marker(n)) == |Marker(n)|
  {
    var text := MarkerText(n);
    AsciiValid(text);
    assert Valid(ELLIPSIS) by { assert HeadLen(ELLIPSIS) == 3; assert ELLIPSIS[3..] == []; }
    ValidConcat(ELLIPSIS, text);
    ValidConcat(ELLIPSIS + text, ELLIPSIS);
    PlainEscLens(ELLIPSIS);
    PlainEscLens(text);
    EscLensConcat(ELLIPSIS, text);
    EscLensConcat(ELLIPSIS + text, ELLIPSIS);
  }

  // ------------------------------------------------------- what the marker says

  /** The number that decimal digits stand for. */
  function Decimal(digits: Bytes): int {
    if digits == [] then 0
    else 10 * Decimal(digits[..|digits| - 1]) + (digits[|digits| - 1] as int - 48)
  }

  lemma {:induction false} DigitsSay(n: nat)
    ensures Decimal(Digits(n)) == n
  {
    if n < 10 {
      assert Digits(n) == [48 + n] && Digits(n)[..0] == [];
    } else {
      assert Digits(n) == Digits(n / 10) + [48 + n % 10];
      assert Digits(n)[..|Digits(n)| - 1] == Digits(n / 10);
      DigitsSay(n / 10);
    }
  }

  /** The number in an elision marker. */
  function Said(marker: Bytes): int
    requires |marker| >= 21
  {
    Decimal(marker[11..|marker| - 10])
  }

  lemma MarkerSays(n: nat)
    ensures var m := Marker(n);
      && m[..11] == [0xE2, 0x80, 0xA6] + Ascii("[elided ")
      && m[|m| - 10..] == Ascii(" bytes]") + [0xE2, 0x80, 0xA6]
      && Said(m) == n
  {
    DigitsSay(n);
    assert Marker(n)[11..|Marker(n)| - 10] == Digits(n);
  }

  /**
   * An elided leaf is its head, a marker and its tail, and the marker tells how many bytes
   * lay between them.
   */
  lemma {:induction false} MarkerTellsLoss(s: Bytes)
    ensures var m := Marker(Removed(s));
      && Elide(s) == s[..HeadEnd(s)] + m + s[TailStart(s)..]
      && Said(m) == |s| - |s[..HeadEnd(s)]| - |s[TailStart(s)..]|
  {
    MarkerSays(Removed(s));
  }

  lemma {:induction false} PlainEscLens(s: Bytes)
    requires forall i :: 0 <= i < |s| ==> EscLen(s[i]) == 1
    ensures EscLens(s) == |s|
  {
    if s != [] {
      PlainEscLens(s[1..]);
    }
  }

  lemma ElideValid(s: Bytes)
    requires Valid(s)
    ensures Valid(Elide(s))
  {
    var m := Marker(Removed(s));
    MarkerValid(Removed(s));
    ValidSplit(s, HeadEnd(s));
    ValidSplit(s, TailStart(s));
    ValidConcat(s[..HeadEnd(s)], m);
    ValidConcat(s[..HeadEnd(s)] + m, s[TailStart(s)..]);
  }

  lemma EscLensThree(a: Bytes, b: Bytes, c: Bytes)
    ensures EscLens(a + b + c) == EscLens(a) + EscLens(b) + EscLens(c)
  {
    EscLensConcat(a + b, c);
    EscLensConcat(a, b);
  }

  /** One elision keeps the string well-formed and makes its serialisation strictly shorter. */
  /** Replacing the middle by a plain text shorter than it shortens the serialisation too. */
  lemma ShorterMiddle(a: Bytes, m: Bytes, b: Bytes, c: Bytes)
    requires |m| < |b| && EscLens(m) == |m|
    ensures EscLens(a + m + c) < EscLens(a + b + c)
  {
    EscLensThree(a, m, c);
    EscLensThree(a, b, c);
  }

  lemma ShorterSerialised(s: Bytes)
    requires LeafShrinks(s)
    ensures StrLen(Elide(s)) < StrLen(s)
  {
    var h, t := HeadEnd(s), TailStart(s);
    MarkerValid(Removed(s));
    assert s == s[..h] + s[h..t] + s[t..];
    ShorterMiddle(s[..h], Marker(Removed(s)), s[h..t], s[t..]);
  }

  lemma {:induction false} ElideShrinks(s: Bytes)
    requires Valid(s) && LeafShrinks(s)
    ensures Valid(Elide(s)) && |Elide(s)| < |s|
    ensures StrLen(Elide(s)) < StrLen(s)
  {
    ElideValid(s);
    ShorterSerialised(s);
  }

  /** The byte layout of an elided string around the two ends of its marker. */
  lemma ElideLayout(s: Bytes)
    requires Valid(s) && LeafShrinks(s)
    ensures var e, h, c := Elide(s), HeadEnd(s), HeadEnd(s) + 21 + |Digits(Removed(s))|;
      && |e| == c + (|s| - TailStart(s))
      && e[..h] == s[..h] && e[c..] == s[TailStart(s)..]
      && e[h] == 0xE2 && e[h + 1] == 0x80 && e[h + 2] == 0xA6 && e[h + 3] == 0x5B
      && e[c - 3] == 0xE2 && e[c - 2] == 0x80 && e[c - 1] == 0xA6
  {
    ShrinkingIsLong(s);
    var m, h := Marker(Removed(s)), HeadEnd(s);
    assert Elide(s)[h..h + |m|] == m;
    assert m[3] == MarkerText(Removed(s))[0];
    var k := |m|;
    assert m[k - 3..] == ELLIPSIS;
    assert m[k - 3] == 0xE2 && m[k - 2] == 0x80 && m[k - 1] == 0xA6;
  }

  lemma SecondHead(s: Bytes)
    requires Valid(s) && LeafShrinks(s)
    ensures HeadEnd(Elide(s)) == if HeadEnd(s) == RETAIN_BYTES - 3 then RETAIN_BYTES else HeadEnd(s)
  {
    ShrinkingIsLong(s);
    ElideLayout(s);
    var e, h := Elide(s), HeadEnd(s);
    assert RETAIN_BYTES < |e|;
    assert Boundary(e, h) && Boundary(e, h + 3);
    assert !Boundary(e, h + 1) && !Boundary(e, h + 2);
    assert HeadEnd(e) == FloorBoundary(e, RETAIN_BYTES);
  }

  /** The kept tail of an elided leaf begins a character, right after the marker's last one. */
  lemma TailBoundaries(s: Bytes, c: nat)
    requires Valid(s) && LeafShrinks(s) && c == |Elide(s)| - (|s| - TailStart(s))
    ensures 3 <= c < |Elide(s)|
    ensures Boundary(Elide(s), c) && Boundary(Elide(s), c - 3) && !Boundary(Elide(s), c - 1) && !Boundary(Elide(s), c - 2)
  {
    ShrinkingIsLong(s);
    ElideLayout(s);
    var e := Elide(s);
    assert e[c] == e[c..][0] == s[TailStart(s)..][0] == s[TailStart(s)];
  }

  lemma {:induction false} SecondTail(s: Bytes)
    requires Valid(s) && LeafShrinks(s)
    ensures |Elide(s)| - TailStart(Elide(s))
         == if |s| - TailStart(s) == RETAIN_BYTES - 3 then RETAIN_BYTES else |s| - TailStart(s)
  {
    ShrinkingIsLong(s);
    ElideLayout(s);
    var e, tail := Elide(s), |s| - TailStart(s);
    TailBoundaries(s, |e| - tail);
    assert |e| > 2 * RETAIN_BYTES;
    assert TailStart(e) == CeilBoundary(e, |e| - RETAIN_BYTES);
  }

  /** Where the second elision of a string would cut: inside the marker of the first, or around it. */
  lemma {:induction false} SecondCut(s: Bytes)
    requires Valid(s) && LeafShrinks(s)
    ensures HeadEnd(Elide(s)) == if HeadEnd(s) == RETAIN_BYTES - 3 then RETAIN_BYTES else HeadEnd(s)
    ensures |Elide(s)| - TailStart(Elide(s))
         == if |s| - TailStart(s) == RETAIN_BYTES - 3 then RETAIN_BYTES else |s| - TailStart(s)
  {
    SecondHead(s);
    SecondTail(s);
  }

  lemma FewDigits(n: nat)
    requires n < USIZE_LIMIT
    ensures |Digits(n)| <= 20
  {
    assert Pow10(10) == 10_000_000_000;
    Pow10Add(10, 10);
    DigitsBound(n, Pow10(20), 20);
  }

  lemma TwoDigits(n: nat)
    requires 10 <= n < 100
    ensures |Digits(n)| == 2
  {
    assert Digits(n) == Digits(n / 10) + [48 + n % 10];
  }

  /** How many bytes the marker's own ellipses add to the retained ends of an elided string. */
  function Absorbed(s: Bytes): nat {
    (if HeadEnd(s) == RETAIN_BYTES - 3 then 3 else 0)
    + (if |s| - TailStart(s) == RETAIN_BYTES - 3 then 3 else 0)
  }

  lemma SecondRemoved(s: Bytes)
    requires Valid(s) && |s| < USIZE_LIMIT && LeafShrinks(s)
    ensures Removed(Elide(s)) == 21 + |Digits(Removed(s))| - Absorbed(s)
    ensures |Digits(Removed(Elide(s)))| == 2
  {
    SecondCut(s);
    ElideLayout(s);
    FewDigits(Removed(s));
    TwoDigits(Removed(Elide(s)));
  }

  /**
   * The doc comment of the trimming loop says that an elided leaf is never elided
   * again. It is, exactly when the number in its marker has more than two digits
   * (three or six more digits are needed when a four-byte character at a cut left
   * room for the marker's own ellipsis among the 3000 retained bytes).
   */
  lemma ReElidedIff(s: Bytes)
    requires Valid(s) && |s| < USIZE_LIMIT && LeafShrinks(s)
    ensures LeafShrinks(Elide(s)) <==> |Digits(Removed(s))| > 2 + Absorbed(s)
  {
    SecondRemoved(s);
    var e := Elide(s);
    assert LeafShrinks(e) <==> Removed(e) > 23;
  }

  /** No string is elided three times. */
  lemma {:induction false} AtMostTwice(s: Bytes)
    requires Valid(s) && |s| < USIZE_LIMIT && LeafShrinks(s) && LeafShrinks(Elide(s))
    ensures !LeafShrinks(Elide(Elide(s)))
  {
    ElideShrinks(s);
    SecondRemoved(s);
    SecondCut(s);
    ReElidedIff(Elide(s));
  }

  /**
   * A leaf that is elided twice misreports its loss: at least 100 bytes of the
   * original are gone, and the surviving marker says 16 to 41.
   */
  lemma {:induction false} SecondMarkerMisreports(s: Bytes)
    requires Valid(s) && |s| < USIZE_LIMIT && LeafShrinks(s) && LeafShrinks(Elide(s))
    ensures Removed(s) >= 100 && 16 <= Removed(Elide(s)) <= 41
  {
    ReElidedIff(s);
    SecondRemoved(s);
    FewDigits(Removed(s));
    if Removed(s) < 100 {
      if Removed(s) >= 10 { TwoDigits(Removed(s)); }
    }
  }

  function Repeat(b: Byte, n: nat): Bytes {
    seq(n, i => b)
  }

  /** A concrete leaf the loop can elide twice: 6200 letters `x` end up marked "elided 24 bytes". */
  lemma ReElisionExample()
    ensures var s := Repeat(0x78, 6_200);
      Valid(s) && LeafShrinks(s) && Removed(s) == 200
      && LeafShrinks(Elide(s)) && Removed(Elide(s)) == 24
  {
    var s := Repeat(0x78, 6_200);
    AsciiValid(s);
    ExampleCuts(s);
    ThreeDigits();
    SecondRemoved(s);
    ReElidedIff(s);
  }

  lemma ExampleCuts(s: Bytes)
    requires s == Repeat(0x78, 6_200)
    ensures HeadEnd(s) == 3_000 && TailStart(s) == 3_200
  {
    assert Boundary(s, 3_000) && Boundary(s, 3_200);
  }

  lemma ThreeDigits()
    ensures |Digits(200)| == 3
  {
    assert Digits(200) == Digits(20) + [48];
    TwoDigits(20);
  }

  // ------------------------------------------------------------ repeated passes

  /** `t` is what some number of elisions, each of a shrinking string, make of `s`. */
  predicate Trims(s: Bytes, t: Bytes)
    decreases |s|
  {
    t == s || (LeafShrinks(s) && Trims(Elide(s), t))
  }

  /** Elided until nothing shrinks. */
  function FloorText(s: Bytes): (t: Bytes)
    ensures !LeafShrinks(t)
    decreases |s|
  {
    if LeafShrinks(s) then FloorText(Elide(s)) else s
  }

  /** How often `s` can be elided. */
  function Passes(s: Bytes): nat
    decreases |s|
  {
    if LeafShrinks(s) then 1 + Passes(Elide(s)) else 0
  }

  /** What a Rust string is: well-formed UTF-8 whose length fits `usize`. */
  predicate RustText(s: Bytes) {
    Valid(s) && |s| < USIZE_LIMIT
  }

  lemma PassesAtMostTwo(s: Bytes)
    requires RustText(s)
    ensures Passes(s) <= 2
  {
    if LeafShrinks(s) {
      ElideShrinks(s);
      if LeafShrinks(Elide(s)) {
        AtMostTwice(s);
        assert Passes(Elide(s)) == 1 + Passes(Elide(Elide(s)));
      }
    }
  }

  lemma {:induction false} TrimsStep(s: Bytes, t: Bytes)
    requires Trims(s, t) && LeafShrinks(t)
    ensures Trims(s, Elide(t))
    decreases |s|
  {
    if t == s {
      assert Trims(Elide(s), Elide(t));
    } else {
      TrimsStep(Elide(s), t);
    }
  }

  /** All the ways of eliding `s` lead to the same floor, never below it. */
  lemma {:induction false} TrimsToFloor(s: Bytes, t: Bytes)
    requires Valid(s) && Trims(s, t)
    ensures FloorText(t) == FloorText(s) && EscLens(FloorText(s)) <= EscLens(t) <= EscLens(s)
    decreases |s|
  {
    if LeafShrinks(s) {
      ElideShrinks(s);
      if t == s {
        TrimsToFloor(Elide(s), Elide(s));
      } else {
        TrimsToFloor(Elide(s), t);
      }
    }
  }

  ghost predicate EndsWith(t: Bytes, tail: Bytes) {
    |tail| <= |t| && t[|t| - |tail|..] == tail
  }

  lemma EndsWithTrans(t: Bytes, longer: Bytes, tail: Bytes)
    requires EndsWith(t, longer) && EndsWith(longer, tail)
    ensures EndsWith(t, tail)
  {
    assert t[|t| - |tail|..] == t[|t| - |longer|..][|longer| - |tail|..];
  }

  /** The next pass retains at least the ends this pass retained. */
  lemma {:induction false} ElideRetainsEnds(s: Bytes)
    requires Valid(s) && LeafShrinks(s)
    ensures s[..HeadEnd(s)] <= Elide(s)[..HeadEnd(Elide(s))]
    ensures EndsWith(Elide(s)[TailStart(Elide(s))..], s[TailStart(s)..])
  {
    ElideLayout(s);
    SecondCut(s);
    var e, c := Elide(s), |Elide(s)| - (|s| - TailStart(s));
    assert e[..HeadEnd(e)][..HeadEnd(s)] == e[..HeadEnd(s)];
    assert e[TailStart(e)..][c - TailStart(e)..] == e[c..];
  }

  /**
   * After any number of passes the string is well-formed and still begins and ends
   * with the bytes the first pass retained of the original.
   */
  lemma {:induction false} TrimsRetainEnds(s: Bytes, t: Bytes)
    requires Valid(s) && Trims(s, t)
    ensures Valid(t) && s[..HeadEnd(s)] <= t && EndsWith(t, s[TailStart(s)..])
    decreases |s|
  {
    if t != s {
      ElideShrinks(s);
      ElideRetainsEnds(s);
      TrimsRetainEnds(Elide(s), t);
      EndsWithTrans(t, Elide(s)[TailStart(Elide(s))..], s[TailStart(s)..]);
    }
  }
}
