/**
 * Byte strings and well-formed UTF-8.
 *
 * Rust's `String` and `&str` are byte sequences that are always well-formed
 * UTF-8; slicing one is only legal on a character boundary. The grammar below is
 * the one of section 4 of RFC 3629: no overlong forms, no surrogates, nothing above
 * U+10FFFF.
 *
 * A boundary is an offset that no continuation byte follows; between two boundaries of
 * a well-formed string lies a well-formed string.
 */
module Utf8 {

  type Byte = b: int | 0 <= b < 256
  type Bytes = seq<Byte>

  predicate IsContinuation(b: Byte) {
    0x80 <= b < 0xC0
  }

  /** Length of the well-formed character `s` starts with; 0 when there is none. */
  function HeadLen(s: Bytes): (n: nat)
    ensures n <= 4 && n <= |s|
    ensures n > 0 ==> !IsContinuation(s[0])
    ensures forall i :: 1 <= i < n ==> IsContinuation(s[i])
  {
    if |s| == 0 then 0
    else if s[0] < 0x80 then 1
    else if 0xC2 <= s[0] < 0xE0 then
      if |s| >= 2 && IsContinuation(s[1]) then 2 else 0
    else if 0xE0 <= s[0] < 0xF0 then
      if |s| >= 3 && IsContinuation(s[1]) && IsContinuation(s[2])
         && (s[0] == 0xE0 ==> s[1] >= 0xA0) && (s[0] == 0xED ==> s[1] < 0xA0) then 3 else 0
    else if 0xF0 <= s[0] < 0xF5 then
      if |s| >= 4 && IsContinuation(s[1]) && IsContinuation(s[2]) && IsContinuation(s[3])
         && (s[0] == 0xF0 ==> s[1] >= 0x90) && (s[0] == 0xF4 ==> s[1] < 0x90) then 4 else 0
    else 0
  }

  predicate Valid(s: Bytes) {
    s == [] || (HeadLen(s) > 0 && Valid(s[HeadLen(s)..]))
  }

  /** `str::is_char_boundary` for an offset inside the string. */
  predicate Boundary(s: Bytes, i: int)
    requires 0 <= i <= |s|
  {
    i == 0 || i == |s| || !IsContinuation(s[i])
  }

  lemma {:induction false} ValidConcat(a: Bytes, b: Bytes)
    requires Valid(a) && Valid(b)
    ensures Valid(a + b)
    decreases |a|
  {
    if a == [] {
      assert a + b == b;
    } else {
      var n := HeadLen(a);
      assert (a + b)[n..] == a[n..] + b;
      ValidConcat(a[n..], b);
      assert HeadLen(a + b) == n;
    }
  }

  /** Cutting a well-formed string at a character boundary leaves two well-formed strings. */
  lemma {:induction false} ValidSplit(s: Bytes, i: nat)
    requires Valid(s) && i <= |s| && Boundary(s, i)
    ensures Valid(s[..i]) && Valid(s[i..])
    decreases |s|
  {
    if i == 0 {
      assert s[..i] == [] && s[i..] == s;
    } else if i < |s| {
      var n := HeadLen(s);
      assert i >= n;
      ValidSplit(s[n..], i - n);
      assert s[n..][i - n..] == s[i..];
      assert s[..i][n..] == s[n..][..i - n];
      assert HeadLen(s[..i]) == n;
    } else {
      assert s[..i] == s && s[i..] == [];
    }
  }

  /** No character is longer than four bytes, so no run of continuation bytes is longer than three. */
  lemma {:induction false} BoundaryNearby(s: Bytes, i: nat)
    requires Valid(s) && i <= |s|
    ensures exists j :: i - 3 <= j <= i && 0 <= j && Boundary(s, j)
    decreases |s|
  {
    if s == [] || i == |s| {
      assert Boundary(s, i);
    } else {
      var n := HeadLen(s);
      if i < n {
        assert Boundary(s, 0);
      } else {
        BoundaryNearby(s[n..], i - n);
        var j :| i - n - 3 <= j <= i - n && 0 <= j && Boundary(s[n..], j);
        BoundaryShift(s, n, j);
      }
    }
  }

  /** Boundaries of a suffix that itself starts on a boundary are boundaries of the whole. */
  lemma BoundaryShift(s: Bytes, n: nat, j: nat)
    requires n <= |s| && j <= |s| - n && Boundary(s, n) && Boundary(s[n..], j)
    ensures Boundary(s, n + j)
  {
    if j < |s| - n {
      assert s[n..][j] == s[n + j];
    }
  }

  /** ASCII text as bytes. */
  function Ascii(text: string): (b: Bytes)
    requires forall i :: 0 <= i < |text| ==> text[i] < 128 as char
    ensures |b| == |text|
    ensures forall i :: 0 <= i < |b| ==> b[i] == text[i] as int && b[i] < 128
  {
    seq(|text|, i requires 0 <= i < |text| => text[i] as int)
  }

  lemma {:induction false} AsciiValid(b: Bytes)
    requires forall i :: 0 <= i < |b| ==> b[i] < 128
    ensures Valid(b)
  {
    if b != [] {
      AsciiValid(b[1..]);
    }
  }

  /** Decimal digits of a natural number, as `format!("{n}")` writes them. */
  function Digits(n: nat): (d: Bytes)
    ensures |d| >= 1
    ensures forall i :: 0 <= i < |d| ==> 48 <= d[i] <= 57
  {
    if n < 10 then [48 + n] else Digits(n / 10) + [48 + n % 10]
  }
}
