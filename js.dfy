/**
 * The JavaScript string semantics the rest of the model relies on:
 * truthiness of optional strings and `a || b`, `String.prototype.trim`,
 * `split` on a one-character separator, `startsWith`, and the decimal
 * rendering `${i}` used to build list-item keys.
 */
module Js {

  datatype Option<+T> = None | Some(value: T)

  datatype Result<+T, +E> = Success(value: T) | Failure(error: E)

  /** `if (s)` for an optional string: `undefined` and `""` are falsy. */
  predicate Truthy(s: Option<string>) {
    s.Some? && s.value != ""
  }

  /** `a || b` where `a` may be undefined. */
  function OrElse(a: Option<string>, b: string): (r: string)
    ensures Truthy(a) ==> r == a.value
    ensures !Truthy(a) ==> r == b
  {
    if Truthy(a) then a.value else b
  }

  /** The characters `trim` removes: ECMAScript WhiteSpace and LineTerminator. */
  predicate IsSpace(c: char) {
    || c == ' ' || c == '\t' || c == '\n' || c == '\r'
    || c == '\U{000B}' || c == '\U{000C}' || c == '\U{00A0}' || c == '\U{1680}'
    || ('\U{2000}' <= c <= '\U{200A}')
    || c == '\U{2028}' || c == '\U{2029}' || c == '\U{202F}' || c == '\U{205F}'
    || c == '\U{3000}' || c == '\U{FEFF}'
  }

  /** Every character of `s` is white space. */
  predicate AllSpace(s: string)
    decreases |s|
  {
    s == [] || (IsSpace(s[0]) && AllSpace(s[1..]))
  }

  /** Dropping a white-space last character does not change blankness. */
  lemma {:induction false} AllSpaceDropLast(s: string)
    requires s != [] && IsSpace(s[|s| - 1])
    ensures AllSpace(s) == AllSpace(s[..|s| - 1])
    decreases |s|
  {
    if |s| > 1 {
      var t := s[1..];
      assert t[..|t| - 1] == s[..|s| - 1][1..];
      AllSpaceDropLast(t);
    }
  }

  /** `s.trim()`: no white space at either end. Leading and trailing white
      space are dropped one character at a time. */
  function Trim(s: string): (r: string)
    ensures |r| <= |s|
    ensures r == [] || (!IsSpace(r[0]) && !IsSpace(r[|r| - 1]))
    decreases |s|
  {
    if s != [] && IsSpace(s[0]) then
      Trim(s[1..])
    else if s != [] && IsSpace(s[|s| - 1]) then
      Trim(s[..|s| - 1])
    else
      s
  }

  /** The trim is empty exactly when `s` is blank. */
  lemma {:induction false} TrimEmptyIffBlank(s: string)
    ensures Trim(s) == [] <==> AllSpace(s)
    decreases |s|
  {
    if s != [] && IsSpace(s[0]) {
      TrimEmptyIffBlank(s[1..]);
    } else if s != [] && IsSpace(s[|s| - 1]) {
      AllSpaceDropLast(s);
      TrimEmptyIffBlank(s[..|s| - 1]);
    }
  }

  /** `r` occurs in `s` starting at index `i`. */
  predicate SliceAt(r: string, s: string, i: nat) {
    i + |r| <= |s| && r == s[i..i + |r|]
  }

  /** Everything of `s` before index `i` and after the `|r|` characters from
      `i` on is white space. */
  predicate SpaceAround(r: string, s: string, i: nat) {
    i + |r| <= |s| && AllSpace(s[..i]) && AllSpace(s[i + |r|..])
  }

  /** The trim is a contiguous slice of its input, and what it drops on
      either side is white space. */
  lemma {:induction false} TrimIsSlice(s: string) returns (i: nat)
    ensures SliceAt(Trim(s), s, i)
    ensures SpaceAround(Trim(s), s, i)
    decreases |s|
  {
    if s != [] && IsSpace(s[0]) {
      var j := TrimIsSlice(s[1..]);
      i := j + 1;
      SliceOfSuffix(s, j, Trim(s[1..]));
      SpaceOfSuffix(s, j, Trim(s[1..]));
    } else if s != [] && IsSpace(s[|s| - 1]) {
      i := TrimIsSlice(s[..|s| - 1]);
      SliceOfPrefix(s, i, Trim(s[..|s| - 1]));
      SpaceOfPrefix(s, i, Trim(s[..|s| - 1]));
    } else {
      i := 0;
      assert s[0..|s|] == s;
      assert s[..0] == [] && s[|s|..] == [];
    }
  }

  lemma SliceOfSuffix(s: string, j: nat, r: string)
    requires s != [] && SliceAt(r, s[1..], j)
    ensures SliceAt(r, s, j + 1)
  {
  }

  lemma SliceOfPrefix(s: string, i: nat, r: string)
    requires s != [] && SliceAt(r, s[..|s| - 1], i)
    ensures SliceAt(r, s, i)
  {
  }

  lemma SpaceOfSuffix(s: string, j: nat, r: string)
    requires s != [] && IsSpace(s[0]) && SpaceAround(r, s[1..], j)
    ensures SpaceAround(r, s, j + 1)
  {
    assert s[..j + 1][1..] == s[1..][..j];
    assert s[j + 1 + |r|..] == s[1..][j + |r|..];
  }

  lemma SpaceOfPrefix(s: string, i: nat, r: string)
    requires s != [] && IsSpace(s[|s| - 1]) && SpaceAround(r, s[..|s| - 1], i)
    ensures SpaceAround(r, s, i)
  {
    assert s[..i] == s[..|s| - 1][..i];
    var t := s[i + |r|..];
    assert t[..|t| - 1] == s[..|s| - 1][i + |r|..];
    AllSpaceDropLast(t);
  }

  lemma TrimIdempotent(s: string)
    ensures Trim(Trim(s)) == Trim(s)
  {
  }

  /** `s.split(sep)`: never empty, no piece contains `sep`. */
  function Split(s: string, sep: char): (r: seq<string>)
    ensures |r| >= 1
    ensures forall k :: 0 <= k < |r| ==> sep !in r[k]
    ensures |r| == 1 ==> r[0] == s
  {
    if s == [] then [""]
    else
      var rest := Split(s[1..], sep);
      if s[0] == sep then [""] + rest
      else [[s[0]] + rest[0]] + rest[1..]
  }

  /** `parts.join(sep)`. */
  function Join(parts: seq<string>, sep: char): string
    requires |parts| >= 1
  {
    if |parts| == 1 then parts[0] else parts[0] + [sep] + Join(parts[1..], sep)
  }

  /** Splitting loses nothing: joining the pieces rebuilds the string. */
  lemma {:induction false} JoinSplit(s: string, sep: char)
    ensures Join(Split(s, sep), sep) == s
  {
    if s != [] {
      var rest := Split(s[1..], sep);
      JoinSplit(s[1..], sep);
      if s[0] == sep {
        assert Split(s, sep)[1..] == rest;
      } else if |rest| > 1 {
        assert Split(s, sep)[1..] == rest[1..];
      }
    }
  }

  /** A string without the separator splits into one piece. */
  lemma SplitWithoutSeparator(s: string, sep: char)
    requires sep !in s
    ensures Split(s, sep) == [s]
  {
  }

  /** `"".split(sep)` is `[""]`, not `[]`. */
  lemma SplitEmpty(sep: char)
    ensures Split("", sep) == [""]
  {
  }

  /** `s.startsWith(p)`. */
  predicate StartsWith(s: string, p: string) {
    |p| <= |s| && s[..|p|] == p
  }

  lemma StartsWithConcat(a: string, b: string)
    ensures StartsWith(a + b, a)
  {
    assert (a + b)[..|a|] == a;
  }

  function Digit(d: nat): (c: char)
    requires d < 10
    ensures '0' <= c <= '9'
  {
    ['0', '1', '2', '3', '4', '5', '6', '7', '8', '9'][d]
  }

  predicate IsDigits(s: string) {
    forall k :: 0 <= k < |s| ==> '0' <= s[k] <= '9'
  }

  /** `${n}` for a non-negative integer: its decimal digits. */
  function NatToString(n: nat): (r: string)
    ensures |r| >= 1 && IsDigits(r)
    ensures |r| == 1 <==> n < 10
  {
    if n < 10 then [Digit(n)] else NatToString(n / 10) + [Digit(n % 10)]
  }

  lemma DigitInjective(a: nat, b: nat)
    requires a < 10 && b < 10 && Digit(a) == Digit(b)
    ensures a == b
  {
  }

  /** Distinct numbers render differently, so `L_i_` and `L_j_` differ for `i != j`. */
  lemma {:induction false} NatToStringInjective(a: nat, b: nat)
    requires NatToString(a) == NatToString(b)
    ensures a == b
  {
    var s := NatToString(a);
    if a < 10 {
      assert b < 10;
      DigitInjective(a, b);
    } else {
      assert b >= 10;
      assert NatToString(a / 10) == s[..|s| - 1] == NatToString(b / 10);
      NatToStringInjective(a / 10, b / 10);
      DigitInjective(a % 10, b % 10);
    }
  }
}
