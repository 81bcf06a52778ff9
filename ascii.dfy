/**
  Character classes and case mapping of Python's `str` methods, restricted to
  the ASCII range, and the white-space trimming that `int` and `float` apply
  to their argument. A character outside ASCII is neither a letter, a digit
  nor white space here, and case mapping leaves it alone.
 */
module Ascii {

  predicate IsLower(c: char) { 'a' <= c <= 'z' }

  predicate IsUpper(c: char) { 'A' <= c <= 'Z' }

  /** `c.isalpha()` on ASCII. */
  predicate IsLetter(c: char) { IsLower(c) || IsUpper(c) }

  predicate IsDigit(c: char) { '0' <= c <= '9' }

  /**
    The white space `int` and `float` skip around a number: tab, line feed,
    vertical tab, form feed, carriage return (9-13) and space (32). This is
    narrower than `c.isspace()`, which also counts the four information
    separators (28-31); those stay in the text and make the number invalid.
   */
  predicate IsNumericSpace(c: char) { 9 <= c as int <= 13 || c == ' ' }

  /** `c.upper()` on ASCII. */
  function UpperChar(c: char): (u: char)
    ensures !IsLower(u)
    ensures IsLetter(u) <==> IsLetter(c)
    ensures !IsLower(c) ==> u == c
    ensures IsLower(c) ==> IsUpper(u) && LowerChar(u) == c
  {
    if IsLower(c) then (c as int - 32) as char else c
  }

  /** `c.lower()` on ASCII. */
  function LowerChar(c: char): (l: char)
    ensures !IsUpper(l)
    ensures IsLetter(l) <==> IsLetter(c)
    ensures !IsUpper(c) ==> l == c
  {
    if IsUpper(c) then (c as int + 32) as char else c
  }

  /** `s.upper()` on ASCII: lower-case letters become upper case, all else stays. */
  function Upper(s: string): (r: string)
    ensures |r| == |s|
    ensures forall i :: 0 <= i < |s| ==> !IsLower(r[i])
    ensures forall i :: 0 <= i < |s| && !IsLower(s[i]) ==> r[i] == s[i]
    ensures forall i :: 0 <= i < |s| && IsLower(s[i]) ==> IsUpper(r[i]) && LowerChar(r[i]) == s[i]
  {
    seq(|s|, i requires 0 <= i < |s| => UpperChar(s[i]))
  }

  /** `s.lower()` on ASCII. */
  function Lower(s: string): (r: string)
    ensures |r| == |s|
    ensures forall i :: 0 <= i < |s| ==> !IsUpper(r[i])
    ensures forall i :: 0 <= i < |s| && !IsUpper(s[i]) ==> r[i] == s[i]
  {
    seq(|s|, i requires 0 <= i < |s| => LowerChar(s[i]))
  }

  /** Upper-casing twice is upper-casing once. */
  lemma UpperIdempotent(s: string)
    ensures Upper(Upper(s)) == Upper(s)
  {
  }

  /** The length of the longest prefix of `s` made of white space. */
  function LeadingSpaces(s: string): (n: nat)
    ensures n <= |s|
    ensures forall k :: 0 <= k < n ==> IsNumericSpace(s[k])
    ensures n < |s| ==> !IsNumericSpace(s[n])
    decreases |s|
  {
    if s == [] || !IsNumericSpace(s[0]) then 0 else 1 + LeadingSpaces(s[1..])
  }

  /** The length of the longest suffix of `s` made of white space. */
  function TrailingSpaces(s: string): (n: nat)
    ensures n <= |s|
    ensures forall k :: |s| - n <= k < |s| ==> IsNumericSpace(s[k])
    ensures n < |s| ==> !IsNumericSpace(s[|s| - 1 - n])
    decreases |s|
  {
    if s == [] || !IsNumericSpace(s[|s| - 1]) then 0 else 1 + TrailingSpaces(s[..|s| - 1])
  }

  /** `s` with the white space `int` and `float` skip removed from both ends. */
  function Strip(s: string): (r: string)
    ensures |r| <= |s|
    ensures r != [] ==> !IsNumericSpace(r[0]) && !IsNumericSpace(r[|r| - 1])
    ensures r == [] <==> forall k :: 0 <= k < |s| ==> IsNumericSpace(s[k])
    ensures r != [] ==> r == s[LeadingSpaces(s)..|s| - TrailingSpaces(s)]
  {
    var n := LeadingSpaces(s);
    if n == |s| then [] else
      assert !IsNumericSpace(s[n]);
      var m := TrailingSpaces(s);
      assert m < |s| - n;
      s[n..|s| - m]
  }

  /** Stripping keeps every character of `s` that is not white space. */
  lemma {:induction false} StripKeeps(s: string, i: nat)
    requires i < |s| && !IsNumericSpace(s[i])
    ensures s[i] in Strip(s)
  {
    var n, m := LeadingSpaces(s), TrailingSpaces(s);
    assert n <= i < |s| - m;
    assert Strip(s)[i - n] == s[i];
  }

  lemma {:induction false} LeadingSpacesPrefix(w: string, x: string)
    requires forall i :: 0 <= i < |w| ==> IsNumericSpace(w[i])
    requires |x| > 0 && !IsNumericSpace(x[0])
    ensures LeadingSpaces(w + x) == |w|
    decreases |w|
  {
    if w != [] {
      assert (w + x)[1..] == w[1..] + x;
      LeadingSpacesPrefix(w[1..], x);
    } else {
      assert w + x == x;
    }
  }

  lemma {:induction false} TrailingSpacesSuffix(x: string, w: string)
    requires forall i :: 0 <= i < |w| ==> IsNumericSpace(w[i])
    requires |x| > 0 && !IsNumericSpace(x[|x| - 1])
    ensures TrailingSpaces(x + w) == |w|
    decreases |w|
  {
    if w != [] {
      assert (x + w)[..|x + w| - 1] == x + w[..|w| - 1];
      TrailingSpacesSuffix(x, w[..|w| - 1]);
    } else {
      assert x + w == x;
    }
  }

  /** Stripping ignores white space added around a stripped text. */
  lemma StripPadding(left: string, s: string, right: string)
    requires forall i :: 0 <= i < |left| ==> IsNumericSpace(left[i])
    requires forall i :: 0 <= i < |right| ==> IsNumericSpace(right[i])
    requires Strip(s) == s
    ensures Strip(left + s + right) == s
  {
    var p := left + s + right;
    if s != [] {
      assert p == left + (s + right);
      LeadingSpacesPrefix(left, s + right);
      assert p == (left + s) + right;
      TrailingSpacesSuffix(left + s, right);
      assert p[|left|..|p| - |right|] == s;
    } else {
      assert p == left + right;
      assert forall k :: 0 <= k < |p| ==> IsNumericSpace(p[k]);
    }
  }
}
