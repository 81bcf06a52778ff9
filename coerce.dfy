/**
  Python's `int(s)` and `float(s)` on a string `s` of ASCII characters: the
  coercions pydantic applies to the `number_of_shares` and `purchase_price`
  form fields.

  Both skip surrounding white space (tab, line feed, vertical tab, form feed,
  carriage return and space), take an optional sign, and read digit groups in
  which a single underscore may separate two digits:

    digitpart ::= digit (["_"] digit)*
    integer   ::= [sign] digitpart
    number    ::= [digitpart] "." digitpart | digitpart ["."]
    exponent  ::= ("e" | "E") [sign] digitpart
    float     ::= [sign] (number [exponent] | "inf" | "infinity" | "nan")

  where the last three words are matched without regard to case.
 */
module Coerce {
  import opened Wrappers
  import opened Ascii

  /** A non-empty run of digits in which single underscores may separate two digits. */
  predicate IsDigitPart(s: string)
    ensures IsDigitPart(s) ==> |s| > 0 && IsDigit(s[0]) && IsDigit(s[|s| - 1])
    ensures IsDigitPart(s) ==> forall i :: 0 <= i < |s| ==> IsDigit(s[i]) || s[i] == '_'
    decreases |s|
  {
    |s| > 0 && IsDigit(s[0]) &&
    (|s| == 1 || if s[1] == '_' then IsDigitPart(s[2..]) else IsDigitPart(s[1..]))
  }

  /** The same shape, stated position by position: every underscore sits between digits. */
  ghost predicate DigitPartShape(s: string)
  {
    |s| > 0 && IsDigit(s[0]) &&
    forall i {:trigger s[i]} :: 0 <= i < |s| ==> IsDigit(s[i]) || (s[i] == '_' && i + 1 < |s| && IsDigit(s[i + 1]))
  }

  lemma {:induction false} DigitPartShapeIff(s: string)
    ensures IsDigitPart(s) <==> DigitPartShape(s)
    decreases |s|
  {
    if |s| <= 1 {
    } else if s[1] == '_' {
      var rest := s[2..];
      DigitPartShapeIff(rest);
      if DigitPartShape(s) {
        forall i | 0 <= i < |rest|
          ensures IsDigit(rest[i]) || (rest[i] == '_' && i + 1 < |rest| && IsDigit(rest[i + 1]))
        {
          assert rest[i] == s[i + 2];
          if i + 1 < |rest| { assert rest[i + 1] == s[i + 3]; }
        }
      }
      if IsDigitPart(s) {
        assert rest[0] == s[2];
        forall i | 0 <= i < |s|
          ensures IsDigit(s[i]) || (s[i] == '_' && i + 1 < |s| && IsDigit(s[i + 1]))
        {
          if i >= 2 {
            assert s[i] == rest[i - 2];
            if i + 1 < |s| { assert s[i + 1] == rest[i - 1]; }
          }
        }
        assert DigitPartShape(s);
      }
    } else {
      var rest := s[1..];
      DigitPartShapeIff(rest);
      if DigitPartShape(s) {
        forall i | 0 <= i < |rest|
          ensures IsDigit(rest[i]) || (rest[i] == '_' && i + 1 < |rest| && IsDigit(rest[i + 1]))
        {
          assert rest[i] == s[i + 1];
          assert IsDigit(s[i + 1]) || (s[i + 1] == '_' && i + 2 < |s| && IsDigit(s[i + 2]));
          if i + 1 < |rest| { assert rest[i + 1] == s[i + 2]; }
        }
        assert IsDigitPart(rest);
      }
      if IsDigitPart(s) {
        forall i | 0 <= i < |s|
          ensures IsDigit(s[i]) || (s[i] == '_' && i + 1 < |s| && IsDigit(s[i + 1]))
        {
          if i >= 1 {
            assert s[i] == rest[i - 1];
            if i + 1 < |s| { assert s[i + 1] == rest[i]; }
          }
        }
      }
    }
  }

  function DigitValue(c: char): (d: nat)
    requires IsDigit(c)
    ensures d < 10
  {
    c as int - '0' as int
  }

  /** The value of a run of digits, read left to right; underscores are skipped. */
  function DigitPartValue(s: string): nat
    requires forall i :: 0 <= i < |s| ==> IsDigit(s[i]) || s[i] == '_'
    decreases |s|
  {
    if s == [] then 0
    else if s[|s| - 1] == '_' then DigitPartValue(s[..|s| - 1])
    else 10 * DigitPartValue(s[..|s| - 1]) + DigitValue(s[|s| - 1])
  }

  predicate IsSign(c: char) { c == '+' || c == '-' }

  /** `int(s)` in base 10: the integer `s` denotes, or None where Python raises ValueError. */
  function ParseInt(s: string): (r: Option<int>)
    ensures r.Some? <==>
              var t := Strip(s);
              IsDigitPart(t) || (|t| > 0 && IsSign(t[0]) && IsDigitPart(t[1..]))
    ensures r.Some? && IsDigitPart(Strip(s)) ==> r.value == DigitPartValue(Strip(s))
    ensures r.Some? && !IsDigitPart(Strip(s)) ==>
              r.value == (if Strip(s)[0] == '-' then -1 else 1) * DigitPartValue(Strip(s)[1..])
  {
    ParseStripped(Strip(s))
  }

  /** `int` on text already stripped of surrounding white space. */
  function ParseStripped(t: string): Option<int>
  {
    if |t| > 0 && IsSign(t[0]) then
      var digits := t[1..];
      if IsDigitPart(digits) then
        var v: int := DigitPartValue(digits);
        Some(if t[0] == '-' then -v else v)
      else None
    else if IsDigitPart(t) then Some(DigitPartValue(t))
    else None
  }

  function DigitChar(d: nat): (c: char)
    requires d < 10
    ensures IsDigit(c) && DigitValue(c) == d
  {
    ('0' as int + d) as char
  }

  /** The canonical decimal spelling of `n`, as Python's `str(n)` writes it. */
  function NatToString(n: nat): (s: string)
    ensures |s| > 0
    ensures forall i :: 0 <= i < |s| ==> IsDigit(s[i])
    decreases n
  {
    if n < 10 then [DigitChar(n)] else NatToString(n / 10) + [DigitChar(n % 10)]
  }

  function IntToString(n: int): string
  {
    if n < 0 then "-" + NatToString(-n) else NatToString(n)
  }

  lemma {:induction false} NatToStringValue(n: nat)
    ensures DigitPartValue(NatToString(n)) == n
    decreases n
  {
    var s := NatToString(n);
    if n >= 10 {
      NatToStringValue(n / 10);
      assert s[..|s| - 1] == NatToString(n / 10);
    }
  }

  lemma {:induction false} DigitsAreDigitPart(s: string)
    requires |s| > 0 && forall i :: 0 <= i < |s| ==> IsDigit(s[i])
    ensures IsDigitPart(s)
    decreases |s|
  {
    if |s| > 1 {
      DigitsAreDigitPart(s[1..]);
    }
  }

  lemma StripUnchanged(s: string)
    requires |s| > 0 && !IsNumericSpace(s[0]) && !IsNumericSpace(s[|s| - 1])
    ensures Strip(s) == s
  {
    assert LeadingSpaces(s) == 0;
    assert TrailingSpaces(s) == 0;
  }

  /** White space around an already stripped text changes neither coercion: `int(" 100 ") == 100`. */
  lemma PaddingIgnored(left: string, s: string, right: string)
    requires forall i :: 0 <= i < |left| ==> IsNumericSpace(left[i])
    requires forall i :: 0 <= i < |right| ==> IsNumericSpace(right[i])
    requires Strip(s) == s
    ensures ParseInt(left + s + right) == ParseInt(s)
    ensures IsFloat(left + s + right) == IsFloat(s)
  {
    StripPadding(left, s, right);
    assert ParseInt(left + s + right) == ParseStripped(s);
    assert IsFloat(left + s + right) == (IsFloatNumber(Unsigned(s)) || IsSpecialWord(Unsigned(s)));
  }

  /** `int(str(n)) == n`: the integer coercion reads back every canonical spelling. */
  lemma ParseIntRoundTrip(n: int)
    ensures ParseInt(IntToString(n)) == Some(n)
  {
    var a := if n < 0 then -n else n;
    var digits := NatToString(a);
    var s := IntToString(n);
    DigitsAreDigitPart(digits);
    NatToStringValue(a);
    StripUnchanged(s);
    if n < 0 {
      assert s[1..] == digits;
    }
  }

  /** The index of the first character of `s` that is in `cs`, or `|s|` if there is none. */
  function IndexOfAny(s: string, cs: set<char>): (k: nat)
    ensures k <= |s|
    ensures k < |s| ==> s[k] in cs
    ensures forall i :: 0 <= i < k ==> s[i] !in cs
    decreases |s|
  {
    if s == [] then 0
    else if s[0] in cs then 0
    else 1 + IndexOfAny(s[1..], cs)
  }

  /** `number ::= [digitpart] "." digitpart | digitpart ["."]` */
  predicate IsNumber(m: string)
  {
    var j := IndexOfAny(m, {'.'});
    if j == |m| then IsDigitPart(m)
    else
      var before, after := m[..j], m[j + 1..];
      (before == [] || IsDigitPart(before)) &&
      (after == [] || IsDigitPart(after)) &&
      (before != [] || after != [])
  }

  /** The part after the exponent mark: `[sign] digitpart` */
  predicate IsExponentDigits(x: string)
  {
    IsDigitPart(x) || (|x| > 0 && IsSign(x[0]) && IsDigitPart(x[1..]))
  }

  /** `number [exponent]` */
  predicate IsFloatNumber(u: string)
  {
    var k := IndexOfAny(u, {'e', 'E'});
    IsNumber(u[..k]) && (k == |u| || IsExponentDigits(u[k + 1..]))
  }

  /** The words `float` accepts for infinity and not-a-number, in any case. */
  predicate IsSpecialWord(u: string)
  {
    var l := Lower(u);
    l == "inf" || l == "infinity" || l == "nan"
  }

  /**
    `float(s)` succeeds. The value it produces is not modelled. Whatever `int`
    accepts, `float` accepts too, and text that is empty or all white space is
    not a float.
   */
  function IsFloat(s: string): (b: bool)
    ensures ParseInt(s).Some? ==> b
    ensures b ==> Strip(s) != []
  {
    var u := Unsigned(Strip(s));
    DigitPartIsFloatNumber(u);
    IsFloatNumber(u) || IsSpecialWord(u)
  }

  /** A digit group, with no point and no exponent, is a float number. */
  lemma DigitPartIsFloatNumber(u: string)
    ensures IsDigitPart(u) ==> IsFloatNumber(u)
  {
    if IsDigitPart(u) {
      assert IndexOfAny(u, {'e', 'E'}) == |u| by { NoMarkIn(u, {'e', 'E'}); }
      assert u[..|u|] == u;
      assert IndexOfAny(u, {'.'}) == |u| by { NoMarkIn(u, {'.'}); }
    }
  }

  lemma {:induction false} NoMarkIn(u: string, cs: set<char>)
    requires forall i :: 0 <= i < |u| ==> IsDigit(u[i]) || u[i] == '_'
    requires forall c :: c in cs ==> !IsDigit(c) && c != '_'
    ensures IndexOfAny(u, cs) == |u|
  {
  }

  /** No character of a digit group is a comma. */
  lemma DigitPartHasNoComma(s: string)
    requires IsDigitPart(s)
    ensures ',' !in s
  {
  }

  /** The text `float` reads after stripping and an optional sign. */
  function Unsigned(t: string): (u: string)
    ensures |u| <= |t|
  {
    if |t| > 0 && IsSign(t[0]) then t[1..] else t
  }

  /** A comma survives stripping and the removal of a sign. */
  lemma CommaSurvives(s: string)
    requires ',' in s
    ensures ',' in Strip(s) && ',' in Unsigned(Strip(s))
  {
    var i :| 0 <= i < |s| && s[i] == ',';
    StripKeeps(s, i);
    var t := Strip(s);
    var j :| 0 <= j < |t| && t[j] == ',';
    if |t| > 0 && IsSign(t[0]) { assert Unsigned(t)[j - 1] == ','; }
  }

  /** The special words consist of letters only. */
  lemma SpecialWordHasNoComma(u: string)
    requires IsSpecialWord(u)
    ensures ',' !in u
  {
    var l := Lower(u);
    assert forall j :: 0 <= j < |l| ==> IsLetter(l[j]);
    forall j | 0 <= j < |u| ensures u[j] != ',' {
      assert IsLetter(l[j]);
    }
  }

  /** A decimal comma (`"45,67"`) makes the integer coercion fail, wherever it stands. */
  lemma CommaNotInt(s: string)
    requires ',' in s
    ensures ParseInt(s) == None
  {
    CommaSurvives(s);
    var t := Strip(s);
    if IsDigitPart(t) { DigitPartHasNoComma(t); }
    if |t| > 0 && IsSign(t[0]) && IsDigitPart(t[1..]) { DigitPartHasNoComma(t[1..]); }
  }

  /** A decimal comma (`"45,67"`) makes the float coercion fail, wherever it stands. */
  lemma CommaNotFloat(s: string)
    requires ',' in s
    ensures !IsFloat(s)
  {
    CommaSurvives(s);
    var u := Unsigned(Strip(s));
    if IsFloatNumber(u) { FloatNumberHasNoComma(u); }
    if IsSpecialWord(u) { SpecialWordHasNoComma(u); }
  }

  lemma FloatNumberHasNoComma(u: string)
    requires IsFloatNumber(u)
    ensures ',' !in u
  {
    var k := IndexOfAny(u, {'e', 'E'});
    var m := u[..k];
    var j := IndexOfAny(m, {'.'});
    forall i | 0 <= i < |u| ensures u[i] != ',' {
      if i < k {
        assert u[i] == m[i];
        if j == |m| {
          DigitPartHasNoComma(m);
        } else if i < j {
          assert m[i] == m[..j][i];
          if m[..j] != [] { DigitPartHasNoComma(m[..j]); }
        } else if i > j {
          assert m[i] == m[j + 1..][i - j - 1];
          if m[j + 1..] != [] { DigitPartHasNoComma(m[j + 1..]); }
        }
      } else if i > k {
        var x := u[k + 1..];
        assert u[i] == x[i - k - 1];
        if IsDigitPart(x) {
          DigitPartHasNoComma(x);
        } else if i > k + 1 {
          assert u[i] == x[1..][i - k - 2];
          DigitPartHasNoComma(x[1..]);
        }
      }
    }
  }

  /** Examples from the tests: `"100"` is 100 and `"23"` is 23. */
  lemma IntAccepted()
    ensures ParseInt("100") == Some(100)
    ensures ParseInt("23") == Some(23)
  {
    ParseDigits("100");
    assert DigitPartValue("100") == 100 by {
      assert "100"[..2] == "10";
      assert "10"[..1] == "1";
      assert "1"[..0] == "";
    }
    ParseDigits("23");
    assert DigitPartValue("23") == 23 by {
      assert "23"[..1] == "2";
      assert "2"[..0] == "";
    }
  }

  /** Example from the unit tests: `"100.123547"` is not an integer. */
  lemma IntRejected()
    ensures ParseInt("100.123547") == None
  {
    var bad := "100.123547";
    StripUnchanged(bad);
    DigitPartShapeIff(bad);
    assert bad[3] == '.';
  }

  /** A decimal written `<digits>.<digits>` is accepted by `float`. */
  lemma DecimalIsFloat(whole: string, fraction: string)
    requires |whole| > 0 && forall i :: 0 <= i < |whole| ==> IsDigit(whole[i])
    requires |fraction| > 0 && forall i :: 0 <= i < |fraction| ==> IsDigit(fraction[i])
    ensures IsFloat(whole + "." + fraction)
  {
    var w := whole;
    var u := w + "." + fraction;
    StripUnchanged(u);
    assert Unsigned(u) == u;
    forall i | 0 <= i < |u| ensures IsDigit(u[i]) || u[i] == '.' {
      if i < |w| { assert u[i] == w[i]; }
      else if i > |w| { assert u[i] == fraction[i - |w| - 1]; }
    }
    var k := IndexOfAny(u, {'e', 'E'});
    assert u[..k] == u;
    var j := IndexOfAny(u, {'.'});
    assert u[|w|] == '.';
    assert j == |w|;
    assert u[..j] == w && u[j + 1..] == fraction;
    DigitsAreDigitPart(w);
    DigitsAreDigitPart(fraction);
  }

  /** A plain run of digits is read as the number it spells. */
  lemma ParseDigits(s: string)
    requires |s| > 0 && forall i :: 0 <= i < |s| ==> IsDigit(s[i])
    ensures ParseInt(s) == Some(DigitPartValue(s))
  {
    StripUnchanged(s);
    DigitsAreDigitPart(s);
  }

  /** Example from the unit tests: `"45.67"` is a float. */
  lemma FloatAccepted()
    ensures IsFloat("45.67")
  {
    assert "45" + "." + "67" == "45.67";
    DecimalIsFloat("45", "67");
  }

  /** Example from the functional tests: `"432.17"` is a float. */
  lemma PostedPriceAccepted()
    ensures IsFloat("432.17")
  {
    assert "432" + "." + "17" == "432.17";
    DecimalIsFloat("432", "17");
  }

  /**
    The information separators (28-31) are not white space to `int` and
    `float`: a text that starts with one is neither an integer nor a float.
   */
  lemma LeadingSeparatorRejected(s: string)
    requires |s| > 0 && 28 <= s[0] as int <= 31
    ensures ParseInt(s) == None
    ensures !IsFloat(s)
  {
    var t := Strip(s);
    assert LeadingSpaces(s) == 0;
    assert t[0] == s[0];
    var u := Unsigned(t);
    assert u == t;
    var k := IndexOfAny(u, {'e', 'E'});
    if k > 0 {
      var m := u[..k];
      assert m[0] == s[0];
      var j := IndexOfAny(m, {'.'});
      if j < |m| {
        assert j > 0;
        assert m[..j][0] == s[0];
      }
    }
    assert Lower(u)[0] == s[0];
  }

  /** Example from the unit tests: `"45,67"` is not a float. */
  lemma FloatRejected()
    ensures !IsFloat("45,67")
  {
    assert "45,67"[2] == ',';
    CommaNotFloat("45,67");
  }
}
