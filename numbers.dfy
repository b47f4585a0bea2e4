/** Decimal rendering and parsing of numbers, as Kotlin's `toString`, `toIntOrNull` and `toDoubleOrNull` do them. */
module Numbers {
  import opened Wrappers

  const MinInt: int := -0x8000_0000
  const MaxInt: int := 0x7FFF_FFFF

  predicate IsDigit(c: char) {
    '0' <= c <= '9'
  }

  predicate AllDigits(s: string) {
    forall i :: 0 <= i < |s| ==> IsDigit(s[i])
  }

  function DigitChar(d: nat): (c: char)
    requires d < 10
    ensures IsDigit(c) && (c as int) - ('0' as int) == d
  {
    (('0' as int) + d) as char
  }

  /** The decimal rendering of a non-negative number, without leading zeros. */
  function NatToString(n: nat): (r: string)
    ensures |r| > 0 && AllDigits(r)
    ensures n >= 10 ==> r[0] != '0'
    decreases n
  {
    if n < 10 then [DigitChar(n)] else NatToString(n / 10) + [DigitChar(n % 10)]
  }

  /** The value of a string of decimal digits, most significant first. */
  function DigitsValue(s: string): (v: nat)
    requires AllDigits(s)
    decreases |s|
  {
    if s == [] then 0 else DigitsValue(s[..|s| - 1]) * 10 + ((s[|s| - 1] as int) - ('0' as int))
  }

  /** Rendering then reading back a number gives the number. */
  lemma {:induction false} DigitsValueOfNatToString(n: nat)
    ensures DigitsValue(NatToString(n)) == n
    decreases n
  {
    var r := NatToString(n);
    if n >= 10 {
      assert r[..|r| - 1] == NatToString(n / 10);
      DigitsValueOfNatToString(n / 10);
    }
  }

  /** A leading '-' or '+' followed only by digits, or digits alone; at least one digit. */
  predicate IntegerShape(s: string) {
    && |s| > 0 && IsDigit(s[|s| - 1])
    && forall i :: 0 <= i < |s| ==> IsDigit(s[i]) || (i == 0 && (s[i] == '-' || s[i] == '+'))
  }

  /**
   * `String.toIntOrNull()`: an optional leading '-' or '+' followed by at
   * least one decimal digit, whose value fits a 32-bit `Int`; anything else is null.
   */
  function ParseInt(s: string): (r: Option<int>)
    ensures r.Some? ==> MinInt <= r.value <= MaxInt
    ensures r.Some? ==> IntegerShape(s)
    ensures r.Some? && s[0] == '-' ==> r.value <= 0
    ensures r.Some? && s[0] != '-' ==> r.value >= 0
    ensures |s| > 0 && AllDigits(s) && DigitsValue(s) <= MaxInt ==> r == Some(DigitsValue(s))
  {
    if |s| == 0 then None
    else
      var signed := s[0] == '-' || s[0] == '+';
      var digits := if signed then s[1..] else s;
      if |digits| == 0 || !AllDigits(digits) then None
      else
        assert forall i :: 1 <= i < |s| ==> IsDigit(s[i]) by {
          forall i | 1 <= i < |s| ensures IsDigit(s[i]) {
            if signed { assert s[i] == digits[i - 1]; } else { assert s[i] == digits[i]; }
          }
        }
        var magnitude: int := DigitsValue(digits);
        var v: int := if s[0] == '-' then -magnitude else magnitude;
        if MinInt <= v <= MaxInt then Some(v) else None
  }

  /** Every 32-bit non-negative number that `toString` renders reads back. */
  lemma ParseIntOfNatToString(n: nat)
    requires n <= MaxInt
    ensures ParseInt(NatToString(n)) == Some(n)
  {
    DigitsValueOfNatToString(n);
  }

  /**
   * A sign in front of a rendered number: '-' negates it, down to the
   * smallest `Int`; '+' keeps it, up to the largest; one past either end is null.
   */
  lemma ParseIntOfSigned(n: nat)
    ensures n <= -MinInt ==> ParseInt("-" + NatToString(n)) == Some(-(n as int))
    ensures n > -MinInt ==> ParseInt("-" + NatToString(n)).None?
    ensures n <= MaxInt ==> ParseInt("+" + NatToString(n)) == Some(n)
    ensures n > MaxInt ==> ParseInt("+" + NatToString(n)).None?
  {
    DigitsValueOfNatToString(n);
    assert ("-" + NatToString(n))[1..] == NatToString(n);
    assert ("+" + NatToString(n))[1..] == NatToString(n);
  }

  function Pow10(k: nat): (p: nat)
    ensures p >= 1
  {
    if k == 0 then 1 else 10 * Pow10(k - 1)
  }

  /** The padding `toDouble` ignores around a number: every character up to U+0020. */
  predicate IsPadding(c: char) {
    c as int <= 0x20
  }

  function TrimLeadingPadding(s: string): (r: string)
    ensures |r| <= |s| && r == s[|s| - |r|..]
  {
    if |s| > 0 && IsPadding(s[0]) then TrimLeadingPadding(s[1..]) else s
  }

  function TrimTrailingPadding(s: string): (r: string)
    ensures |r| <= |s| && r == s[..|r|]
  {
    if |s| > 0 && IsPadding(s[|s| - 1]) then TrimTrailingPadding(s[..|s| - 1]) else s
  }

  /** Trimming the front drops only padding, and stops at a character that is not padding. */
  lemma {:induction false} TrimLeadingPaddingDrops(s: string)
    ensures var r := TrimLeadingPadding(s);
      (forall i :: 0 <= i < |s| - |r| ==> IsPadding(s[i])) && (|r| > 0 ==> !IsPadding(r[0]))
  {
    if |s| > 0 && IsPadding(s[0]) {
      TrimLeadingPaddingDrops(s[1..]);
      var r := TrimLeadingPadding(s);
      forall i | 1 <= i < |s| - |r|
        ensures IsPadding(s[i])
      {
        assert s[i] == s[1..][i - 1];
      }
    }
  }

  /** Trimming the back drops only padding, and stops at a character that is not padding. */
  lemma {:induction false} TrimTrailingPaddingDrops(s: string)
    ensures var r := TrimTrailingPadding(s);
      (forall i :: |r| <= i < |s| ==> IsPadding(s[i])) && (|r| > 0 ==> !IsPadding(r[|r| - 1]))
  {
    if |s| > 0 && IsPadding(s[|s| - 1]) {
      TrimTrailingPaddingDrops(s[..|s| - 1]);
      var r := TrimTrailingPadding(s);
      forall i | |r| <= i < |s| - 1
        ensures IsPadding(s[i])
      {
        assert s[i] == s[..|s| - 1][i];
      }
    }
  }

  /** The type suffixes a floating-point literal may end with. */
  predicate IsTypeSuffix(c: char) {
    c == 'f' || c == 'F' || c == 'd' || c == 'D'
  }

  /** The number text inside `s`: the padding at both ends and one type suffix removed. */
  function DecimalCore(s: string): (t: string)
    ensures |t| <= |s|
    ensures forall i :: 0 <= i < |t| ==> t[i] in s
  {
    var a := TrimLeadingPadding(s);
    var b := TrimTrailingPadding(a);
    var t := if |b| > 0 && IsTypeSuffix(b[|b| - 1]) then b[..|b| - 1] else b;
    assert forall i :: 0 <= i < |t| ==> t[i] == s[|s| - |a| + i];
    t
  }

  /** Digits and at most one '.', with at least one digit. */
  predicate UnsignedShape(body: string) {
    && (forall i :: 0 <= i < |body| ==> IsDigit(body[i]) || body[i] == '.')
    && (forall i, j :: 0 <= i < j < |body| ==> !(body[i] == '.' && body[j] == '.'))
    && (exists i :: 0 <= i < |body| && IsDigit(body[i]))
  }

  /** Plain decimal text: unsigned decimal text with an optional sign in front. */
  predicate DecimalShape(t: string) {
    |t| > 0 && UnsignedShape(if t[0] == '-' || t[0] == '+' then t[1..] else t)
  }

  /** The value of unsigned decimal text: the digits before the '.' and after it. The value is exact. */
  function ParseUnsigned(body: string): (r: Option<real>)
    ensures r.Some? ==> r.value >= 0.0
  {
    var dot := DotIndex(body);
    var intPart := if dot.Some? then body[..dot.value] else body;
    var fracPart := if dot.Some? then body[dot.value + 1..] else "";
    if !AllDigits(intPart) || !AllDigits(fracPart) || |intPart| + |fracPart| == 0 then None
    else
      Some(DigitsValue(intPart) as real + FractionValue(fracPart))
  }

  /** The value of the digits after the '.': each one a tenth of the one before. */
  function FractionValue(digits: string): (v: real)
    requires AllDigits(digits)
    ensures 0.0 <= v
    ensures digits == [] ==> v == 0.0
  {
    DigitsValue(digits) as real / Pow10(|digits|) as real
  }

  /** The value of plain decimal text: a '-' negates it. */
  function ParseDecimalCore(t: string): (r: Option<real>)
    ensures r.Some? <==> DecimalShape(t)
    ensures r.Some? && t[0] == '-' ==> r.value <= 0.0
    ensures r.Some? && t[0] != '-' ==> r.value >= 0.0
  {
    if |t| == 0 then None
    else
      var body := if t[0] == '-' || t[0] == '+' then t[1..] else t;
      ParseUnsignedShape(body);
      var m := ParseUnsigned(body);
      if m.None? then None else Some(if t[0] == '-' then -m.value else m.value)
  }

  /**
   * `String.toDoubleOrNull()` on decimal text: padding at both ends, an
   * optional sign, digits with at most one '.', at least one digit, and an
   * optional type suffix.
   */
  function ParseDecimal(s: string): (r: Option<real>)
    ensures r.Some? <==> DecimalShape(DecimalCore(s))
    ensures r.Some? ==> exists c :: c in s && IsDigit(c)
  {
    var r := ParseDecimalCore(DecimalCore(s));
    if r.Some? then ShapedCoreHasDigit(s); r else r
  }

  /** Unsigned decimal text reads as a number exactly when it has the unsigned shape. */
  lemma ParseUnsignedShape(body: string)
    ensures ParseUnsigned(body).Some? <==> UnsignedShape(body)
  {
    var dot := DotIndex(body);
    if dot.None? {
      if UnsignedShape(body) {
        var i :| 0 <= i < |body| && IsDigit(body[i]);
      }
    } else {
      var d := dot.value;
      var intPart, fracPart := body[..d], body[d + 1..];
      assert body == intPart + "." + fracPart;
      if AllDigits(intPart) && AllDigits(fracPart) {
        SplitHasShape(body, d);
      }
      if UnsignedShape(body) {
        ShapeSplits(body, d);
      }
    }
  }

  /** Digits, a '.', digits, with at least one digit: the unsigned shape. */
  lemma SplitHasShape(body: string, d: nat)
    requires d < |body| && body[d] == '.' && AllDigits(body[..d]) && AllDigits(body[d + 1..])
    ensures UnsignedShape(body) <==> |body| > 1
  {
    var intPart, fracPart := body[..d], body[d + 1..];
    forall i | 0 <= i < |body| ensures IsDigit(body[i]) || (body[i] == '.' && i == d) {
      if i < d { assert body[i] == intPart[i]; } else if i > d { assert body[i] == fracPart[i - d - 1]; }
    }
    if |body| > 1 {
      if d > 0 { assert IsDigit(body[0]); } else { assert IsDigit(body[1]); }
    }
  }

  /** In the unsigned shape, the text on each side of the '.' is digits, not both empty. */
  lemma ShapeSplits(body: string, d: nat)
    requires UnsignedShape(body) && d < |body| && body[d] == '.'
    ensures AllDigits(body[..d]) && AllDigits(body[d + 1..]) && |body| > 1
  {
    var intPart, fracPart := body[..d], body[d + 1..];
    forall k | 0 <= k < |intPart| ensures IsDigit(intPart[k]) { assert intPart[k] == body[k]; }
    forall k | 0 <= k < |fracPart| ensures IsDigit(fracPart[k]) { assert fracPart[k] == body[k + d + 1]; }
    var i :| 0 <= i < |body| && IsDigit(body[i]);
    assert i != d;
  }

  /** Number text with the decimal shape holds a digit, and so does the input it came from. */
  lemma ShapedCoreHasDigit(s: string)
    requires DecimalShape(DecimalCore(s))
    ensures exists c :: c in s && IsDigit(c)
  {
    var t := DecimalCore(s);
    ShapeHasDigit(t);
    var k :| 0 <= k < |t| && IsDigit(t[k]);
    var c := t[k];
    assert c in s && IsDigit(c);
  }

  /** Text of the decimal shape holds a digit. */
  lemma ShapeHasDigit(t: string)
    requires DecimalShape(t)
    ensures exists k :: 0 <= k < |t| && IsDigit(t[k])
  {
    var off := if t[0] == '-' || t[0] == '+' then 1 else 0;
    var body := t[off..];
    var i :| 0 <= i < |body| && IsDigit(body[i]);
    assert t[i + off] == body[i];
  }

  /** The index of the first '.' in `s`. */
  function DotIndex(s: string): (r: Option<nat>)
    ensures r.Some? ==> r.value < |s| && s[r.value] == '.'
    ensures r.None? ==> '.' !in s
  {
    if |s| == 0 then None
    else if s[0] == '.' then Some(0)
    else
      var rest := DotIndex(s[1..]);
      if rest.Some? then Some(rest.value + 1) else None
  }

  /** Digits alone are their own number text: no padding, no suffix. */
  lemma DecimalCoreOfDigits(s: string)
    requires |s| > 0 && AllDigits(s)
    ensures DecimalCore(s) == s
  {
    assert !IsPadding(s[0]);
    assert TrimLeadingPadding(s) == s;
    assert !IsPadding(s[|s| - 1]);
    assert TrimTrailingPadding(s) == s;
    assert !IsTypeSuffix(s[|s| - 1]);
  }

  /** Digits alone, unsigned and without a point, read as their integer value. */
  lemma ParseDecimalCoreOfDigits(s: string)
    requires |s| > 0 && AllDigits(s)
    ensures ParseDecimalCore(s) == Some(DigitsValue(s) as real)
  {
    assert s[0] != '-' && s[0] != '+';
    ParseUnsignedOfDigits(s);
  }

  lemma ParseUnsignedOfDigits(s: string)
    requires |s| > 0 && AllDigits(s)
    ensures ParseUnsigned(s) == Some(DigitsValue(s) as real)
  {
    assert DotIndex(s).None? by { assert '.' !in s; }
    assert FractionValue("") == 0.0;
  }

  /** Every string of digits is valid decimal text with its integer value. */
  lemma ParseDecimalOfDigits(s: string)
    requires |s| > 0 && AllDigits(s)
    ensures ParseDecimal(s) == Some(DigitsValue(s) as real)
  {
    DecimalCoreOfDigits(s);
    ParseDecimalCoreOfDigits(s);
  }

  /**
   * Any run of padding before a number, and one optional type suffix and any
   * run of padding after it, leave its value unchanged.
   */
  lemma ParseDecimalPadded(pre: string, t: string, suffix: string, post: string)
    requires forall i :: 0 <= i < |pre| ==> IsPadding(pre[i])
    requires DecimalShape(t)
    requires suffix == [] || (|suffix| == 1 && IsTypeSuffix(suffix[0]))
    requires forall i :: 0 <= i < |post| ==> IsPadding(post[i])
    ensures ParseDecimal(pre + t + suffix + post) == ParseDecimalCore(t)
    ensures AllDigits(t) ==> ParseDecimal(pre + t + suffix + post) == Some(DigitsValue(t) as real)
  {
    ShapeEnds(t);
    PaddedCore(pre, t, suffix, post);
    if AllDigits(t) {
      ParseDecimalCoreOfDigits(t);
    }
  }

  lemma PaddedCore(pre: string, t: string, suffix: string, post: string)
    requires forall i :: 0 <= i < |pre| ==> IsPadding(pre[i])
    requires |t| > 0 && !IsPadding(t[0]) && !IsPadding(t[|t| - 1]) && !IsTypeSuffix(t[|t| - 1])
    requires suffix == [] || (|suffix| == 1 && IsTypeSuffix(suffix[0]))
    requires forall i :: 0 <= i < |post| ==> IsPadding(post[i])
    ensures DecimalCore(pre + t + suffix + post) == t
  {
    var b := t + suffix;
    SuffixedEnds(t, suffix);
    assert pre + t + suffix + post == pre + b + post;
    Unpadded(pre, b, post);
    CoreOfTrimmed(pre + b + post, b, t);
  }

  /** Text with an optional suffix neither starts nor ends with padding, and drops back to the text. */
  lemma SuffixedEnds(t: string, suffix: string)
    requires |t| > 0 && !IsPadding(t[0]) && !IsPadding(t[|t| - 1]) && !IsTypeSuffix(t[|t| - 1])
    requires suffix == [] || (|suffix| == 1 && IsTypeSuffix(suffix[0]))
    ensures var b := t + suffix;
      && !IsPadding(b[0]) && !IsPadding(b[|b| - 1])
      && (if IsTypeSuffix(b[|b| - 1]) then b[..|b| - 1] else b) == t
  {
    var b := t + suffix;
    assert b[0] == t[0];
    if suffix == [] {
      assert b == t;
    } else {
      assert b[..|b| - 1] == t;
    }
  }

  lemma CoreOfTrimmed(x: string, b: string, t: string)
    requires |b| > 0 && TrimTrailingPadding(TrimLeadingPadding(x)) == b
    requires (if IsTypeSuffix(b[|b| - 1]) then b[..|b| - 1] else b) == t
    ensures DecimalCore(x) == t
  {
  }

  /** Padding on both sides of a text that starts and ends with something else is all that trimming removes. */
  lemma Unpadded(pre: string, b: string, post: string)
    requires forall i :: 0 <= i < |pre| ==> IsPadding(pre[i])
    requires |b| > 0 && !IsPadding(b[0]) && !IsPadding(b[|b| - 1])
    requires forall i :: 0 <= i < |post| ==> IsPadding(post[i])
    ensures TrimTrailingPadding(TrimLeadingPadding(pre + b + post)) == b
  {
    assert pre + b + post == pre + (b + post);
    assert (b + post)[0] == b[0];
    LeadingPadding(pre, b + post);
    TrailingPadding(b, post);
  }

  /** Decimal text starts and ends with a character that is neither padding nor, at the end, a type suffix. */
  lemma ShapeEnds(t: string)
    requires DecimalShape(t)
    ensures !IsPadding(t[0])
    ensures !IsPadding(t[|t| - 1]) && !IsTypeSuffix(t[|t| - 1])
  {
    var body := if t[0] == '-' || t[0] == '+' then t[1..] else t;
    var k :| 0 <= k < |body| && IsDigit(body[k]);
    assert body[|body| - 1] == t[|t| - 1];
    assert IsDigit(body[0]) || body[0] == '.';
    assert IsDigit(body[|body| - 1]) || body[|body| - 1] == '.';
  }

  lemma {:induction false} LeadingPadding(pre: string, a: string)
    requires forall i :: 0 <= i < |pre| ==> IsPadding(pre[i])
    requires |a| > 0 && !IsPadding(a[0])
    ensures TrimLeadingPadding(pre + a) == a
  {
    if pre == [] {
      assert pre + a == a;
    } else {
      assert (pre + a)[1..] == pre[1..] + a;
      LeadingPadding(pre[1..], a);
    }
  }

  lemma {:induction false} TrailingPadding(b: string, post: string)
    requires forall i :: 0 <= i < |post| ==> IsPadding(post[i])
    requires |b| > 0 && !IsPadding(b[|b| - 1])
    ensures TrimTrailingPadding(b + post) == b
  {
    if post == [] {
      assert b + post == b;
    } else {
      var p := b + post;
      assert p[|p| - 1] == post[|post| - 1];
      assert p[..|p| - 1] == b + post[..|post| - 1];
      TrailingPadding(b, post[..|post| - 1]);
    }
  }
}
