/** The Kotlin string operations the app relies on: blank tests, trimming, case-insensitive search and splitting. */
module Text {
  import opened Wrappers

  /**
   * `Char.isWhitespace()`: the control characters 9-13 and 0x1C-0x1F, and
   * the Unicode space, line and paragraph separators.
   */
  predicate IsWhitespace(c: char) {
    var n := c as int;
    (9 <= n <= 13) || (0x1C <= n <= 0x20) || n == 0xA0 || n == 0x1680 || (0x2000 <= n <= 0x200A)
    || n == 0x2028 || n == 0x2029 || n == 0x202F || n == 0x205F || n == 0x3000
  }

  /**
   * The UTF-16 code units of `c`, the units Kotlin strings are made of:
   * `c` itself up to U+FFFF, otherwise its high and its low surrogate.
   */
  function Utf16Units(c: char): (u: seq<int>)
    ensures 1 <= |u| <= 2
    ensures |u| == 1 <==> c as int <= 0xFFFF
    ensures |u| == 1 ==> u[0] == c as int && !(0xD800 <= u[0] < 0xE000)
    ensures |u| == 2 ==> && 0xD800 <= u[0] < 0xDC00 <= u[1] < 0xE000
                         && (u[0] - 0xD800) * 0x400 + (u[1] - 0xDC00) + 0x10000 == c as int
  {
    var n := c as int;
    if n <= 0xFFFF then [n] else [0xD800 + (n - 0x10000) / 0x400, 0xDC00 + (n - 0x10000) % 0x400]
  }

  /** The UTF-16 encoding of `s`. */
  function Utf16(s: string): (u: seq<int>)
    ensures |s| <= |u| <= 2 * |s|
  {
    if s == [] then [] else Utf16Units(s[0]) + Utf16(s[1..])
  }

  /** Kotlin's `length`: the number of UTF-16 code units, two for a character above U+FFFF. */
  function Utf16Length(s: string): (n: nat)
    ensures n == |Utf16(s)|
    ensures |s| <= n <= 2 * |s|
  {
    if s == [] then 0 else |Utf16Units(s[0])| + Utf16Length(s[1..])
  }

  /** Text of characters up to U+FFFF has one unit per character. */
  lemma {:induction false} Utf16LengthOfBmp(s: string)
    requires forall i :: 0 <= i < |s| ==> s[i] as int <= 0xFFFF
    ensures Utf16Length(s) == |s|
    decreases |s|
  {
    if s != [] {
      BmpTail(s);
      Utf16LengthOfBmp(s[1..]);
    }
  }

  /**
   * `take(n)` as far as it keeps whole characters: the longest prefix of `s`
   * that fits in `n` code units.
   */
  function Utf16Take(s: string, n: nat): (r: string)
    ensures r <= s
    ensures Utf16Length(r) <= n
    ensures |r| < |s| ==> Utf16Length(r) + |Utf16Units(s[|r|])| > n
  {
    if s == [] || |Utf16Units(s[0])| > n then []
    else
      var rest := Utf16Take(s[1..], n - |Utf16Units(s[0])|);
      var r := [s[0]] + rest;
      assert r[0] == s[0] && r[1..] == rest;
      assert |r| < |s| ==> s[|r|] == s[1..][|rest|];
      r
  }

  /** Text of characters up to U+FFFF is cut at exactly `n` characters. */
  lemma Utf16TakeOfBmp(s: string, n: nat)
    requires forall i :: 0 <= i < |s| ==> s[i] as int <= 0xFFFF
    ensures Utf16Take(s, n) == s[..if n < |s| then n else |s|]
  {
    var r := Utf16Take(s, n);
    forall i | 0 <= i < |r| ensures r[i] as int <= 0xFFFF {
      assert r[i] == s[i];
    }
    Utf16LengthOfBmp(r);
    if |r| < |s| {
      assert |Utf16Units(s[|r|])| == 1;
    }
  }

  /** The tail of text of characters up to U+FFFF has only such characters. */
  lemma BmpTail(s: string)
    requires s != [] && forall i :: 0 <= i < |s| ==> s[i] as int <= 0xFFFF
    ensures forall i :: 0 <= i < |s[1..]| ==> s[1..][i] as int <= 0xFFFF
  {
    forall i | 0 <= i < |s[1..]| ensures s[1..][i] as int <= 0xFFFF { assert s[1..][i] == s[i + 1]; }
  }

  /** `isBlank()`: empty or only whitespace. */
  predicate IsBlank(s: string) {
    forall i :: 0 <= i < |s| ==> IsWhitespace(s[i])
  }

  /** `isNullOrBlank()` */
  predicate IsNullOrBlank(s: Option<string>) {
    s.None? || IsBlank(s.value)
  }

  /** `isNullOrEmpty()` */
  predicate IsNullOrEmpty(s: Option<string>) {
    s.None? || |s.value| == 0
  }

  /** `ifBlank { default }` */
  function IfBlank(s: string, default: string): (r: string)
    ensures IsBlank(s) ==> r == default
    ensures !IsBlank(s) ==> r == s
  {
    if IsBlank(s) then default else s
  }

  /** `ifEmpty { null }` */
  function EmptyToNull(s: string): (r: Option<string>)
    ensures r.None? <==> |s| == 0
    ensures r.Some? ==> r.value == s
  {
    if |s| == 0 then None else Some(s)
  }

  /** `s ?: ""` */
  function NullToEmpty(s: Option<string>): (r: string)
    ensures s.Some? ==> r == s.value
    ensures s.None? ==> r == ""
  {
    s.GetOr("")
  }

  /** Mapping a nullable string to text and back keeps it, except that "" comes back as null. */
  lemma EmptyToNullOfNullToEmpty(s: Option<string>)
    ensures EmptyToNull(NullToEmpty(s)) == if s == Some("") then None else s
  {
  }

  lemma BlankConcat(a: string, b: string)
    requires IsBlank(a) && IsBlank(b)
    ensures IsBlank(a + b)
  {
  }

  /** Drops the leading whitespace. */
  function TrimStart(s: string): (r: string)
    ensures |r| <= |s|
    decreases |s|
  {
    if |s| > 0 && IsWhitespace(s[0]) then TrimStart(s[1..]) else s
  }

  /** `TrimStart` drops a blank prefix and keeps the rest, which starts with a non-whitespace character if any. */
  lemma {:induction false} TrimStartDrops(s: string)
    ensures TrimStart(s) == s[|s| - |TrimStart(s)|..]
    ensures IsBlank(s[..|s| - |TrimStart(s)|])
    ensures TrimStart(s) != [] ==> !IsWhitespace(TrimStart(s)[0])
    decreases |s|
  {
    if |s| > 0 && IsWhitespace(s[0]) {
      TrimStartDrops(s[1..]);
      BlankFront(s, |s| - |TrimStart(s)|);
    }
  }

  /** A blank stretch after a leading whitespace character makes a longer blank stretch. */
  lemma BlankFront(s: string, k: nat)
    requires 0 < k <= |s| && IsWhitespace(s[0]) && IsBlank(s[1..][..k - 1])
    ensures IsBlank(s[..k]) && s[1..][k - 1..] == s[k..]
  {
    forall i | 0 <= i < k ensures IsWhitespace(s[..k][i]) {
      if i > 0 {
        assert s[..k][i] == s[1..][..k - 1][i - 1];
      }
    }
  }

  /** Drops the trailing whitespace. */
  function TrimEnd(s: string): (r: string)
    ensures |r| <= |s|
    decreases |s|
  {
    if |s| > 0 && IsWhitespace(s[|s| - 1]) then TrimEnd(s[..|s| - 1]) else s
  }

  /** `TrimEnd` keeps a prefix, which ends with a non-whitespace character if any, and drops a blank rest. */
  lemma {:induction false} TrimEndDrops(s: string)
    ensures TrimEnd(s) == s[..|TrimEnd(s)|]
    ensures IsBlank(s[|TrimEnd(s)|..])
    ensures TrimEnd(s) != [] ==> !IsWhitespace(TrimEnd(s)[|TrimEnd(s)| - 1])
    decreases |s|
  {
    if |s| > 0 && IsWhitespace(s[|s| - 1]) {
      TrimEndDrops(s[..|s| - 1]);
      BlankBack(s, |TrimEnd(s)|);
    }
  }

  /** A blank stretch before a trailing whitespace character makes a longer blank stretch. */
  lemma BlankBack(s: string, k: nat)
    requires k < |s| && IsWhitespace(s[|s| - 1]) && IsBlank(s[..|s| - 1][k..])
    ensures IsBlank(s[k..]) && s[..|s| - 1][..k] == s[..k]
  {
    forall i | 0 <= i < |s| - k ensures IsWhitespace(s[k..][i]) {
      if i < |s| - 1 - k {
        assert s[k..][i] == s[..|s| - 1][k..][i];
      }
    }
  }

  /** `trim()`: the whitespace at both ends dropped. */
  function Trim(s: string): (r: string)
    ensures |r| <= |s|
  {
    TrimEnd(TrimStart(s))
  }

  /** How many whitespace characters `trim()` drops from the front. */
  function LeadingBlank(s: string): (k: nat)
    ensures k <= |s|
  {
    |s| - |TrimStart(s)|
  }

  /**
   * `s` is some whitespace, then `Trim(s)`, then some whitespace, and
   * `Trim(s)` neither starts nor ends with whitespace.
   */
  lemma TrimInside(s: string)
    ensures LeadingBlank(s) + |Trim(s)| <= |s| && s[LeadingBlank(s)..LeadingBlank(s) + |Trim(s)|] == Trim(s)
    ensures IsBlank(s[..LeadingBlank(s)]) && IsBlank(s[LeadingBlank(s) + |Trim(s)|..])
    ensures Trim(s) != [] ==> !IsWhitespace(Trim(s)[0]) && !IsWhitespace(Trim(s)[|Trim(s)| - 1])
  {
    var t := TrimStart(s);
    TrimStartDrops(s);
    TrimEndDrops(t);
    SuffixSlices(s, LeadingBlank(s), |Trim(s)|);
  }

  /** Cutting a suffix of `s` at `j` cuts `s` at `i + j`. */
  lemma SuffixSlices(s: string, i: nat, j: nat)
    requires i + j <= |s|
    ensures s[i..][..j] == s[i..i + j] && s[i..][j..] == s[i + j..]
  {
  }

  /** Trimming leaves a string alone when it neither starts nor ends with whitespace. */
  lemma TrimUntrimmed(s: string)
    requires s != [] ==> !IsWhitespace(s[0]) && !IsWhitespace(s[|s| - 1])
    ensures Trim(s) == s
  {
    assert TrimStart(s) == s;
    assert TrimEnd(s) == s;
  }

  /** A string is blank exactly when trimming leaves nothing. */
  lemma BlankIffTrimEmpty(s: string)
    ensures IsBlank(s) <==> Trim(s) == []
  {
    TrimInside(s);
    var i := LeadingBlank(s);
    if Trim(s) == [] {
      assert s == s[..i] + s[i..];
      BlankConcat(s[..i], s[i..]);
    }
  }

  /** Case folding as `equals(other, ignoreCase = true)` does it, for ASCII and Latin-1 letters. */
  function FoldCase(c: char): char {
    var n := c as int;
    if 'A' as int <= n <= 'Z' as int || (0xC0 <= n <= 0xDE && n != 0xD7) then (n + 32) as char else c
  }

  /** `p` occurs in `s` at offset `i`, ignoring case. */
  predicate MatchesAt(s: string, i: int, p: string) {
    0 <= i && i + |p| <= |s| && forall j :: 0 <= j < |p| ==> FoldCase(s[i + j]) == FoldCase(p[j])
  }

  /** `contains(other, ignoreCase = true)` */
  predicate ContainsIgnoreCase(s: string, p: string) {
    exists i :: 0 <= i <= |s| - |p| && MatchesAt(s, i, p)
  }

  /** Every string contains the empty string. */
  lemma ContainsEmpty(s: string)
    ensures ContainsIgnoreCase(s, "")
  {
    assert MatchesAt(s, 0, "");
  }

  /** A string contains each of its prefixes. */
  lemma ContainsAtStart(s: string, p: string)
    requires p <= s
    ensures ContainsIgnoreCase(s, p)
  {
    assert MatchesAt(s, 0, p);
  }

  /** Every string contains itself. */
  lemma ContainsItself(s: string)
    ensures ContainsIgnoreCase(s, s)
  {
    assert MatchesAt(s, 0, s);
  }

  /** The index of the first occurrence of `sep`. */
  function IndexOf(s: string, sep: char): (r: Option<nat>)
    ensures r.Some? ==> r.value < |s| && s[r.value] == sep && sep !in s[..r.value]
    ensures r.None? ==> sep !in s
  {
    if |s| == 0 then None
    else if s[0] == sep then Some(0)
    else
      var rest := IndexOf(s[1..], sep);
      if rest.Some? then
        assert s[..rest.value + 1] == [s[0]] + s[1..][..rest.value];
        Some(rest.value + 1)
      else None
  }

  /**
   * `split(sep, limit = 2)`: the whole string when `sep` does not occur,
   * otherwise the text before its first occurrence and the text after it.
   */
  function SplitOnce(s: string, sep: char): (parts: seq<string>)
    ensures 1 <= |parts| <= 2
    ensures |parts| == 1 <==> sep !in s
    ensures |parts| == 1 ==> parts[0] == s
    ensures |parts| == 2 ==> sep !in parts[0] && parts[0] + [sep] + parts[1] == s
  {
    var k := IndexOf(s, sep);
    if k.None? then [s]
    else
      assert s[..k.value] + [sep] + s[k.value + 1..] == s;
      [s[..k.value], s[k.value + 1..]]
  }

  /** `split(" ").first()`: the text before the first space, or all of `s`. */
  function FirstWord(s: string): (r: string)
    ensures ' ' !in r
    ensures |r| <= |s| && r == s[..|r|]
    ensures |r| < |s| ==> s[|r|] == ' '
  {
    var parts := SplitOnce(s, ' ');
    assert |parts| == 2 ==> s[..|parts[0]|] == parts[0];
    parts[0]
  }

  /** `"${first} ${last}"` */
  function FullName(first: string, last: string): string {
    first + " " + last
  }

  /** Splitting a full name at its first space gives back the two parts, when the first has no space. */
  lemma SplitFullName(first: string, last: string)
    requires ' ' !in first
    ensures SplitOnce(FullName(first, last), ' ') == [first, last]
  {
    var s := FullName(first, last);
    assert s[|first|] == ' ';
    var parts := SplitOnce(s, ' ');
    assert |parts| == 2;
    SplitOnceUnique(s, ' ', first, last);
  }

  /** At most one way to write `s` as text without `sep`, then `sep`, then more text. */
  lemma SplitOnceUnique(s: string, sep: char, a: string, b: string)
    requires sep !in a && a + [sep] + b == s
    ensures SplitOnce(s, sep) == [a, b]
  {
    var parts := SplitOnce(s, sep);
    assert s[|a|] == sep;
    assert |parts| == 2;
    var p := parts[0];
    assert p == s[..|p|] == a;
    assert parts[1] == s[|a| + 1..] == b;
  }

  /** Joining the two halves of a split full name gives the name back. */
  lemma FullNameOfSplit(s: string)
    requires ' ' in s
    ensures var parts := SplitOnce(s, ' '); |parts| == 2 && FullName(parts[0], parts[1]) == s
  {
  }
}
