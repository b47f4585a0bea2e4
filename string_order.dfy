/**
 * Kotlin's natural order on strings (`String.compareTo`: UTF-16 unit by
 * unit, a proper prefix first), `List<String>.sorted()` and the
 * list operator `list - element`, which removes the first occurrence.
 */
module StringOrder {
  import opened Text

  /**
   * Where a character falls in the order of its UTF-16 units: below U+D800
   * at its code point, then the characters above U+FFFF (whose first unit
   * is a high surrogate, U+D800 to U+DBFF), then U+E000 to U+FFFF.
   */
  function Utf16Key(c: char): int {
    var n := c as int;
    if n < 0xD800 then n else if n > 0xFFFF then 0xD800 + (n - 0x10000) else n + 0x100000
  }

  /** `a <= b` by `compareTo`: first differing UTF-16 unit, a proper prefix first. */
  predicate Le(a: string, b: string)
    decreases |a|
  {
    if a == [] then true
    else if b == [] then false
    else if a[0] != b[0] then Utf16Key(a[0]) < Utf16Key(b[0])
    else Le(a[1..], b[1..])
  }

  /** Lexicographic order on sequences of code units, a proper prefix first. */
  predicate UnitsLe(u: seq<int>, v: seq<int>)
    decreases |u|
  {
    if u == [] then true
    else if v == [] then false
    else if u[0] != v[0] then u[0] < v[0]
    else UnitsLe(u[1..], v[1..])
  }

  /** A common prefix does not change the order of two unit sequences. */
  lemma {:induction false} UnitsLeCommonPrefix(p: seq<int>, x: seq<int>, y: seq<int>)
    ensures UnitsLe(p + x, p + y) <==> UnitsLe(x, y)
    decreases |p|
  {
    if p != [] {
      assert (p + x)[0] == p[0] == (p + y)[0];
      assert (p + x)[1..] == p[1..] + x && (p + y)[1..] == p[1..] + y;
      UnitsLeCommonPrefix(p[1..], x, y);
    } else {
      assert p + x == x && p + y == y;
    }
  }

  /** Two different characters are ordered by their units whatever follows them. */
  lemma FirstDifferentCharacter(a: char, b: char, x: seq<int>, y: seq<int>)
    requires a != b
    ensures UnitsLe(Utf16Units(a) + x, Utf16Units(b) + y) <==> Utf16Key(a) < Utf16Key(b)
  {
    var ua, ub := Utf16Units(a), Utf16Units(b);
    var u, v := ua + x, ub + y;
    assert u[0] == ua[0] && v[0] == ub[0];
    if ua[0] == ub[0] {
      assert |ua| == 2 && |ub| == 2;
      assert ua[1] != ub[1];
      assert u[1..][0] == ua[1] && v[1..][0] == ub[1];
    }
  }

  /** `Le` is exactly the order of the strings' UTF-16 encodings. */
  lemma {:induction false} LeIsUtf16Order(a: string, b: string)
    ensures Le(a, b) <==> UnitsLe(Utf16(a), Utf16(b))
    decreases |a|
  {
    if a != [] && b != [] {
      if a[0] == b[0] {
        LeIsUtf16Order(a[1..], b[1..]);
        UnitsLeCommonPrefix(Utf16Units(a[0]), Utf16(a[1..]), Utf16(b[1..]));
      } else {
        FirstDifferentCharacter(a[0], b[0], Utf16(a[1..]), Utf16(b[1..]));
      }
    } else if a != [] {
      assert Utf16(a) != [];
    }
  }

  /** A character above U+FFFF sorts before U+E000, although its code point is larger. */
  lemma SupplementaryBeforePrivateUse()
    ensures Le(['\U{1F600}'], ['\U{E000}']) && !Le(['\U{E000}'], ['\U{1F600}'])
  {
  }

  lemma {:induction false} LeReflexive(a: string)
    ensures Le(a, a)
    decreases |a|
  {
    if a != [] {
      LeReflexive(a[1..]);
    }
  }

  lemma {:induction false} LeAntisymmetric(a: string, b: string)
    requires Le(a, b) && Le(b, a)
    ensures a == b
    decreases |a|
  {
    if a != [] && b != [] {
      LeAntisymmetric(a[1..], b[1..]);
      assert a == [a[0]] + a[1..] && b == [b[0]] + b[1..];
    }
  }

  lemma {:induction false} LeTransitive(a: string, b: string, c: string)
    requires Le(a, b) && Le(b, c)
    ensures Le(a, c)
    decreases |a|
  {
    if a != [] && b != [] && c != [] && a[0] == b[0] && b[0] == c[0] {
      LeTransitive(a[1..], b[1..], c[1..]);
    }
  }

  lemma {:induction false} LeTotal(a: string, b: string)
    ensures Le(a, b) || Le(b, a)
    decreases |a|
  {
    if a != [] && b != [] && a[0] == b[0] {
      LeTotal(a[1..], b[1..]);
    }
  }

  /** Ascending, every pair of positions in order. */
  predicate Sorted(s: seq<string>) {
    forall i, j :: 0 <= i < j < |s| ==> Le(s[i], s[j])
  }

  /** Every string occurs at most once. */
  predicate NoDuplicates(s: seq<string>) {
    forall x :: x in s ==> multiset(s)[x] == 1
  }

  /** A string below every element of a sorted list can go in front of it. */
  lemma ConsSorted(h: string, rest: seq<string>)
    requires Sorted(rest)
    requires forall y :: y in rest ==> Le(h, y)
    ensures Sorted([h] + rest)
  {
    var r := [h] + rest;
    forall i, j | 0 <= i < j < |r| ensures Le(r[i], r[j]) {
      assert r[j] == rest[j - 1];
      if i > 0 {
        assert r[i] == rest[i - 1];
      } else {
        assert rest[j - 1] in rest;
      }
    }
  }

  /** A string below the head of a sorted list can go in front of it. */
  lemma InsertFront(x: string, s: seq<string>)
    requires Sorted(s) && s != [] && Le(x, s[0])
    ensures Sorted([x] + s)
  {
    forall y | y in s ensures Le(x, y) {
      SortedHead(s, y);
      LeTransitive(x, s[0], y);
    }
    ConsSorted(x, s);
  }

  /** The head of a sorted list can go in front of its tail with a string above it inserted. */
  lemma InsertBehind(x: string, s: seq<string>, rest: seq<string>)
    requires Sorted(s) && s != [] && !Le(x, s[0])
    requires Sorted(rest) && multiset(rest) == multiset(s[1..]) + multiset{x}
    ensures Sorted([s[0]] + rest)
  {
    LeTotal(x, s[0]);
    forall y | y in rest ensures Le(s[0], y) {
      assert y in multiset(rest);
      if y != x {
        assert y in multiset(s[1..]);
        assert y in s;
        SortedHead(s, y);
      }
    }
    ConsSorted(s[0], rest);
  }

  /** Inserting `x` in front of the first string it is not above. */
  function Insert(x: string, s: seq<string>): (r: seq<string>)
    ensures multiset(r) == multiset(s) + multiset{x}
    decreases |s|
  {
    if s == [] then [x]
    else if Le(x, s[0]) then [x] + s
    else
      assert s == [s[0]] + s[1..];
      [s[0]] + Insert(x, s[1..])
  }

  /** Inserting into a sorted list keeps it sorted. */
  lemma {:induction false} InsertSorted(x: string, s: seq<string>)
    requires Sorted(s)
    ensures Sorted(Insert(x, s))
    decreases |s|
  {
    if s != [] {
      if Le(x, s[0]) {
        InsertFront(x, s);
      } else {
        SortedTail(s);
        InsertSorted(x, s[1..]);
        InsertBehind(x, s, Insert(x, s[1..]));
      }
    }
  }

  /** `sorted()`: a sorted permutation of `s`. */
  function Sort(s: seq<string>): (r: seq<string>)
    ensures Sorted(r)
    ensures multiset(r) == multiset(s)
    decreases |s|
  {
    if s == [] then []
    else
      assert s == [s[0]] + s[1..];
      var t := Sort(s[1..]);
      InsertSorted(s[0], t);
      Insert(s[0], t)
  }

  /** The head of a sorted list is below every element of it. */
  lemma SortedHead(s: seq<string>, y: string)
    requires Sorted(s) && y in s
    ensures Le(s[0], y)
  {
    var i :| 0 <= i < |s| && s[i] == y;
    if i == 0 {
      LeReflexive(y);
    }
  }

  /** The tail of a sorted list is sorted and holds the rest of its strings. */
  lemma SortedTail(s: seq<string>)
    requires Sorted(s) && s != []
    ensures Sorted(s[1..])
    ensures multiset(s[1..]) == multiset(s) - multiset{s[0]}
  {
    assert s == [s[0]] + s[1..];
  }

  /** Two sorted lists holding the same strings are the same list. */
  lemma {:induction false} SortedUnique(a: seq<string>, b: seq<string>)
    requires Sorted(a) && Sorted(b) && multiset(a) == multiset(b)
    ensures a == b
    decreases |a|
  {
    assert |a| == |b| by { assert |multiset(a)| == |multiset(b)|; }
    if a != [] {
      SameHead(a, b);
      SameTail(a, b);
      SortedTail(a);
      SortedTail(b);
      SortedUnique(a[1..], b[1..]);
      assert a == [a[0]] + a[1..] && b == [b[0]] + b[1..];
    }
  }

  /** Two sorted lists holding the same strings start with the same string. */
  lemma SameHead(a: seq<string>, b: seq<string>)
    requires Sorted(a) && Sorted(b) && multiset(a) == multiset(b) && a != [] && b != []
    ensures a[0] == b[0]
  {
    assert a[0] in multiset(a) && b[0] in multiset(b);
    SortedHead(b, a[0]);
    SortedHead(a, b[0]);
    LeAntisymmetric(a[0], b[0]);
  }

  lemma SameTail(a: seq<string>, b: seq<string>)
    requires a != [] && b != [] && a[0] == b[0] && multiset(a) == multiset(b)
    ensures multiset(a[1..]) == multiset(b[1..])
  {
    assert a == [a[0]] + a[1..] && b == [b[0]] + b[1..];
    assert multiset(a) == multiset{a[0]} + multiset(a[1..]);
    assert multiset(b) == multiset{b[0]} + multiset(b[1..]);
    assert multiset(a[1..]) == multiset(a) - multiset{a[0]};
  }

  /** `indexOf(x)` for an element that occurs. */
  function FirstIndex(s: seq<string>, x: string): (k: nat)
    requires x in s
    ensures k < |s| && s[k] == x && x !in s[..k]
  {
    if s[0] == x then 0
    else
      var k := FirstIndex(s[1..], x);
      assert s[..k + 1] == [s[0]] + s[1..][..k];
      k + 1
  }

  /** `list - x`: the list without the first occurrence of `x`. */
  function RemoveFirst(s: seq<string>, x: string): (r: seq<string>)
    ensures x !in s ==> r == s
    ensures x in s ==> r == s[..FirstIndex(s, x)] + s[FirstIndex(s, x) + 1..]
    ensures multiset(r) == multiset(s) - multiset{x}
  {
    if x in s then
      var k := FirstIndex(s, x);
      assert s == s[..k] + [s[k]] + s[k + 1..];
      s[..k] + s[k + 1..]
    else s
  }

  /** Dropping an element keeps a list sorted. */
  lemma RemoveFirstSorted(s: seq<string>, x: string)
    requires Sorted(s)
    ensures Sorted(RemoveFirst(s, x))
  {
    if x in s {
      var k := FirstIndex(s, x);
      var r := s[..k] + s[k + 1..];
      assert RemoveFirst(s, x) == r;
      forall i, j | 0 <= i < j < |r| ensures Le(r[i], r[j]) {
        RemovedAt(s, k, i);
        RemovedAt(s, k, j);
        var i', j' := if i < k then i else i + 1, if j < k then j else j + 1;
        assert i' < j' && Le(s[i'], s[j']);
      }
    }
  }

  /** Where the strings of a list with one entry cut out come from. */
  lemma RemovedAt(s: seq<string>, k: nat, i: nat)
    requires k < |s| && i < |s| - 1
    ensures (s[..k] + s[k + 1..])[i] == s[if i < k then i else i + 1]
  {
  }
}
