/** List comprehensions with a condition, `sorted(..., key=...)` and
    `sorted(set(...))`, the three list idioms of the catalog. */
module Sequences {
  import opened Strings

  // ---------------------------------------------------------------------
  // [x for x in s if p(x)]

  function Filter<T(!new)>(s: seq<T>, p: T -> bool): (r: seq<T>)
    ensures |r| <= |s|
    ensures forall x :: x in r ==> x in s && p(x)
    ensures forall x :: multiset(r)[x] == if p(x) then multiset(s)[x] else 0
  {
    if s == [] then []
    else
      assert s == [s[0]] + s[1..];
      if p(s[0]) then [s[0]] + Filter(s[1..], p) else Filter(s[1..], p)
  }

  /** Filtering keeps the relative order: it distributes over concatenation. */
  lemma {:induction false} FilterConcat<T(!new)>(a: seq<T>, b: seq<T>, p: T -> bool)
    ensures Filter(a + b, p) == Filter(a, p) + Filter(b, p)
  {
    if a == [] {
      assert a + b == b;
    } else {
      assert (a + b)[0] == a[0] && (a + b)[1..] == a[1..] + b;
      FilterUnfold(a + b, p);
      FilterUnfold(a, p);
      FilterConcat(a[1..], b, p);
      if p(a[0]) {
        ConsAppend(a[0], Filter(a[1..], p), Filter(b, p));
      }
    }
  }

  lemma ConsAppend<T>(x: T, u: seq<T>, v: seq<T>)
    ensures [x] + (u + v) == ([x] + u) + v
  {
  }

  /** One step of the comprehension. */
  lemma FilterUnfold<T(!new)>(s: seq<T>, p: T -> bool)
    requires s != []
    ensures Filter(s, p) == if p(s[0]) then [s[0]] + Filter(s[1..], p) else Filter(s[1..], p)
  {
  }

  /** A comprehension that keeps two elements drew them from two positions that match. */
  lemma {:induction false} FilterTwoMatches<T(!new)>(s: seq<T>, p: T -> bool)
    requires |Filter(s, p)| >= 2
    ensures exists i, j :: 0 <= i < j < |s| && p(s[i]) && p(s[j])
  {
    var rest := Filter(s[1..], p);
    if p(s[0]) {
      assert Filter(s, p) == [s[0]] + rest;
      var x := rest[0];
      assert x in s[1..] && p(x);
      var j :| 0 <= j < |s[1..]| && s[1..][j] == x;
      assert 0 < j + 1 < |s| && p(s[0]) && p(s[j + 1]);
    } else {
      assert Filter(s, p) == rest;
      FilterTwoMatches(s[1..], p);
      var i, j :| 0 <= i < j < |s[1..]| && p(s[1..][i]) && p(s[1..][j]);
      assert s[1..][i] == s[i + 1] && s[1..][j] == s[j + 1];
      assert 0 <= i + 1 < j + 1 < |s| && p(s[i + 1]) && p(s[j + 1]);
    }
  }

  /** Two positions that match leave at least two elements in the comprehension. */
  lemma {:induction false} FilterKeepsTwo<T(!new)>(s: seq<T>, p: T -> bool, i: nat, j: nat)
    requires i < j < |s| && p(s[i]) && p(s[j])
    ensures |Filter(s, p)| >= 2
  {
    var rest := Filter(s[1..], p);
    assert s[1..][j - 1] == s[j];
    if i == 0 {
      assert Filter(s, p) == [s[0]] + rest;
      FilterNonEmpty(s[1..], p);
    } else {
      assert s[1..][i - 1] == s[i];
      FilterKeepsTwo(s[1..], p, i - 1, j - 1);
    }
  }

  /** A comprehension keeps two elements or more exactly when two positions match. */
  lemma FilterHasTwo<T(!new)>(s: seq<T>, p: T -> bool)
    ensures |Filter(s, p)| >= 2 <==> exists i, j :: 0 <= i < j < |s| && p(s[i]) && p(s[j])
  {
    if |Filter(s, p)| >= 2 { FilterTwoMatches(s, p); }
    if exists i, j :: 0 <= i < j < |s| && p(s[i]) && p(s[j]) {
      var i, j :| 0 <= i < j < |s| && p(s[i]) && p(s[j]);
      FilterKeepsTwo(s, p, i, j);
    }
  }

  /** A comprehension over two permutations of one list keeps as many elements. */
  lemma FilterSizeOfPermutation<T(!new)>(s: seq<T>, t: seq<T>, p: T -> bool)
    requires multiset(s) == multiset(t)
    ensures |Filter(s, p)| == |Filter(t, p)|
  {
    assert multiset(Filter(s, p)) == multiset(Filter(t, p));
  }

  /** A comprehension keeps something exactly when some element satisfies the condition. */
  lemma FilterNonEmpty<T(!new)>(s: seq<T>, p: T -> bool)
    ensures Filter(s, p) != [] <==> exists x :: x in s && p(x)
  {
    if exists x :: x in s && p(x) {
      var x :| x in s && p(x);
      assert multiset(Filter(s, p))[x] == multiset(s)[x] > 0;
    }
    if Filter(s, p) != [] { assert Filter(s, p)[0] in Filter(s, p); }
  }

  /** `f` lists increasing positions of `s` that spell out `r`. */
  ghost predicate Embeds<T>(f: seq<nat>, r: seq<T>, s: seq<T>)
  {
    && |f| == |r|
    && (forall i :: 0 <= i < |f| ==> f[i] < |s| && s[f[i]] == r[i])
    && (forall i, j :: 0 <= i < j < |f| ==> f[i] < f[j])
  }

  /** `r` is `s` with some elements dropped and the others in their original order. */
  ghost predicate Subsequence<T>(r: seq<T>, s: seq<T>)
  {
    exists f :: Embeds(f, r, s)
  }

  /** A comprehension keeps the order of its input. */
  lemma {:induction false} FilterIsSubsequence<T(!new)>(s: seq<T>, p: T -> bool)
    ensures Subsequence(Filter(s, p), s)
  {
    var f := FilterPositions(s, p);
  }

  lemma {:induction false} FilterPositions<T(!new)>(s: seq<T>, p: T -> bool) returns (f: seq<nat>)
    ensures Embeds(f, Filter(s, p), s)
  {
    if s == [] {
      f := [];
    } else {
      assert s == [s[0]] + s[1..];
      var g := FilterPositions(s[1..], p);
      if p(s[0]) {
        EmbedsCons(s[0], s[1..], g, Filter(s[1..], p));
        f := [0] + Shift(g);
      } else {
        EmbedsShift(s[0], s[1..], g, Filter(s[1..], p));
        f := Shift(g);
      }
    }
  }

  function Shift(g: seq<nat>): (h: seq<nat>)
    ensures |h| == |g| && forall i :: 0 <= i < |g| ==> h[i] == g[i] + 1
  {
    seq(|g|, i requires 0 <= i < |g| => g[i] + 1)
  }

  lemma EmbedsShift<T>(x: T, t: seq<T>, g: seq<nat>, r: seq<T>)
    requires Embeds(g, r, t)
    ensures Embeds(Shift(g), r, [x] + t)
  {
    var h, s := Shift(g), [x] + t;
    forall i | 0 <= i < |h| ensures h[i] < |s| && s[h[i]] == r[i] {
      assert s[g[i] + 1] == t[g[i]];
    }
  }

  lemma EmbedsCons<T>(x: T, t: seq<T>, g: seq<nat>, r: seq<T>)
    requires Embeds(g, r, t)
    ensures Embeds([0] + Shift(g), [x] + r, [x] + t)
  {
    EmbedsShift(x, t, g, r);
    var f, h := [0] + Shift(g), Shift(g);
    forall i, j | 0 <= i < j < |f| ensures f[i] < f[j] {
      assert f[j] == h[j - 1];
      if i > 0 { assert f[i] == h[i - 1]; }
    }
  }

  lemma SubsequenceReflexive<T>(s: seq<T>)
    ensures Subsequence(s, s)
  {
    assert Embeds(seq(|s|, i requires 0 <= i < |s| => i), s, s);
  }

  /** A subsequence of a subsequence of `s` is a subsequence of `s`. */
  lemma SubsequenceTransitive<T>(a: seq<T>, b: seq<T>, c: seq<T>)
    requires Subsequence(a, b) && Subsequence(b, c)
    ensures Subsequence(a, c)
  {
    var f :| Embeds(f, a, b);
    var g :| Embeds(g, b, c);
    var h := seq(|f|, i requires 0 <= i < |f| => g[f[i]]);
    forall i, j | 0 <= i < j < |h| ensures h[i] < h[j] {
      assert f[i] < f[j] < |g|;
    }
    assert Embeds(h, a, c);
  }

  /** What a list holds, a list it is a prefix of holds too. */
  /** Two permutations of each other have the same length and the same members. */
  lemma PermutationMembers<T>(s: seq<T>, t: seq<T>)
    requires multiset(s) == multiset(t)
    ensures |s| == |t| && forall x :: x in s <==> x in t
  {
    assert |s| == |multiset(s)| == |multiset(t)| == |t|;
    forall x ensures x in s <==> x in t {
      assert x in s <==> x in multiset(s);
      assert x in t <==> x in multiset(t);
    }
  }

  lemma PrefixMember<T>(a: seq<T>, b: seq<T>, x: T)
    requires a <= b && x in a
    ensures x in b
  {
    var i :| 0 <= i < |a| && a[i] == x;
    assert b[i] == x;
  }

  // ---------------------------------------------------------------------
  // sorted(s, key=key), a stable insertion sort

  ghost predicate SortedBy<T>(s: seq<T>, key: T -> string)
  {
    forall i, j :: 0 <= i < j < |s| ==> LexLe(key(s[i]), key(s[j]))
  }

  /** No two elements share a key (the registries' de-duplication). */
  predicate UniqueKeys<T>(s: seq<T>, key: T -> string)
  {
    forall i, j :: 0 <= i < j < |s| ==> key(s[i]) != key(s[j])
  }

  function Insert<T>(x: T, s: seq<T>, key: T -> string): (r: seq<T>)
    ensures |r| == |s| + 1
    ensures multiset(r) == multiset(s) + multiset{x}
  {
    if s == [] || LexLe(key(x), key(s[0])) then [x] + s
    else
      assert s == [s[0]] + s[1..];
      [s[0]] + Insert(x, s[1..], key)
  }

  lemma {:induction false} InsertSorted<T>(x: T, s: seq<T>, key: T -> string)
    requires SortedBy(s, key)
    ensures SortedBy(Insert(x, s, key), key)
  {
    var r := Insert(x, s, key);
    if s == [] || LexLe(key(x), key(s[0])) {
      forall i, j | 0 <= i < j < |r| ensures LexLe(key(r[i]), key(r[j])) {
        if i == 0 && j > 1 { LexLeTransitive(key(x), key(s[0]), key(s[j - 1])); }
      }
    } else {
      LexLeTotal(key(x), key(s[0]));
      var rest := Insert(x, s[1..], key);
      InsertSorted(x, s[1..], key);
      assert r == [s[0]] + rest;
      forall y | y in rest ensures LexLe(key(s[0]), key(y)) {
        assert y in multiset(rest);
        if y != x {
          var k :| 0 <= k < |s[1..]| && s[1..][k] == y;
          assert s[k + 1] == y;
        }
      }
      forall i, j | 0 <= i < j < |r| ensures LexLe(key(r[i]), key(r[j])) {
        if i == 0 { assert r[j] == rest[j - 1]; assert r[j] in rest; }
      }
    }
  }

  /** A comprehension over a sorted list is sorted. */
  lemma {:induction false} FilterSorted<T(!new)>(s: seq<T>, p: T -> bool, key: T -> string)
    ensures SortedBy(s, key) ==> SortedBy(Filter(s, p), key)
  {
    if s != [] && SortedBy(s, key) {
      FilterSorted(s[1..], p, key);
      assert SortedBy(s[1..], key);
      if p(s[0]) {
        var r, rest := Filter(s, p), Filter(s[1..], p);
        assert r == [s[0]] + rest;
        forall i, j | 0 <= i < j < |r| ensures LexLe(key(r[i]), key(r[j])) {
          if i == 0 {
            assert r[j] == rest[j - 1] && r[j] in rest;
            var k :| 0 <= k < |s[1..]| && s[1..][k] == r[j];
            assert s[k + 1] == r[j];
          }
        }
      }
    }
  }

  function SortByKey<T>(s: seq<T>, key: T -> string): (r: seq<T>)
    ensures |r| == |s|
    ensures multiset(r) == multiset(s)
    ensures SortedBy(r, key)
  {
    if s == [] then []
    else
      assert s == [s[0]] + s[1..];
      var rest := SortByKey(s[1..], key);
      InsertSorted(s[0], rest, key);
      Insert(s[0], rest, key)
  }

  // ---------------------------------------------------------------------
  // sorted(set(s)) for strings

  predicate StrictlySorted(s: seq<string>)
  {
    forall i, j :: 0 <= i < j < |s| ==> LexLt(s[i], s[j])
  }

  function InsertDistinct(x: string, s: seq<string>): (r: seq<string>)
    ensures forall y :: y in r <==> y in s || y == x
  {
    if s == [] then [x]
    else if x == s[0] then s
    else if LexLe(x, s[0]) then [x] + s
    else [s[0]] + InsertDistinct(x, s[1..])
  }

  lemma {:induction false} InsertDistinctSorted(x: string, s: seq<string>)
    requires StrictlySorted(s)
    ensures StrictlySorted(InsertDistinct(x, s))
  {
    var r := InsertDistinct(x, s);
    if s == [] || x == s[0] {
    } else if LexLe(x, s[0]) {
      forall i, j | 0 <= i < j < |r| ensures LexLt(r[i], r[j]) {
        if i == 0 && j > 1 { LexLtTransitive(x, s[0], s[j - 1]); }
      }
    } else {
      LexLeTotal(x, s[0]);
      var rest := InsertDistinct(x, s[1..]);
      InsertDistinctSorted(x, s[1..]);
      forall y | y in rest ensures LexLt(s[0], y) {
        if y != x {
          var k :| 0 <= k < |s[1..]| && s[1..][k] == y;
          assert s[k + 1] == y;
        }
      }
      forall i, j | 0 <= i < j < |r| ensures LexLt(r[i], r[j]) {
        if i == 0 { assert r[j] == rest[j - 1]; assert r[j] in rest; }
      }
    }
  }

  lemma LexLtTransitive(a: string, b: string, c: string)
    requires LexLt(a, b) && LexLt(b, c)
    ensures LexLt(a, c)
  {
    LexLeTransitive(a, b, c);
    if a == c { LexLeAntisymmetric(a, b); }
  }

  /** The distinct strings of `s`, in increasing order. */
  function SortedDistinct(s: seq<string>): (r: seq<string>)
    ensures StrictlySorted(r)
    ensures forall y :: y in r <==> y in s
  {
    if s == [] then []
    else
      var rest := SortedDistinct(s[1..]);
      assert forall y :: y in s <==> y == s[0] || y in s[1..];
      InsertDistinctSorted(s[0], rest);
      InsertDistinct(s[0], rest)
  }
}
