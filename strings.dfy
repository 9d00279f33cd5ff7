/** The parts of Python's `str` the catalog relies on: ordering (`<`, `<=`),
    ASCII case-insensitive comparison, `str.zfill`, decimal digits and
    `str(int)`. */
module Strings {

  predicate IsDigit(c: char) { '0' <= c <= '9' }

  predicate AllDigits(s: string) { forall i :: 0 <= i < |s| ==> IsDigit(s[i]) }

  function DigitValue(c: char): (n: nat)
    requires IsDigit(c)
    ensures n <= 9
  {
    (c - '0') as nat
  }

  function DigitChar(n: nat): (c: char)
    requires n <= 9
    ensures IsDigit(c) && DigitValue(c) == n
  {
    ('0' as int + n) as char
  }

  /** The number a string of decimal digits denotes (leading zeros allowed). */
  function DigitsValue(s: string): nat
    requires AllDigits(s)
  {
    if s == [] then 0 else 10 * DigitsValue(s[..|s| - 1]) + DigitValue(s[|s| - 1])
  }

  function Zeros(n: nat): (z: string)
    ensures |z| == n && AllDigits(z)
    ensures forall i :: 0 <= i < n ==> z[i] == '0'
  {
    if n == 0 then [] else Zeros(n - 1) + ['0']
  }

  /** `s.zfill(width)` for a string without a sign. */
  function ZFill(s: string, width: nat): (r: string)
    ensures |r| == if |s| >= width then |s| else width
    ensures AllDigits(s) ==> AllDigits(r)
  {
    if |s| >= width then s else Zeros(width - |s|) + s
  }

  /** `str(n)` for a natural number. */
  function NatToString(n: nat): (s: string)
    ensures s != [] && AllDigits(s)
    decreases n
  {
    if n < 10 then [DigitChar(n)] else NatToString(n / 10) + [DigitChar(n % 10)]
  }

  /** `str(i)` for an `int`. */
  function IntToString(i: int): string
  {
    if i < 0 then "-" + NatToString(-i) else NatToString(i)
  }

  // ---------------------------------------------------------------------
  // Python's ordering of str: by code point, a proper prefix is smaller.

  predicate LexLe(a: string, b: string)
  {
    a == [] || (b != [] && (a[0] < b[0] || (a[0] == b[0] && LexLe(a[1..], b[1..]))))
  }

  predicate LexLt(a: string, b: string) { LexLe(a, b) && a != b }

  lemma {:induction false} LexLeReflexive(a: string)
    ensures LexLe(a, a)
  {
    if a != [] { LexLeReflexive(a[1..]); }
  }

  lemma {:induction false} LexLeTotal(a: string, b: string)
    ensures LexLe(a, b) || LexLe(b, a)
  {
    if a != [] && b != [] && a[0] == b[0] { LexLeTotal(a[1..], b[1..]); }
  }

  lemma {:induction false} LexLeAntisymmetric(a: string, b: string)
    requires LexLe(a, b) && LexLe(b, a)
    ensures a == b
  {
    if a != [] && b != [] {
      LexLeAntisymmetric(a[1..], b[1..]);
      assert a == [a[0]] + a[1..] && b == [b[0]] + b[1..];
    }
  }

  lemma {:induction false} LexLeTransitive(a: string, b: string, c: string)
    requires LexLe(a, b) && LexLe(b, c)
    ensures LexLe(a, c)
  {
    if a != [] && b != [] && c != [] && a[0] == b[0] == c[0] {
      LexLeTransitive(a[1..], b[1..], c[1..]);
    }
  }

  /** Python's `a > b` is the negation of `a <= b`. */
  lemma GreaterIsNotLessOrEqual(a: string, b: string)
    ensures LexLt(b, a) <==> !LexLe(a, b)
  {
    LexLeTotal(a, b);
    if LexLe(a, b) && LexLe(b, a) { LexLeAntisymmetric(a, b); }
    if !LexLe(a, b) && b == a { LexLeReflexive(a); }
  }

  /** Comparing two strings of equal length extended by one character each. */
  lemma {:induction false} LexLeSnoc(p: string, q: string, x: char, y: char)
    requires |p| == |q|
    ensures LexLe(p + [x], q + [y]) <==> LexLt(p, q) || (p == q && x <= y)
  {
    if p == [] {
      assert p == q;
      assert (p + [x])[1..] == [] && (q + [y])[1..] == [];
    } else {
      assert (p + [x])[0] == p[0] && (q + [y])[0] == q[0];
      assert (p + [x])[1..] == p[1..] + [x] && (q + [y])[1..] == q[1..] + [y];
      LexLeSnoc(p[1..], q[1..], x, y);
      assert p == [p[0]] + p[1..] && q == [q[0]] + q[1..];
    }
  }

  lemma {:induction false} DigitsValueInjective(a: string, b: string)
    requires AllDigits(a) && AllDigits(b) && |a| == |b|
    requires DigitsValue(a) == DigitsValue(b)
    ensures a == b
  {
    if a != [] {
      var n := |a|;
      DigitsValueInjective(a[..n - 1], b[..n - 1]);
      assert a == a[..n - 1] + [a[n - 1]] && b == b[..n - 1] + [b[n - 1]];
    }
  }

  /** For digit strings of one length, the order of str is the order of their numbers. */
  lemma {:induction false} DigitsOrder(a: string, b: string)
    requires AllDigits(a) && AllDigits(b) && |a| == |b|
    ensures LexLe(a, b) <==> DigitsValue(a) <= DigitsValue(b)
  {
    if a != [] {
      var n := |a|;
      var p, q := a[..n - 1], b[..n - 1];
      assert a == p + [a[n - 1]] && b == q + [b[n - 1]];
      LexLeSnoc(p, q, a[n - 1], b[n - 1]);
      DigitsOrder(p, q);
      if p != q && DigitsValue(p) == DigitsValue(q) { DigitsValueInjective(p, q); }
    }
  }

  lemma {:induction false} ZerosValue(n: nat)
    ensures DigitsValue(Zeros(n)) == 0
  {
    if n > 0 {
      ZerosValue(n - 1);
      assert Zeros(n)[..n - 1] == Zeros(n - 1);
    }
  }

  /** Leading zeros do not change the number. */
  lemma {:induction false} LeadingZerosValue(n: nat, s: string)
    requires AllDigits(s)
    ensures AllDigits(Zeros(n) + s) && DigitsValue(Zeros(n) + s) == DigitsValue(s)
  {
    var z := Zeros(n) + s;
    if s == [] {
      assert z == Zeros(n);
      ZerosValue(n);
    } else {
      var m := |s|;
      LeadingZerosValue(n, s[..m - 1]);
      assert z[..|z| - 1] == Zeros(n) + s[..m - 1];
      assert z[|z| - 1] == s[m - 1];
    }
  }

  lemma ZFillValue(s: string, width: nat)
    requires AllDigits(s)
    ensures DigitsValue(ZFill(s, width)) == DigitsValue(s)
  {
    if |s| < width { LeadingZerosValue(width - |s|, s); }
  }

  // ---------------------------------------------------------------------
  // Case-insensitive comparison (ASCII letters only).

  function Lower(c: char): char
  {
    if 'A' <= c <= 'Z' then (c as int - 'A' as int + 'a' as int) as char else c
  }

  function LowerString(s: string): (r: string)
    ensures |r| == |s| && forall i :: 0 <= i < |s| ==> r[i] == Lower(s[i])
  {
    if s == [] then [] else [Lower(s[0])] + LowerString(s[1..])
  }

  /** `re.fullmatch(pattern, text, re.I)` for a literal pattern. */
  predicate EqualsIgnoreCase(text: string, pattern: string)
  {
    LowerString(text) == LowerString(pattern)
  }

  predicate OccursAt(t: string, p: string, i: int)
  {
    0 <= i <= |t| - |p| && t[i..i + |p|] == p
  }

  /** `re.search(pattern, text, re.I)` for a literal pattern. */
  predicate ContainsIgnoreCase(text: string, pattern: string)
  {
    exists i | 0 <= i <= |text| :: OccursAt(LowerString(text), LowerString(pattern), i)
  }

  lemma EqualsIgnoreCaseImpliesContains(text: string, pattern: string)
    requires EqualsIgnoreCase(text, pattern)
    ensures ContainsIgnoreCase(text, pattern)
  {
    var t := LowerString(text);
    assert t[0..|t|] == t;
    assert OccursAt(t, LowerString(pattern), 0);
  }
}
