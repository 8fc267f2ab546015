/** Strings as the generator builds them: joins, decimal numbers, infixes. */
module Text {

  predicate IsDigit(c: char) {
    '0' <= c <= '9'
  }

  predicate AllDigits(s: string) {
    forall i :: 0 <= i < |s| ==> IsDigit(s[i])
  }

  function DigitChar(d: nat): (c: char)
    requires d < 10
    ensures IsDigit(c) && c as int - '0' as int == d
  {
    ('0' as int + d) as char
  }

  /** Decimal rendering of a number, as `print(int)` and string concatenation write it. */
  function NatToString(n: nat): (s: string)
    ensures |s| > 0 && AllDigits(s)
    decreases n
  {
    if n < 10 then [DigitChar(n)] else NatToString(n / 10) + [DigitChar(n % 10)]
  }

  /** Reading a decimal number back: the partner of NatToString. */
  function ParseNat(s: string): nat
    requires AllDigits(s)
  {
    if s == [] then 0 else 10 * ParseNat(s[..|s| - 1]) + (s[|s| - 1] as int - '0' as int)
  }

  lemma {:induction false} ParseNatToString(n: nat)
    ensures ParseNat(NatToString(n)) == n
  {
    if n >= 10 {
      var s := NatToString(n);
      assert s[..|s| - 1] == NatToString(n / 10);
      ParseNatToString(n / 10);
    }
  }

  lemma NatToStringInjective(i: nat, j: nat)
    requires NatToString(i) == NatToString(j)
    ensures i == j
  {
    ParseNatToString(i);
    ParseNatToString(j);
  }

  /** `xs` joined with `sep` between neighbours, as `Collectors.joining(sep)` does. */
  function Join(sep: string, xs: seq<string>): string {
    if |xs| == 0 then ""
    else if |xs| == 1 then xs[0]
    else Join(sep, xs[..|xs| - 1]) + sep + xs[|xs| - 1]
  }

  /** `xs` written one after the other. */
  function Concat(xs: seq<string>): string {
    if xs == [] then "" else Concat(xs[..|xs| - 1]) + xs[|xs| - 1]
  }

  predicate EndsWith(s: string, t: string) {
    |t| <= |s| && s[|s| - |t|..] == t
  }

  lemma EndsWithAppend(s: string, t: string)
    ensures EndsWith(s + t, t)
  {
    assert (s + t)[|s|..] == t;
  }

  /** `t` occurs somewhere in `s`, as a contiguous run. */
  predicate Contains<T(==)>(s: seq<T>, t: seq<T>)
    decreases |s|
  {
    t <= s || (|s| > 0 && Contains(s[1..], t))
  }

  lemma {:induction false} ContainsPrefix<T>(s: seq<T>, t: seq<T>, b: seq<T>)
    requires Contains(s, t)
    ensures Contains(s + b, t)
    decreases |s|
  {
    if t <= s {
      assert t <= s + b;
    } else {
      assert (s + b)[1..] == s[1..] + b;
      ContainsPrefix(s[1..], t, b);
    }
  }

  lemma {:induction false} ContainsSuffix<T>(a: seq<T>, s: seq<T>, t: seq<T>)
    requires Contains(s, t)
    ensures Contains(a + s, t)
    decreases |a|
  {
    if a != [] {
      assert (a + s)[1..] == a[1..] + s;
      ContainsSuffix(a[1..], s, t);
    } else {
      assert a + s == s;
    }
  }

  /** Whatever surrounds an occurrence keeps it an occurrence. */
  lemma ContainsWithin<T>(a: seq<T>, s: seq<T>, b: seq<T>, t: seq<T>)
    requires Contains(s, t)
    ensures Contains(a + s + b, t)
  {
    ContainsSuffix(a, s, t);
    ContainsPrefix(a + s, t, b);
  }

  lemma ContainsInfix<T>(a: seq<T>, t: seq<T>, b: seq<T>)
    ensures Contains(a + t + b, t)
  {
    assert t <= t;
    ContainsWithin(a, t, b, t);
  }

  lemma {:induction false} ContainsMember<T>(s: seq<T>, t: seq<T>, x: T)
    requires Contains(s, t) && x in t
    ensures x in s
    decreases |s|
  {
    if t <= s {
      assert x in s[..|t|];
    } else {
      ContainsMember(s[1..], t, x);
    }
  }

  lemma {:induction false} ContainsTransitive<T>(s: seq<T>, t: seq<T>, u: seq<T>)
    requires Contains(s, t) && Contains(t, u)
    ensures Contains(s, u)
    decreases |s|
  {
    if t <= s {
      ContainsWithinPrefix(s, t, u);
    } else {
      ContainsTransitive(s[1..], t, u);
    }
  }

  lemma {:induction false} ContainsWithinPrefix<T>(s: seq<T>, t: seq<T>, u: seq<T>)
    requires t <= s && Contains(t, u)
    ensures Contains(s, u)
    decreases |t|
  {
    if !(u <= t) {
      ContainsWithinPrefix(s[1..], t[1..], u);
    }
  }

  /** `s` cut at every occurrence of `c`: the partner of joining with `c`. */
  function Split(s: string, c: char): (r: seq<string>)
    ensures |r| > 0
  {
    if s == [] then [[]]
    else
      var p := Split(s[..|s| - 1], c);
      if s[|s| - 1] == c then p + [[]] else p[..|p| - 1] + [p[|p| - 1] + [s[|s| - 1]]]
  }

  /** Text without the separator extends the last piece. */
  lemma {:induction false} SplitNoSep(a: string, b: string, c: char)
    requires c !in b
    ensures var p := Split(a, c); Split(a + b, c) == p[..|p| - 1] + [p[|p| - 1] + b]
    decreases |b|
  {
    var p := Split(a, c);
    if b == [] {
      assert a + b == a;
      assert p[|p| - 1] + b == p[|p| - 1];
      assert p[..|p| - 1] + [p[|p| - 1]] == p;
    } else {
      var b', x := b[..|b| - 1], b[|b| - 1];
      assert b == b' + [x];
      assert (a + b)[..|a + b| - 1] == a + b';
      SplitNoSep(a, b', c);
      assert p[|p| - 1] + b' + [x] == p[|p| - 1] + b;
    }
  }

  /** Splitting undoes joining, as long as no piece holds the separator. */
  lemma {:induction false} SplitJoin(xs: seq<string>, c: char)
    requires |xs| > 0
    requires forall i :: 0 <= i < |xs| ==> c !in xs[i]
    ensures Split(Join([c], xs), c) == xs
    decreases |xs|
  {
    var n := |xs|;
    if n == 1 {
      SplitNoSep([], xs[0], c);
      assert [] + xs[0] == xs[0];
    } else {
      var front, last := xs[..n - 1], xs[n - 1];
      var init := Join([c], front);
      assert Join([c], xs) == init + [c] + last;
      SplitJoin(front, c);
      assert (init + [c])[..|init + [c]| - 1] == init;
      var p := Split(init + [c], c);
      assert p == front + [[]];
      assert p[..|p| - 1] == front && p[|p| - 1] + last == last;
      SplitNoSep(init + [c], last, c);
      assert front + [last] == xs;
    }
  }

  /** The digits at the end of `s`. */
  function TrailingDigits(s: string): (r: string)
    ensures AllDigits(r) && |r| <= |s|
  {
    if s == [] || !IsDigit(s[|s| - 1]) then [] else TrailingDigits(s[..|s| - 1]) + [s[|s| - 1]]
  }

  /** A number written after a non-digit is read back from the end. */
  lemma {:induction false} TrailingDigitsAfter(p: string, a: string)
    requires |p| > 0 && !IsDigit(p[|p| - 1]) && AllDigits(a)
    ensures TrailingDigits(p + a) == a
    decreases |a|
  {
    if a == [] {
      assert p + a == p;
    } else {
      var a' := a[..|a| - 1];
      assert (p + a)[..|p + a| - 1] == p + a';
      TrailingDigitsAfter(p, a');
      assert a' + [a[|a| - 1]] == a;
    }
  }
}
