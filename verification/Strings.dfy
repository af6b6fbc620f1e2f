/** Searching, splitting and joining strings, and numerals. */
module Strings {
  import opened Wrappers

  predicate Lacks(s: string, c: char) {
    forall i :: 0 <= i < |s| ==> s[i] != c
  }

  lemma Associates<T>(a: seq<T>, b: seq<T>, c: seq<T>)
    ensures (a + b) + c == a + (b + c)
  {
  }

  /** The index of the first `c`, or the length. */
  function Find(s: string, c: char): (i: nat)
    ensures i <= |s| && (i < |s| ==> s[i] == c) && forall k :: 0 <= k < i ==> s[k] != c
  {
    if s == "" || s[0] == c then 0 else 1 + Find(s[1..], c)
  }

  lemma {:induction false} FindIn(s: string, c: char, i: nat)
    requires i <= |s| && (i < |s| ==> s[i] == c) && forall k :: 0 <= k < i ==> s[k] != c
    ensures Find(s, c) == i
  {
    if i > 0 {
      assert forall k :: 0 <= k < i - 1 ==> s[1..][k] == s[k + 1];
      FindIn(s[1..], c, i - 1);
    }
  }

  function Split(s: string, c: char): (parts: seq<string>)
    ensures parts != []
    decreases |s|
  {
    var i := Find(s, c);
    if i == |s| then [s] else [s[..i]] + Split(s[i + 1..], c)
  }

  function Join(parts: seq<string>, c: char): string {
    if parts == [] then ""
    else if |parts| == 1 then parts[0]
    else parts[0] + ([c] + Join(parts[1..], c))
  }

  lemma FindBefore(a: string, c: char, b: string)
    requires Lacks(a, c)
    ensures Find(a + ([c] + b), c) == |a|
    ensures (a + ([c] + b))[..|a|] == a && (a + ([c] + b))[|a| + 1..] == b
  {
    var s := a + ([c] + b);
    assert forall k :: 0 <= k < |a| ==> s[k] == a[k];
    FindIn(s, c, |a|);
  }

  lemma SplitCons(a: string, c: char, b: string)
    requires Lacks(a, c)
    ensures Split(a + ([c] + b), c) == [a] + Split(b, c)
    ensures Split(a, c) == [a]
  {
    FindBefore(a, c, b);
    FindIn(a, c, |a|);
  }

  lemma {:induction false} SplitJoin(parts: seq<string>, c: char)
    requires parts != [] && forall i :: 0 <= i < |parts| ==> Lacks(parts[i], c)
    ensures Split(Join(parts, c), c) == parts
  {
    if |parts| == 1 {
      SplitCons(parts[0], c, "");
    } else {
      SplitJoin(parts[1..], c);
      SplitCons(parts[0], c, Join(parts[1..], c));
    }
  }

  lemma {:induction false} JoinSplit(s: string, c: char)
    ensures Join(Split(s, c), c) == s
    ensures forall i :: 0 <= i < |Split(s, c)| ==> Lacks(Split(s, c)[i], c)
    decreases |s|
  {
    hide Join, Find, Lacks;
    var i := Find(s, c);
    BeforeFind(s, c);
    AroundIndex(s, c, i);
    if i == |s| {
      JoinAlone(s, c);
    } else {
      JoinSplit(s[i + 1..], c);
      JoinCons(s[..i], Split(s[i + 1..], c), c);
    }
  }

  lemma BeforeFind(s: string, c: char)
    ensures Lacks(s[..Find(s, c)], c)
  {
    hide Find;
    var i := Find(s, c);
    forall k | 0 <= k < i ensures s[..i][k] != c { assert s[..i][k] == s[k]; }
  }

  lemma AroundIndex(s: string, c: char, i: nat)
    requires i <= |s| && (i < |s| ==> s[i] == c)
    ensures if i == |s| then s[..i] == s else s == s[..i] + ([c] + s[i + 1..])
  {
  }

  lemma JoinAlone(s: string, c: char)
    ensures Join([s], c) == s
  {
  }

  lemma JoinCons(a: string, rest: seq<string>, c: char)
    requires rest != []
    ensures Join([a] + rest, c) == a + ([c] + Join(rest, c))
  {
    assert ([a] + rest)[1..] == rest;
  }

  lemma {:induction false} JoinAppend(a: seq<string>, b: seq<string>, c: char)
    requires a != [] && b != []
    ensures Join(a + b, c) == Join(a, c) + ([c] + Join(b, c))
  {
    if |a| == 1 {
      assert (a + b)[1..] == b;
    } else {
      assert (a + b)[1..] == a[1..] + b;
      JoinAppend(a[1..], b, c);
    }
  }

  lemma {:induction false} JoinLacks(parts: seq<string>, c: char, d: char)
    requires c != d && forall i :: 0 <= i < |parts| ==> Lacks(parts[i], d)
    ensures Lacks(Join(parts, c), d)
  {
    if |parts| > 1 { JoinLacks(parts[1..], c, d); }
  }

  // ---------------------------------------------------------------------------
  // The doubled separator

  /** The index of the first doubled `c`, or the length. */
  function FindDouble(s: string, c: char): (i: nat)
    ensures i <= |s| && (i < |s| ==> i + 1 < |s| && s[i] == c && s[i + 1] == c)
  {
    if s == "" then 0
    else if |s| >= 2 && s[0] == c && s[1] == c then 0
    else 1 + FindDouble(s[1..], c)
  }

  function SplitDouble(s: string, c: char): seq<string>
    decreases |s|
  {
    var i := FindDouble(s, c);
    if i == |s| then [s] else [s[..i]] + SplitDouble(s[i + 2..], c)
  }

  /** No two separators meet, and none stands at an end. */
  predicate Tidy(s: string, c: char) {
    && (s != "" ==> s[0] != c && s[|s| - 1] != c)
    && forall i :: 0 <= i < |s| - 1 ==> !(s[i] == c && s[i + 1] == c)
  }

  lemma {:induction false} TidyHasNoDouble(s: string, c: char)
    requires forall i :: 0 <= i < |s| - 1 ==> !(s[i] == c && s[i + 1] == c)
    ensures FindDouble(s, c) == |s|
  {
    if s != "" { TidyHasNoDouble(s[1..], c); }
  }

  lemma {:induction false} DoubleAfter(a: string, c: char, b: string)
    requires (a != "" ==> a[|a| - 1] != c) && forall i :: 0 <= i < |a| - 1 ==> !(a[i] == c && a[i + 1] == c)
    ensures FindDouble(a + ([c, c] + b), c) == |a|
  {
    var s := a + ([c, c] + b);
    if a != "" {
      assert s[1..] == a[1..] + ([c, c] + b);
      DoubleAfter(a[1..], c, b);
    }
  }

  lemma SplitDoubleNone(s: string, c: char)
    requires Tidy(s, c)
    ensures SplitDouble(s, c) == [s]
  {
    TidyHasNoDouble(s, c);
  }

  lemma SplitDoubleAt(s: string, c: char, a: string, b: string)
    requires FindDouble(s, c) == |a| < |s|
    requires s[..|a|] == a && s[|a| + 2..] == b
    ensures SplitDouble(s, c) == [a] + SplitDouble(b, c)
  {
    hide FindDouble;
  }

  lemma SplitDoubleOnce(a: string, c: char, b: string)
    requires Tidy(a, c) && Tidy(b, c)
    ensures SplitDouble(a + ([c, c] + b), c) == [a, b]
  {
    hide FindDouble, SplitDouble;
    DoubleAfter(a, c, b);
    SplitDoubleNone(b, c);
    SplitDoubleAt(a + ([c, c] + b), c, a, b);
  }

  lemma {:induction false} JoinTidy(parts: seq<string>, c: char)
    requires forall i :: 0 <= i < |parts| ==> parts[i] != "" && Lacks(parts[i], c)
    ensures Tidy(Join(parts, c), c) && (parts != [] ==> Join(parts, c) != "")
  {
    if |parts| > 1 {
      JoinTidy(parts[1..], c);
      TidyAppend(parts[0], c, Join(parts[1..], c));
    }
  }

  lemma TidyAppend(a: string, c: char, b: string)
    requires a != "" && Lacks(a, c) && b != "" && Tidy(b, c)
    ensures Tidy(a + ([c] + b), c)
  {
    var s := a + ([c] + b);
    forall i | 0 <= i < |s| - 1 ensures !(s[i] == c && s[i + 1] == c) {
      if i > |a| { assert s[i] == b[i - |a| - 1] && s[i + 1] == b[i - |a|]; }
    }
  }

  // ---------------------------------------------------------------------------
  // Numerals in base ten and sixteen

  predicate IsDigit(c: char, base: nat) {
    '0' <= c <= '9' || (base == 16 && 'a' <= c <= 'f')
  }

  function Digit(c: char): nat {
    if '0' <= c <= '9' then (c - '0') as nat else if 'a' <= c <= 'f' then 10 + (c - 'a') as nat else 0
  }

  function DigitChar(d: nat): (c: char)
    requires d < 16
    ensures IsDigit(c, 16) && Digit(c) == d && (d < 10 ==> IsDigit(c, 10))
  {
    if d < 10 then '0' + d as char else 'a' + (d - 10) as char
  }

  predicate IsNumeral(s: string, base: nat, most: nat) {
    1 <= |s| <= most && forall i :: 0 <= i < |s| ==> IsDigit(s[i], base)
  }

  function Value(s: string, base: nat): nat {
    if s == "" then 0 else Value(s[..|s| - 1], base) * base + Digit(s[|s| - 1])
  }

  /** The shortest numeral. */
  function Numeral(n: nat, base: nat): string
    requires base == 10 || base == 16
  {
    if n < base then [DigitChar(n)] else Numeral(n / base, base) + [DigitChar(n % base)]
  }

  function Power(b: nat, e: nat): (p: nat)
    ensures b > 0 ==> p > 0
  {
    if e == 0 then 1 else b * Power(b, e - 1)
  }

  lemma ValueAppend(s: string, c: char, base: nat)
    ensures Value(s + [c], base) == Value(s, base) * base + Digit(c)
  {
    assert (s + [c])[..|s|] == s;
  }

  lemma {:induction false} NumeralExact(n: nat, base: nat, most: nat)
    requires base == 10 || base == 16
    requires most > 0 && n < Power(base, most)
    ensures IsNumeral(Numeral(n, base), base, most) && Value(Numeral(n, base), base) == n
    decreases most
  {
    if n >= base {
      DivideBound(n, base, Power(base, most - 1));
      NumeralExact(n / base, base, most - 1);
      ValueAppend(Numeral(n / base, base), DigitChar(n % base), base);
    } else {
      ValueAppend("", DigitChar(n), base);
      assert "" + [DigitChar(n)] == [DigitChar(n)];
    }
  }

  lemma DivideBound(n: nat, b: nat, k: nat)
    requires b > 0 && n < b * k
    ensures n / b < k && n == (n / b) * b + n % b
  {
    assert n == b * (n / b) + n % b;
    if n / b >= k { MultiplyOrder(b, k, n / b); }
  }

  lemma MultiplyOrder(b: nat, k: nat, q: nat)
    requires k <= q
    ensures b * k <= b * q
  {
  }

  lemma HornerBound(v: nat, p: nat, d: nat, base: nat)
    requires v < p && d < base
    ensures v * base + d < base * p
  {
    MultiplyOrder(base, v + 1, p);
    assert base * (v + 1) == v * base + base;
  }

  lemma {:induction false} ValueBound(s: string, base: nat)
    requires base >= 1 && forall i :: 0 <= i < |s| ==> Digit(s[i]) < base
    ensures Value(s, base) < Power(base, |s|)
  {
    if s != "" {
      var n := |s| - 1;
      ValueBound(s[..n], base);
      HornerBound(Value(s[..n], base), Power(base, n), Digit(s[n]), base);
    }
  }
}
