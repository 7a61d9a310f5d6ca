/** Python semantics that the modelled code relies on: optional values and
    results, `s[:n]` slicing (negative `n` included), ASCII `str.lower`,
    the `in` substring test, `str.startswith`, `str.join`, `str.replace`,
    `str.strip` and `str(int)`. */
module Py {

  datatype Option<+T> = None | Some(value: T) {
    function GetOr(default: T): T {
      match this
      case Some(v) => v
      case None => default
    }
  }

  /** A value, or the exception the Python code would raise instead. */
  datatype Result<+T, +E> = Success(value: T) | Failure(error: E) {
    predicate IsFailure() {
      Failure?
    }

    function PropagateFailure<U>(): Result<U, E>
      requires Failure?
    {
      Failure(error)
    }

    function Extract(): T
      requires Success?
    {
      value
    }
  }

  function Min(a: int, b: int): int {
    if a <= b then a else b
  }

  function Max(a: int, b: int): int {
    if a <= b then b else a
  }

  /** `s[:n]`: a negative `n` counts from the end, as in Python. */
  function Prefix<T>(s: seq<T>, n: int): (r: seq<T>)
    ensures |r| <= |s| && r == s[..|r|]
    ensures 0 <= n ==> |r| == Min(n, |s|)
    ensures n < 0 ==> |r| == Max(|s| + n, 0)
  {
    if 0 <= n then (if n <= |s| then s[..n] else s)
    else if 0 <= |s| + n then s[..|s| + n]
    else []
  }

  /** Number of occurrences of `x` in `xs` (`list.count`). */
  function Count<T(==)>(xs: seq<T>, x: T): (n: nat)
    ensures n <= |xs|
    ensures n == 0 <==> x !in xs
  {
    if xs == [] then 0 else (if xs[0] == x then 1 else 0) + Count(xs[1..], x)
  }

  lemma CountAppend<T>(xs: seq<T>, ys: seq<T>, x: T)
    ensures Count(xs + ys, x) == Count(xs, x) + Count(ys, x)
  {
    if xs != [] {
      assert (xs + ys)[0] == xs[0] && (xs + ys)[1..] == xs[1..] + ys;
      CountAppend(xs[1..], ys, x);
    } else {
      assert xs + ys == ys;
    }
  }

  // ---------------------------------------------------------------------
  // Characters and case

  predicate IsUpper(c: char) {
    'A' <= c <= 'Z'
  }

  /** `str.lower` on one character, restricted to ASCII letters. */
  function Lower(c: char): (d: char)
    ensures !IsUpper(d)
    ensures !IsUpper(c) ==> d == c
  {
    if IsUpper(c) then (c as int + 32) as char else c
  }

  function LowerStr(s: string): (r: string)
    ensures |r| == |s|
    ensures forall i :: 0 <= i < |s| ==> r[i] == Lower(s[i])
  {
    seq(|s|, i requires 0 <= i < |s| => Lower(s[i]))
  }

  predicate IsLowerStr(s: string) {
    forall i :: 0 <= i < |s| ==> !IsUpper(s[i])
  }

  lemma LowerStrIsLower(s: string)
    ensures IsLowerStr(LowerStr(s))
    ensures IsLowerStr(s) ==> LowerStr(s) == s
  {
  }

  lemma LowerStrConcat(a: string, b: string)
    ensures LowerStr(a + b) == LowerStr(a) + LowerStr(b)
  {
  }

  // ---------------------------------------------------------------------
  // Substrings

  predicate StartsWith<T(==)>(s: seq<T>, p: seq<T>) {
    |p| <= |s| && s[..|p|] == p
  }

  /** `head + tail` starts with `p` when `head` does, and not when `p`
      starts with a different element than `head`. */
  lemma StartsWithHead<T>(head: seq<T>, tail: seq<T>, p: seq<T>)
    requires head != [] && p != []
    ensures StartsWith(head + tail, head)
    ensures StartsWith(head, p) ==> StartsWith(head + tail, p)
    ensures p[0] != head[0] ==> !StartsWith(head + tail, p)
  {
    assert (head + tail)[..|head|] == head;
    if StartsWith(head, p) {
      assert (head + tail)[..|p|] == head[..|p|];
    }
    assert (head + tail)[0] == head[0];
  }

  /** Python's `sub in s` for strings. */
  predicate Contains<T(==)>(s: seq<T>, sub: seq<T>)
    decreases |s|
  {
    StartsWith(s, sub) || (|s| > 0 && Contains(s[1..], sub))
  }

  lemma {:induction false} ContainsAt<T>(s: seq<T>, sub: seq<T>, i: nat)
    requires i + |sub| <= |s| && s[i..i + |sub|] == sub
    ensures Contains(s, sub)
  {
    if i > 0 {
      assert s[1..][i - 1..i - 1 + |sub|] == s[i..i + |sub|];
      ContainsAt(s[1..], sub, i - 1);
    }
  }

  lemma {:induction false} ContainsWitness<T>(s: seq<T>, sub: seq<T>) returns (i: nat)
    requires Contains(s, sub)
    ensures i + |sub| <= |s| && s[i..i + |sub|] == sub
    decreases |s|
  {
    if StartsWith(s, sub) {
      i := 0;
    } else {
      var j := ContainsWitness(s[1..], sub);
      i := j + 1;
      assert s[i..i + |sub|] == s[1..][j..j + |sub|];
    }
  }

  /** The text placed between two others is found in their concatenation. */
  lemma ContainsMiddle<T>(a: seq<T>, b: seq<T>, c: seq<T>)
    ensures Contains(a + b + c, b)
  {
    assert (a + b + c)[|a|..|a| + |b|] == b;
    ContainsAt(a + b + c, b, |a|);
  }

  lemma ContainsInLonger<T>(s: seq<T>, sub: seq<T>, pre: seq<T>, post: seq<T>)
    requires Contains(s, sub)
    ensures Contains(pre + s + post, sub)
  {
    var i := ContainsWitness(s, sub);
    assert (pre + s + post)[|pre| + i..|pre| + i + |sub|] == s[i..i + |sub|];
    ContainsAt(pre + s + post, sub, |pre| + i);
  }

  lemma ContainsInLower(s: string, sub: string)
    requires Contains(s, sub) && IsLowerStr(sub)
    ensures Contains(LowerStr(s), sub)
  {
    var i := ContainsWitness(s, sub);
    assert LowerStr(s)[i..i + |sub|] == LowerStr(sub) == sub;
    ContainsAt(LowerStr(s), sub, i);
  }

  /** What `s` contains, its lowercasing contains lowercased. */
  lemma ContainsLowered(s: string, sub: string)
    requires Contains(s, sub)
    ensures Contains(LowerStr(s), LowerStr(sub))
  {
    var i := ContainsWitness(s, sub);
    assert LowerStr(s)[i..i + |sub|] == LowerStr(sub);
    ContainsAt(LowerStr(s), LowerStr(sub), i);
  }

  // ---------------------------------------------------------------------
  // Joining, replacing and stripping

  /** `sep.join(parts)` */
  function Join(parts: seq<string>, sep: string): string {
    if parts == [] then ""
    else if |parts| == 1 then parts[0]
    else parts[0] + sep + Join(parts[1..], sep)
  }

  /** `s.replace(pat, rep)`: left to right, non-overlapping. */
  function ReplaceAll<T(==)>(s: seq<T>, pat: seq<T>, rep: seq<T>): seq<T>
    requires pat != []
    decreases |s|
  {
    if StartsWith(s, pat) then rep + ReplaceAll(s[|pat|..], pat, rep)
    else if s == [] then []
    else [s[0]] + ReplaceAll(s[1..], pat, rep)
  }

  /** The characters Python's `str.isspace` accepts. */
  const Whitespace: set<char> := {
    ' ', '\t', '\n', '\r', '\U{B}', '\U{C}', '\U{1C}', '\U{1D}',
    '\U{1E}', '\U{1F}', '\U{85}', '\U{A0}', '\U{1680}', '\U{2000}', '\U{2001}', '\U{2002}',
    '\U{2003}', '\U{2004}', '\U{2005}', '\U{2006}', '\U{2007}', '\U{2008}', '\U{2009}', '\U{200A}',
    '\U{2028}', '\U{2029}', '\U{202F}', '\U{205F}', '\U{3000}'
  }

  function LStrip(s: string, cs: set<char>): (r: string)
    ensures |r| <= |s| && r == s[|s| - |r|..]
    ensures r == [] || r[0] !in cs
    decreases |s|
  {
    if s != [] && s[0] in cs then LStrip(s[1..], cs) else s
  }

  function RStrip(s: string, cs: set<char>): (r: string)
    ensures |r| <= |s| && r == s[..|r|]
    ensures r == [] || r[|r| - 1] !in cs
    decreases |s|
  {
    if s != [] && s[|s| - 1] in cs then RStrip(s[..|s| - 1], cs) else s
  }

  /** Stripping from the right never cuts into a prefix that ends in a kept character. */
  lemma {:induction false} RStripKeepsPrefix(head: string, tail: string, cs: set<char>)
    requires head != [] && head[|head| - 1] !in cs
    ensures StartsWith(RStrip(head + tail, cs), head)
    decreases |tail|
  {
    var s := head + tail;
    if tail != [] && s[|s| - 1] in cs {
      assert s[..|s| - 1] == head + tail[..|tail| - 1];
      RStripKeepsPrefix(head, tail[..|tail| - 1], cs);
    }
  }

  /** `s.strip(chars)`; `s.strip()` is `Strip(s, Whitespace)`. */
  function Strip(s: string, cs: set<char>): string {
    RStrip(LStrip(s, cs), cs)
  }

  /** A stripped string neither starts nor ends with a stripped character. */
  lemma StripEnds(s: string, cs: set<char>)
    ensures var r := Strip(s, cs); r == [] || (r[0] !in cs && r[|r| - 1] !in cs)
  {
    var l := LStrip(s, cs);
    var r := RStrip(l, cs);
    if r != [] {
      assert r == l[..|r|];
      assert r[0] == l[0];
    }
  }

  /** Stripping a string made of one stripped character, a part that starts
      and ends with kept characters, and anything after it, leaves a string
      that starts with that part. */
  lemma StripKeepsHead(c: char, head: string, tail: string, cs: set<char>)
    requires c in cs
    requires head != [] && head[0] !in cs && head[|head| - 1] !in cs
    ensures StartsWith(Strip([c] + head + tail, cs), head)
  {
    var s := [c] + head + tail;
    assert s[1..] == head + tail;
    assert LStrip(s, cs) == LStrip(head + tail, cs) == head + tail;
    RStripKeepsPrefix(head, tail, cs);
  }

  /** Decimal digits are not whitespace. */
  lemma DigitNotWhitespace(c: char)
    requires '0' <= c <= '9'
    ensures c !in Whitespace
  {
  }

  // ---------------------------------------------------------------------
  // Rendering integers

  function Digit(d: nat): (c: char)
    requires d < 10
    ensures '0' <= c <= '9' && DigitValue(c) == d
  {
    "0123456789"[d]
  }

  /** The value of a decimal digit character. */
  function DigitValue(c: char): nat
    requires '0' <= c <= '9'
  {
    c as int - '0' as int
  }

  /** The number a string of decimal digits spells, as `int(s)` reads it. */
  function DecimalValue(s: string): nat
    requires forall k | 0 <= k < |s| :: '0' <= s[k] <= '9'
  {
    if s == [] then 0 else DecimalValue(s[..|s| - 1]) * 10 + DigitValue(s[|s| - 1])
  }

  /** `str(n)` for a non-negative integer. */
  function NatToString(n: nat): (s: string)
    ensures |s| >= 1
    ensures forall k | 0 <= k < |s| :: '0' <= s[k] <= '9'
    decreases n
  {
    if n < 10 then [Digit(n)] else NatToString(n / 10) + [Digit(n % 10)]
  }

  /** `str(i)` */
  function IntToString(i: int): string {
    if i < 0 then "-" + NatToString(-i) else NatToString(i)
  }
}
