/** `Counter(xs).most_common(n)`, as calculate_pmf uses it to rank benefits
    and concerns: the distinct values of `xs`, most frequent first, ties kept
    in the order of first appearance, at most `n` of them. */
module Ranking {
  import opened Py

  predicate NoDuplicates(s: seq<string>) {
    forall i, j | 0 <= i < j < |s| :: s[i] != s[j]
  }

  /** Index of the first occurrence of `x` in `xs`. */
  function FirstIndex(xs: seq<string>, x: string): (i: nat)
    requires x in xs
    ensures i < |xs| && xs[i] == x
    ensures forall k | 0 <= k < i :: xs[k] != x
  {
    if xs[0] == x then 0 else 1 + FirstIndex(xs[1..], x)
  }

  /** The distinct values of `xs` in order of first appearance (Counter's key order). */
  function Distinct(xs: seq<string>): (d: seq<string>)
    ensures forall x | x in d :: x in xs
    ensures forall x | x in xs :: x in d
    ensures NoDuplicates(d)
  {
    if xs == [] then []
    else
      var d := Distinct(xs[..|xs| - 1]);
      assert xs == xs[..|xs| - 1] + [xs[|xs| - 1]];
      if xs[|xs| - 1] in d then d else d + [xs[|xs| - 1]]
  }

  /** The order `most_common` ranks by, given each value's frequency and the
      position of its first appearance: higher frequency first, then earlier
      appearance. */
  predicate Ahead(freq: string -> int, first: string -> int, a: string, b: string) {
    freq(a) > freq(b) || (freq(a) == freq(b) && first(a) < first(b))
  }

  /** Distinct values of `univ` first appear at distinct positions. */
  predicate Injective(univ: seq<string>, first: string -> int) {
    forall a, b | a in univ && b in univ && a != b :: first(a) != first(b)
  }

  /** The candidate ahead of every other one. */
  function Best(univ: seq<string>, freq: string -> int, first: string -> int, cands: seq<string>): (b: string)
    requires Injective(univ, first)
    requires cands != [] && forall c | c in cands :: c in univ
    ensures b in cands
    ensures forall c | c in cands && c != b :: Ahead(freq, first, b, c)
  {
    if |cands| == 1 then cands[0]
    else
      var rest := Best(univ, freq, first, cands[1..]);
      var c := cands[0];
      assert forall d | d in cands :: d == c || d in cands[1..];
      if c != rest && Ahead(freq, first, c, rest) then c
      else
        assert c != rest ==> first(c) != first(rest);
        rest
  }

  /** `cands` without `x` */
  function Remove(cands: seq<string>, x: string): (r: seq<string>)
    ensures forall c | c in r :: c in cands && c != x
    ensures forall c | c in cands && c != x :: c in r
    ensures NoDuplicates(cands) && x in cands ==> |r| == |cands| - 1
    ensures NoDuplicates(cands) ==> NoDuplicates(r)
    ensures x !in cands ==> r == cands
  {
    if cands == [] then []
    else
      var r := Remove(cands[1..], x);
      assert NoDuplicates(cands) ==> NoDuplicates(cands[1..]) && cands[0] !in cands[1..];
      if cands[0] == x then r
      else
        assert NoDuplicates(cands) ==> cands[0] !in r;
        [cands[0]] + r
  }

  /** The first `n` candidates in Ahead order: picks the best one, then
      ranks the rest. */
  function TopK(univ: seq<string>, freq: string -> int, first: string -> int, cands: seq<string>, n: int): (r: seq<string>)
    requires Injective(univ, first)
    requires NoDuplicates(cands) && forall c | c in cands :: c in univ
    ensures 0 <= n ==> |r| == Min(n, |cands|)
    ensures n < 0 ==> r == []
    ensures forall x | x in r :: x in cands
    ensures NoDuplicates(r)
    decreases |cands|
  {
    if n <= 0 || cands == [] then []
    else
      var b := Best(univ, freq, first, cands);
      var tail := TopK(univ, freq, first, Remove(cands, b), n - 1);
      [b] + tail
  }

  /** Each value in `r` is ahead of every later one. */
  predicate SortedAhead(freq: string -> int, first: string -> int, r: seq<string>) {
    forall i, j | 0 <= i < j < |r| :: Ahead(freq, first, r[i], r[j])
  }

  /** Each value in `r` is ahead of every candidate that `r` leaves out. */
  predicate AheadOfRest(freq: string -> int, first: string -> int, r: seq<string>, cands: seq<string>) {
    forall x, c | x in r && c in cands && c !in r :: Ahead(freq, first, x, c)
  }

  lemma SortedAheadCons(freq: string -> int, first: string -> int, b: string, tail: seq<string>)
    requires SortedAhead(freq, first, tail)
    requires forall y | y in tail :: Ahead(freq, first, b, y)
    ensures SortedAhead(freq, first, [b] + tail)
  {
    var r := [b] + tail;
    forall i, j | 0 <= i < j < |r| ensures Ahead(freq, first, r[i], r[j]) {
      assert r[j] == tail[j - 1];
      if i > 0 {
        assert r[i] == tail[i - 1];
      }
    }
  }

  lemma AheadOfRestCons(freq: string -> int, first: string -> int, b: string, tail: seq<string>, rest: seq<string>, cands: seq<string>)
    requires AheadOfRest(freq, first, tail, rest)
    requires forall c | c in cands && c != b :: Ahead(freq, first, b, c)
    requires forall c | c in cands && c != b :: c in rest
    ensures AheadOfRest(freq, first, [b] + tail, cands)
  {
  }

  /** Each pick is ahead of every later one. */
  lemma {:induction false} TopKSorted(univ: seq<string>, freq: string -> int, first: string -> int, cands: seq<string>, n: int)
    requires Injective(univ, first)
    requires NoDuplicates(cands) && forall c | c in cands :: c in univ
    ensures SortedAhead(freq, first, TopK(univ, freq, first, cands, n))
    decreases |cands|
  {
    if n > 0 && cands != [] {
      var b := Best(univ, freq, first, cands);
      TopKSorted(univ, freq, first, Remove(cands, b), n - 1);
      TopKSortedStep(univ, freq, first, cands, n);
    }
  }

  /** The inductive step of TopKSorted: the best candidate is ahead of
      every later pick, since each of those is another candidate. */
  lemma TopKSortedStep(univ: seq<string>, freq: string -> int, first: string -> int, cands: seq<string>, n: int)
    requires Injective(univ, first)
    requires NoDuplicates(cands) && forall c | c in cands :: c in univ
    requires n > 0 && cands != []
    requires var b := Best(univ, freq, first, cands);
      SortedAhead(freq, first, TopK(univ, freq, first, Remove(cands, b), n - 1))
    ensures var b := Best(univ, freq, first, cands);
      SortedAhead(freq, first, [b] + TopK(univ, freq, first, Remove(cands, b), n - 1))
  {
    var b := Best(univ, freq, first, cands);
    var rest := Remove(cands, b);
    var tail := TopK(univ, freq, first, rest, n - 1);
    assert forall y | y in tail :: y in rest && y in cands && y != b;
    SortedAheadCons(freq, first, b, tail);
  }

  /** Every pick is ahead of every candidate left out. */
  lemma {:induction false} TopKMaximal(univ: seq<string>, freq: string -> int, first: string -> int, cands: seq<string>, n: int)
    requires Injective(univ, first)
    requires NoDuplicates(cands) && forall c | c in cands :: c in univ
    ensures AheadOfRest(freq, first, TopK(univ, freq, first, cands, n), cands)
    decreases |cands|
  {
    if n > 0 && cands != [] {
      var b := Best(univ, freq, first, cands);
      TopKMaximal(univ, freq, first, Remove(cands, b), n - 1);
      TopKMaximalStep(univ, freq, first, cands, n);
    }
  }

  /** The inductive step of TopKMaximal, kept apart so that the solver does
      not unfold TopK on the whole candidate list while proving it. */
  lemma TopKMaximalStep(univ: seq<string>, freq: string -> int, first: string -> int, cands: seq<string>, n: int)
    requires Injective(univ, first)
    requires NoDuplicates(cands) && forall c | c in cands :: c in univ
    requires n > 0 && cands != []
    requires var b := Best(univ, freq, first, cands);
      AheadOfRest(freq, first, TopK(univ, freq, first, Remove(cands, b), n - 1), Remove(cands, b))
    ensures var b := Best(univ, freq, first, cands);
      AheadOfRest(freq, first, [b] + TopK(univ, freq, first, Remove(cands, b), n - 1), cands)
  {
    var b := Best(univ, freq, first, cands);
    var rest := Remove(cands, b);
    AheadOfRestCons(freq, first, b, TopK(univ, freq, first, rest, n - 1), rest, cands);
  }

  /** Frequency of a value in `xs`, as a function value. */
  function Frequency(xs: seq<string>): string -> int {
    x => Count(xs, x)
  }

  /** Position of a value's first appearance in `xs`, as a function value. */
  function FirstSeen(xs: seq<string>): string -> int {
    x => if x in xs then FirstIndex(xs, x) else |xs|
  }

  lemma FirstSeenInjective(xs: seq<string>)
    ensures Injective(xs, FirstSeen(xs))
  {
  }

  /** `Counter(xs).most_common(n)` as the list of values (the counts are dropped
      by the caller). */
  function MostCommon(xs: seq<string>, n: int): seq<string> {
    FirstSeenInjective(xs);
    TopK(xs, Frequency(xs), FirstSeen(xs), Distinct(xs), n)
  }

  /** What `most_common(n)` promises: at most `n` distinct values of `xs`
      (exactly `n` when there are that many), in non-increasing order of
      frequency with ties in order of first appearance, and no value left
      out that is more frequent than one kept. */
  lemma MostCommonSpec(xs: seq<string>, n: nat)
    ensures var r := MostCommon(xs, n);
      && |r| == Min(n, |Distinct(xs)|)
      && NoDuplicates(r)
      && (forall x | x in r :: x in xs)
      && (forall i, j | 0 <= i < j < |r| ::
            Count(xs, r[i]) > Count(xs, r[j])
            || (Count(xs, r[i]) == Count(xs, r[j]) && FirstIndex(xs, r[i]) < FirstIndex(xs, r[j])))
      && (forall x, y | x in r && y in xs && y !in r :: Count(xs, x) >= Count(xs, y))
  {
    var r := MostCommon(xs, n);
    var freq, first := Frequency(xs), FirstSeen(xs);
    FirstSeenInjective(xs);
    TopKSorted(xs, freq, first, Distinct(xs), n);
    TopKMaximal(xs, freq, first, Distinct(xs), n);
    forall i, j | 0 <= i < j < |r|
      ensures Count(xs, r[i]) > Count(xs, r[j])
        || (Count(xs, r[i]) == Count(xs, r[j]) && FirstIndex(xs, r[i]) < FirstIndex(xs, r[j]))
    {
      assert Ahead(freq, first, r[i], r[j]);
    }
    forall x, y | x in r && y in xs && y !in r ensures Count(xs, x) >= Count(xs, y) {
      assert y in Distinct(xs);
      assert Ahead(freq, first, x, y);
    }
  }
}
