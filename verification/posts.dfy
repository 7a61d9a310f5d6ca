/** What the X and LinkedIn composers share: the post record, the final
    truncation to the platform limit, the per-item lines built in their
    loops, and Python's fixed-point number formatting. */
module Posts {
  import opened Py
  import opened MarketMetrics

  /** A composed post (SocialMediaPost): the text as published, the length
      of the text before it was cut to the limit, the images (filled in
      later, empty here) and the hashtags. */
  datatype SocialMediaPost = SocialMediaPost(
    platform: string,
    text: string,
    charCount: nat,
    imagePaths: seq<string>,
    hashtags: seq<string>)

  /** The post built from a composed text: the text cut with
      `text[:max_chars]`, the untruncated length recorded. */
  function Finish(platform: string, text: string, maxChars: int, hashtags: seq<string>): (post: SocialMediaPost)
    ensures post.platform == platform && post.hashtags == hashtags && post.imagePaths == []
    ensures post.charCount == |text|
    ensures StartsWith(text, post.text)
    ensures 0 <= maxChars ==> |post.text| <= maxChars
    ensures 0 <= maxChars ==> (post.text == text <==> |text| <= maxChars)
  {
    SocialMediaPost(platform, Prefix(text, maxChars), |text|, [], hashtags)
  }

  /** The line a loop over `xs` appends for each item, numbered from 1. */
  function Each(xs: seq<string>, line: (nat, string) -> string): (r: seq<string>)
    ensures |r| == |xs|
    ensures forall i | 0 <= i < |xs| :: r[i] == line(i + 1, xs[i])
  {
    seq(|xs|, i requires 0 <= i < |xs| => line(i + 1, xs[i]))
  }

  /** One more item: one more line, after the others. */
  lemma EachSnoc(xs: seq<string>, x: string, line: (nat, string) -> string)
    ensures Each(xs + [x], line) == Each(xs, line) + [line(|xs| + 1, x)]
  {
    assert forall i | 0 <= i < |xs| :: (xs + [x])[i] == xs[i];
  }

  /** `parts.append(line(i, x))` for each `x` of `xs`, numbered from 1, as
      the composers' `for` loops do. */
  method AppendEach(parts: seq<string>, xs: seq<string>, line: (nat, string) -> string) returns (r: seq<string>)
    ensures r == parts + Each(xs, line)
  {
    r := parts;
    var i := 0;
    while i < |xs|
      invariant 0 <= i <= |xs|
      invariant r == parts + Each(xs[..i], line)
    {
      EachSnoc(xs[..i], xs[i], line);
      assert xs[..i + 1] == xs[..i] + [xs[i]];
      r := r + [line(i + 1, xs[i])];
      i := i + 1;
    }
    assert xs[..i] == xs;
  }

  /** The text a loop adds with `text += line(i, x)` for each `x` of `xs`,
      numbered from 1. */
  function Joined(xs: seq<string>, line: (nat, string) -> string): string {
    if xs == [] then "" else Joined(xs[..|xs| - 1], line) + line(|xs|, xs[|xs| - 1])
  }

  /** Every item's line is in the text. */
  lemma {:induction false} JoinedContains(xs: seq<string>, line: (nat, string) -> string, i: nat)
    requires i < |xs|
    ensures Contains(Joined(xs, line), line(i + 1, xs[i]))
    decreases |xs|
  {
    var init := xs[..|xs| - 1];
    var last := line(|xs|, xs[|xs| - 1]);
    if i < |init| {
      JoinedContains(init, line, i);
      assert init[i] == xs[i];
      ContainsInLonger(Joined(init, line), line(i + 1, xs[i]), [], last);
      assert [] + Joined(init, line) + last == Joined(init, line) + last;
    } else {
      ContainsMiddle(Joined(init, line), last, []);
      assert Joined(init, line) + last + [] == Joined(init, line) + last;
    }
  }

  /** Lines of at most `bound` characters make a text of at most
      `|xs| * bound`. */
  lemma {:induction false} JoinedLength(xs: seq<string>, line: (nat, string) -> string, bound: nat)
    requires forall i | 0 <= i < |xs| :: |line(i + 1, xs[i])| <= bound
    ensures |Joined(xs, line)| <= |xs| * bound
    decreases |xs|
  {
    if xs != [] {
      var init := xs[..|xs| - 1];
      forall i | 0 <= i < |init|
        ensures |line(i + 1, init[i])| <= bound
      {
        assert init[i] == xs[i];
      }
      JoinedLength(init, line, bound);
      var last := line(|xs|, xs[|xs| - 1]);
      assert |Joined(xs, line)| == |Joined(init, line)| + |last|;
      assert |Joined(init, line)| <= (|xs| - 1) * bound;
      assert (|xs| - 1) * bound + bound == |xs| * bound;
    }
  }

  /** `text += line(i, x)` for each `x` of `xs`, numbered from 1. */
  method ConcatEach(text: string, xs: seq<string>, line: (nat, string) -> string) returns (r: string)
    ensures r == text + Joined(xs, line)
  {
    r := text;
    var i := 0;
    while i < |xs|
      invariant 0 <= i <= |xs|
      invariant r == text + Joined(xs[..i], line)
    {
      assert xs[..i + 1][..i] == xs[..i];
      r := r + line(i + 1, xs[i]);
      i := i + 1;
    }
    assert xs[..i] == xs;
  }

  /** `"\n".join(parts)` ends with the last part. */
  lemma {:induction false} JoinEndsWith(parts: seq<string>, sep: string)
    requires parts != []
    ensures var s := Join(parts, sep); var last := parts[|parts| - 1];
      |last| <= |s| && s[|s| - |last|..] == last
    decreases |parts|
  {
    if |parts| > 1 {
      JoinEndsWith(parts[1..], sep);
      var rest := Join(parts[1..], sep);
      var last := parts[|parts| - 1];
      assert parts[1..][|parts[1..]| - 1] == last;
      var s := parts[0] + sep + rest;
      assert s[|s| - |last|..] == rest[|rest| - |last|..];
    }
  }

  /** `x` rounded to whole units, or to tenths when `tenths` holds, ties to
      even, counted in those units. */
  function Scaled(x: real, tenths: bool): (n: nat)
    requires x >= 0.0
  {
    var n := RoundHalfEven(if tenths then x * 10.0 else x);
    assert n >= 0;
    n
  }

  /** `f"{x:.0f}"`: the nearest whole number, ties to even, with the sign
      Python keeps on a negative value that rounds to zero. */
  function Fixed0(x: real): (s: string)
    ensures |s| >= 1
  {
    if x < 0.0 then "-" + NatToString(Scaled(-x, false)) else NatToString(Scaled(x, false))
  }

  /** `f"{x:.1f}"`: one digit after the point. */
  function Fixed1(x: real): (s: string)
    ensures |s| >= 3 && s[|s| - 2] == '.' && '0' <= s[|s| - 1] <= '9'
  {
    var n := Scaled(if x < 0.0 then -x else x, true);
    (if x < 0.0 then "-" else "") + NatToString(n / 10) + "." + [Digit(n % 10)]
  }

  /** The digits of a formatted non-negative number read back as the
      rounded value: `Fixed1` shows the tenths `x` rounds to. */
  lemma Fixed1Digits(x: real)
    requires x >= 0.0
    ensures var n := Scaled(x, true);
      && Fixed1(x) == NatToString(n / 10) + "." + [Digit(n % 10)]
      && -0.05 <= x - n as real / 10.0 <= 0.05
  {
    var n := Scaled(x, true);
    assert -0.5 <= x * 10.0 - n as real <= 0.5;
  }
}
