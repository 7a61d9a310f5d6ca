/** XComposer (src/post_composer/x_composer.py): the X.com post, cut down
    step by step until it fits the character limit, its hashtags, and the
    five-post thread. */
module XComposer {
  import opened Py
  import opened Records
  import opened Posts
  import MarketPredictor

  type MarketFitScore = MarketPredictor.MarketFitScore

  /** The composer's configuration, as read when it is created:
      `max_chars`, `hashtags_max` (default 2), `include_emoji` (default
      True), the disclosure template already formatted with the methodology
      link, and the link itself. */
  datatype Settings = Settings(
    maxChars: int,
    maxHashtags: int,
    includeEmoji: bool,
    disclosure: string,
    methodologyLink: string)

  const Rocket: string := "\U{1F680}"
  const Check: string := "\U{2705}"
  const Robot: string := "\U{1F916}"
  const FeaturesHead: string := "\n\nKey features:"

  // ---------------------------------------------------------------------
  // The post

  function Opening(s: Settings, c: ProductConcept): string {
    if s.includeEmoji then Rocket + " " + c.name + ": " + c.tagline else c.name + ": " + c.tagline
  }

  /** `feature[:n] + "..." if len(feature) > n else feature` */
  function Shorten(feature: string, n: nat): (r: string)
    ensures |r| <= n + 3
    ensures |feature| <= n ==> r == feature
    ensures StartsWith(r, Prefix(feature, n))
  {
    if |feature| > n then feature[..n] + "..." else feature
  }

  /** The bullet line the feature loop adds for one feature. */
  function Bullet(cut: nat): (nat, string) -> string {
    (_: nat, feature: string) => "\n\U{2022} " + Shorten(feature, cut)
  }

  /** `features_text` after the loop over the first `count` features. */
  function FeaturesText(features: seq<string>, count: nat, cut: nat): string {
    FeaturesHead + Joined(Prefix(features, count), Bullet(cut))
  }

  /** The bullets: each shown feature's shortened line is there, and each
      line takes at most `cut + 6` characters. */
  lemma FeaturesTextContents(features: seq<string>, count: nat, cut: nat, i: nat)
    requires i < |Prefix(features, count)|
    ensures Contains(FeaturesText(features, count, cut), "\n\U{2022} " + Shorten(features[i], cut))
    ensures |FeaturesText(features, count, cut)| <= |FeaturesHead| + Min(count, |features|) * (cut + 6)
  {
    var shown := Prefix(features, count);
    JoinedContains(shown, Bullet(cut), i);
    JoinedLength(shown, Bullet(cut), cut + 6);
    ContainsInLonger(Joined(shown, Bullet(cut)), Bullet(cut)(i + 1, shown[i]), FeaturesHead, []);
    assert FeaturesHead + Joined(shown, Bullet(cut)) + [] == FeaturesText(features, count, cut);
  }

  /** The `features_text += ...` loop. */
  method BuildFeaturesText(features: seq<string>, count: nat, cut: nat) returns (text: string)
    ensures text == FeaturesText(features, count, cut)
  {
    text := ConcatEach(FeaturesHead, Prefix(features, count), Bullet(cut));
  }

  /** The validation line; the NPS is added only when it is positive. */
  function Validation(fit: MarketFitScore): string {
    var head := "\n\n" + Check + " " + Fixed0(fit.pmfScore) + "% market fit";
    if fit.nps > 0 then head + " | NPS: " + IntToString(fit.nps) else head
  }

  lemma ValidationNps(fit: MarketFitScore)
    ensures fit.nps > 0 ==> Contains(Validation(fit), " | NPS: " + IntToString(fit.nps))
    ensures fit.nps <= 0 ==> Validation(fit) == "\n\n" + Check + " " + Fixed0(fit.pmfScore) + "% market fit"
  {
    var head := "\n\n" + Check + " " + Fixed0(fit.pmfScore) + "% market fit";
    ContainsMiddle(head, " | NPS: " + IntToString(fit.nps), []);
    assert head + (" | NPS: " + IntToString(fit.nps)) + [] == head + " | NPS: " + IntToString(fit.nps);
  }

  /** The post with the first `count` features, each cut at `cut`. */
  function Candidate(s: Settings, c: ProductConcept, fit: MarketFitScore, count: nat, cut: nat): string {
    Opening(s, c) + FeaturesText(c.features, count, cut) + Validation(fit) + "\n\n" + s.disclosure
  }

  /** The last resort: the opening, the fit line and the AI line. */
  function Minimal(s: Settings, c: ProductConcept, fit: MarketFitScore): string {
    Opening(s, c) + "\n\n" + Check + " " + Fixed0(fit.pmfScore) + "% market fit\n" + Robot + " AI-powered ideation"
  }

  /** The length cascade: three features cut at 50 characters; if that is
      too long, two cut at 40; if that is still too long, the minimal
      post. */
  function PostText(s: Settings, c: ProductConcept, fit: MarketFitScore): string {
    var full := Candidate(s, c, fit, 3, 50);
    if |full| <= s.maxChars then full
    else
      var two := Candidate(s, c, fit, 2, 40);
      if |two| <= s.maxChars then two else Minimal(s, c, fit)
  }

  /** The cascade keeps the first candidate that fits; only the minimal
      post can still be over the limit, so a limit the minimal post fits
      is never cut into. */
  lemma CascadeFits(s: Settings, c: ProductConcept, fit: MarketFitScore)
    ensures var t := PostText(s, c, fit);
      t in {Candidate(s, c, fit, 3, 50), Candidate(s, c, fit, 2, 40), Minimal(s, c, fit)}
    ensures |PostText(s, c, fit)| > s.maxChars ==> PostText(s, c, fit) == Minimal(s, c, fit)
    ensures |Minimal(s, c, fit)| <= s.maxChars ==>
      && |PostText(s, c, fit)| <= s.maxChars
      && Post(s, c, fit).text == PostText(s, c, fit)
  {
  }

  /** The topic hashtag: "#AI" when the name mentions AI in any case,
      else "#Tech" when the target market mentions tech, else "#Product". */
  function Topic(c: ProductConcept): string {
    if Contains(c.name, "AI") || Contains(LowerStr(c.name), "ai") then "#AI"
    else if Contains(LowerStr(c.targetMarket), "tech") then "#Tech"
    else "#Product"
  }

  /** The name test's first half adds nothing: "AI" in the name is "ai" in
      its lowercasing. */
  lemma TopicIsCaseInsensitive(c: ProductConcept)
    ensures Topic(c) == "#AI" <==> Contains(LowerStr(c.name), "ai")
  {
    if Contains(c.name, "AI") {
      ContainsLowered(c.name, "AI");
      assert LowerStr("AI") == "ai";
    }
  }

  /** `_generate_hashtags`, as a spec: "#Innovation", then the topic, cut
      to `max_hashtags`. */
  function Hashtags(s: Settings, c: ProductConcept): (r: seq<string>)
    ensures 0 <= s.maxHashtags ==> |r| == Min(s.maxHashtags, 2)
    ensures s.maxHashtags < 0 ==> |r| == Max(2 + s.maxHashtags, 0)
    ensures s.maxHashtags >= 2 ==> r == ["#Innovation", Topic(c)]
    ensures s.maxHashtags >= 1 ==> r[0] == "#Innovation"
  {
    Prefix(["#Innovation", Topic(c)], s.maxHashtags)
  }

  /** `_generate_hashtags`: the list is appended to, then sliced. */
  method GenerateHashtags(s: Settings, c: ProductConcept) returns (tags: seq<string>)
    ensures tags == Hashtags(s, c)
  {
    tags := [];
    tags := tags + ["#Innovation"];
    if Contains(c.name, "AI") || Contains(LowerStr(c.name), "ai") {
      tags := tags + ["#AI"];
    } else if Contains(LowerStr(c.targetMarket), "tech") {
      tags := tags + ["#Tech"];
    } else {
      tags := tags + ["#Product"];
    }
    tags := Prefix(tags, s.maxHashtags);
  }

  /** `compose_post`, as a spec. */
  function Post(s: Settings, c: ProductConcept, fit: MarketFitScore): SocialMediaPost {
    Finish("x", PostText(s, c, fit), s.maxChars, Hashtags(s, c))
  }

  /** The published text is within the limit and is a prefix of the
      composed text, whose full length is what `char_count` records. */
  lemma PostWithinLimit(s: Settings, c: ProductConcept, fit: MarketFitScore)
    ensures var post := Post(s, c, fit);
      && post.charCount == |PostText(s, c, fit)|
      && StartsWith(PostText(s, c, fit), post.text)
      && (0 <= s.maxChars ==> |post.text| <= s.maxChars)
      && post.hashtags == Hashtags(s, c) && post.platform == "x"
  {
  }

  /** `compose_post`: `features_text` and `post_text` are reassigned as the
      cascade goes. */
  method ComposePost(s: Settings, c: ProductConcept, fit: MarketFitScore) returns (post: SocialMediaPost)
    ensures post == Post(s, c, fit)
  {
    var postText := ComposeText(s, c, fit);
    var hashtags := GenerateHashtags(s, c);
    post := SocialMediaPost("x", Prefix(postText, s.maxChars), |postText|, [], hashtags);
  }

  /** The text part of `compose_post`: the opening, the features, the
      validation line and the disclosure, then the cascade. */
  method ComposeText(s: Settings, c: ProductConcept, fit: MarketFitScore) returns (postText: string)
    ensures postText == PostText(s, c, fit)
  {
    var opening := Opening(s, c);
    var featuresText := BuildFeaturesText(c.features, 3, 50);
    var validation := "\n\n" + Check + " " + Fixed0(fit.pmfScore) + "% market fit";
    if fit.nps > 0 {
      validation := validation + " | NPS: " + IntToString(fit.nps);
    }
    assert validation == Validation(fit);
    var disclosure := "\n\n" + s.disclosure;
    postText := opening + featuresText + validation + disclosure;
    assert postText == Candidate(s, c, fit, 3, 50);
    if |postText| > s.maxChars {
      featuresText := BuildFeaturesText(c.features, 2, 40);
      postText := opening + featuresText + validation + disclosure;
      assert postText == Candidate(s, c, fit, 2, 40);
    }
    if |postText| > s.maxChars {
      postText := Minimal(s, c, fit);
    }
  }

  // ---------------------------------------------------------------------
  // The thread

  /** The line of the third post for the `n`-th feature: cut to 60
      characters. */
  function NumberedLine(n: nat, feature: string): string {
    NatToString(n) + ". " + Prefix(feature, 60) + "\n"
  }

  function Tweet1(c: ProductConcept): string {
    Rocket + " Introducing " + c.name + "\n\n" + c.tagline + "\n\nA thread on why this matters \U{1F9F5}"
  }

  function Tweet2(c: ProductConcept): string {
    "The Problem:\n\n" + c.problemSolved + "\n\nThis affects " + c.targetMarket
  }

  function Tweet3(c: ProductConcept): string {
    "Our Solution:\n\n" + Joined(Prefix(c.features, 3), NumberedLine)
  }

  function Tweet4(fit: MarketFitScore): string {
    "Market Validation:\n\n"
      + Check + " " + Fixed0(fit.pmfScore) + "% PMF Score\n"
      + Check + " " + IntToString(fit.nps) + " NPS\n"
      + Check + " " + Fixed1(fit.avgInterest) + "/5.0 Interest\n\n"
      + "Validated with " + NatToString(fit.totalResponses) + "+ personas"
  }

  function Tweet5(s: Settings): string {
    "Want to learn more?\n\n"
      + Robot + " This concept was developed using AI-powered ideation\n"
      + "\U{1F4CA} Full methodology: " + s.methodologyLink + "\n\n"
      + "#Innovation #AIpowered"
  }

  /** A post published in full, with no hashtags. */
  function Whole(text: string): SocialMediaPost {
    SocialMediaPost("x", text, |text|, [], [])
  }

  /** `compose_thread`, as a spec. */
  function Thread(s: Settings, c: ProductConcept, fit: MarketFitScore): seq<SocialMediaPost> {
    [ Whole(Tweet1(c)),
      Whole(Tweet2(c)),
      Finish("x", Tweet3(c), 280, []),
      Whole(Tweet4(fit)),
      SocialMediaPost("x", Tweet5(s), |Tweet5(s)|, [], ["#Innovation", "#AIpowered"]) ]
  }

  /** Five posts on X in a fixed order; only the third can be cut (to 280
      characters) and only the last carries hashtags; every `char_count`
      is the uncut length. */
  lemma ThreadShape(s: Settings, c: ProductConcept, fit: MarketFitScore)
    ensures var t := Thread(s, c, fit);
      && |t| == 5
      && (forall i | 0 <= i < 5 :: t[i].platform == "x" && t[i].imagePaths == [])
      && (forall i | 0 <= i < 4 :: t[i].hashtags == [])
      && t[4].hashtags == ["#Innovation", "#AIpowered"]
      && (forall i | 0 <= i < 5 && i != 2 :: t[i].charCount == |t[i].text|)
      && |t[2].text| <= 280 && t[2].charCount == |Tweet3(c)| && StartsWith(Tweet3(c), t[2].text)
  {
  }

  /** The third post lists the first three features, numbered from 1,
      each cut to 60 characters. */
  lemma Tweet3Lines(c: ProductConcept, i: nat)
    requires i < |c.features| && i < 3
    ensures Contains(Tweet3(c), NatToString(i + 1) + ". " + Prefix(c.features[i], 60) + "\n")
  {
    var shown := Prefix(c.features, 3);
    assert shown[i] == c.features[i];
    JoinedContains(shown, NumberedLine, i);
    ContainsInLonger(Joined(shown, NumberedLine), NumberedLine(i + 1, shown[i]), "Our Solution:\n\n", []);
    assert "Our Solution:\n\n" + Joined(shown, NumberedLine) + [] == Tweet3(c);
  }

  /** `compose_thread`: `tweet3` is built with `+=`, the thread by
      appending. */
  method ComposeThread(s: Settings, c: ProductConcept, fit: MarketFitScore) returns (thread: seq<SocialMediaPost>)
    ensures thread == Thread(s, c, fit)
  {
    thread := [];
    var tweet1 := Tweet1(c);
    thread := thread + [SocialMediaPost("x", tweet1, |tweet1|, [], [])];
    var tweet2 := Tweet2(c);
    thread := thread + [SocialMediaPost("x", tweet2, |tweet2|, [], [])];
    var lines := ConcatEach("", Prefix(c.features, 3), NumberedLine);
    var tweet3 := "Our Solution:\n\n" + lines;
    assert tweet3 == Tweet3(c);
    thread := thread + [SocialMediaPost("x", Prefix(tweet3, 280), |tweet3|, [], [])];
    var tweet4 := Tweet4(fit);
    thread := thread + [SocialMediaPost("x", tweet4, |tweet4|, [], [])];
    var tweet5 := Tweet5(s);
    thread := thread + [SocialMediaPost("x", tweet5, |tweet5|, [], ["#Innovation", "#AIpowered"])];
  }
}
