/** LinkedInComposer (src/post_composer/linkedin_composer.py): the LinkedIn
    post as a list of lines joined with newlines, its shorter fallback, its
    hashtags, and the article introduction. */
module LinkedInComposer {
  import opened Py
  import opened Records
  import opened Posts
  import MarketPredictor

  type MarketFitScore = MarketPredictor.MarketFitScore

  /** The composer's configuration: `max_chars`, `hashtags_recommended`
      (default 5), and the disclosure template formatted with the
      methodology link and a persona count. */
  datatype Settings = Settings(
    maxChars: int,
    recommendedHashtags: int,
    disclosure: nat -> string)

  const Check: string := "\U{2705}"

  // ---------------------------------------------------------------------
  // The sections of the full post

  function Hook(c: ProductConcept): seq<string> {
    ["# Introducing: " + c.name, "", c.tagline, ""]
  }

  function Problem(c: ProductConcept): seq<string> {
    ["## The Problem", "", c.problemSolved, "", "This challenge particularly affects **" + c.targetMarket + "**.", ""]
  }

  function FeatureItem(n: nat, feature: string): string {
    "**" + NatToString(n) + ". " + feature + "**"
  }

  /** Every feature, in order, numbered from 1. */
  function Solution(c: ProductConcept): (r: seq<string>)
    ensures |r| == |c.features| + 3 && r[..2] == ["## Our Solution", ""] && r[|r| - 1] == ""
    ensures forall i | 0 <= i < |c.features| :: r[2 + i] == "**" + NatToString(i + 1) + ". " + c.features[i] + "**"
  {
    ["## Our Solution", ""] + Each(c.features, FeatureItem) + [""]
  }

  function CheckItem(n: nat, item: string): string {
    Check + " " + item
  }

  /** At most three differentiators; no section at all when there are
      none. */
  function Difference(c: ProductConcept): (r: seq<string>)
    ensures r == [] <==> c.differentiators == []
    ensures c.differentiators != [] ==>
      && |r| == Min(|c.differentiators|, 3) + 3
      && r[..2] == ["## What Makes It Different", ""]
      && (forall i | 0 <= i < Min(|c.differentiators|, 3) :: r[2 + i] == Check + " " + c.differentiators[i])
  {
    if c.differentiators == [] then []
    else ["## What Makes It Different", ""] + Each(Prefix(c.differentiators, 3), CheckItem) + [""]
  }

  function Validation(fit: MarketFitScore): seq<string> {
    [ "## Market Validation", "",
      Check + " **" + Fixed1(fit.pmfScore) + "% Product-Market Fit** (Target: 40%+)",
      Check + " **" + IntToString(fit.nps) + " Net Promoter Score**",
      Check + " **" + Fixed1(fit.avgInterest) + "/5.0 Average Interest**",
      "" ]
  }

  function BulletItem(n: nat, item: string): string {
    "\U{2022} " + item
  }

  /** At most three top benefits; no section at all when there are none. */
  function Benefits(fit: MarketFitScore): (r: seq<string>)
    ensures r == [] <==> fit.topBenefits == []
    ensures fit.topBenefits != [] ==>
      && |r| == Min(|fit.topBenefits|, 3) + 2
      && (forall i | 0 <= i < Min(|fit.topBenefits|, 3) :: r[1 + i] == "\U{2022} " + fit.topBenefits[i])
  {
    if fit.topBenefits == [] then []
    else ["**Top Benefits** identified by our market research:"] + Each(Prefix(fit.topBenefits, 3), BulletItem) + [""]
  }

  function Business(c: ProductConcept): seq<string> {
    ["## Business Model", "", "**Pricing Strategy:** " + c.pricingModel, ""]
  }

  function Closing(s: Settings, fit: MarketFitScore, hashtags: seq<string>): seq<string> {
    [s.disclosure(fit.totalResponses), "", Join(hashtags, " ")]
  }

  /** `post_parts` of the full post. */
  function FullParts(s: Settings, c: ProductConcept, fit: MarketFitScore, hashtags: seq<string>): seq<string> {
    Hook(c) + Problem(c) + Solution(c) + Difference(c) + Validation(fit) + Benefits(fit) + Business(c)
      + Closing(s, fit, hashtags)
  }

  /** The lines of the full post that come from the concept's lists: every
      feature, at most three differentiators and at most three benefits. */
  lemma FullPartsSize(s: Settings, c: ProductConcept, fit: MarketFitScore, hashtags: seq<string>)
    ensures |FullParts(s, c, fit, hashtags)| ==
      26 + |c.features|
      + (if c.differentiators == [] then 0 else Min(|c.differentiators|, 3) + 3)
      + (if fit.topBenefits == [] then 0 else Min(|fit.topBenefits|, 3) + 2)
  {
  }

  /** The "Our Solution" lines: the heading, then the feature loop. */
  method AppendSolution(parts: seq<string>, c: ProductConcept) returns (r: seq<string>)
    ensures r == parts + Solution(c)
  {
    r := parts + ["## Our Solution", ""];
    r := AppendEach(r, c.features, FeatureItem);
    r := r + [""];
  }

  /** The "What Makes It Different" lines, when there are differentiators. */
  method AppendDifference(parts: seq<string>, c: ProductConcept) returns (r: seq<string>)
    ensures r == parts + Difference(c)
  {
    r := parts;
    if c.differentiators != [] {
      r := r + ["## What Makes It Different", ""];
      r := AppendEach(r, Prefix(c.differentiators, 3), CheckItem);
      r := r + [""];
    }
  }

  /** The top-benefits lines, when there are any. */
  method AppendBenefits(parts: seq<string>, fit: MarketFitScore) returns (r: seq<string>)
    ensures r == parts + Benefits(fit)
  {
    r := parts;
    if fit.topBenefits != [] {
      r := r + ["**Top Benefits** identified by our market research:"];
      r := AppendEach(r, Prefix(fit.topBenefits, 3), BulletItem);
      r := r + [""];
    }
  }

  /** `post_parts`, appended section by section. */
  method BuildParts(s: Settings, c: ProductConcept, fit: MarketFitScore, hashtags: seq<string>) returns (parts: seq<string>)
    ensures parts == FullParts(s, c, fit, hashtags)
  {
    parts := ["# Introducing: " + c.name, "", c.tagline, ""];
    parts := parts + ["## The Problem", "", c.problemSolved, "", "This challenge particularly affects **" + c.targetMarket + "**.", ""];
    parts := AppendSolution(parts, c);
    parts := AppendDifference(parts, c);
    parts := parts + Validation(fit);
    parts := AppendBenefits(parts, fit);
    parts := parts + ["## Business Model", "", "**Pricing Strategy:** " + c.pricingModel, ""];
    parts := parts + [s.disclosure(fit.totalResponses), "", Join(hashtags, " ")];
  }

  // ---------------------------------------------------------------------
  // The shorter version

  function PlainNumbered(n: nat, feature: string): string {
    NatToString(n) + ". " + feature
  }

  /** `_create_shorter_version`'s lines: at most three features, and
      neither differentiators nor benefits. */
  function ShorterParts(c: ProductConcept, fit: MarketFitScore, hashtags: seq<string>): seq<string> {
    ShorterHead(c) + Each(Prefix(c.features, 3), PlainNumbered) + ShorterTail(fit, hashtags)
  }

  /** The lines before the features: title, tagline, challenge. */
  function ShorterHead(c: ProductConcept): seq<string> {
    ["# " + c.name, "", c.tagline, "", "## The Challenge", c.problemSolved, "", "## Key Features"]
  }

  /** The lines after the features: validation, disclosure, hashtags. */
  function ShorterTail(fit: MarketFitScore, hashtags: seq<string>): seq<string> {
    [ "", "## Validation",
      Check + " " + Fixed1(fit.pmfScore) + "% PMF | " + IntToString(fit.nps) + " NPS", "",
      "\U{1F916} AI-powered ideation with " + NatToString(fit.totalResponses) + "+ synthetic personas.", "",
      Join(hashtags, " ") ]
  }

  /** The shorter version depends on the name, tagline, problem, first
      three features, score, NPS and response count only: differentiators,
      benefits and further features never reach it. */
  lemma ShorterIgnoresExtras(c: ProductConcept, fit: MarketFitScore, c': ProductConcept, fit': MarketFitScore, hashtags: seq<string>)
    requires c.name == c'.name && c.tagline == c'.tagline && c.problemSolved == c'.problemSolved
    requires Prefix(c.features, 3) == Prefix(c'.features, 3)
    requires fit.pmfScore == fit'.pmfScore && fit.nps == fit'.nps && fit.totalResponses == fit'.totalResponses
    ensures ShorterParts(c, fit, hashtags) == ShorterParts(c', fit', hashtags)
    ensures |ShorterParts(c, fit, hashtags)| == 15 + Min(|c.features|, 3)
  {
  }

  /** `_create_shorter_version`. */
  method CreateShorterVersion(c: ProductConcept, fit: MarketFitScore, hashtags: seq<string>) returns (text: string)
    ensures text == Join(ShorterParts(c, fit, hashtags), "\n")
  {
    var parts := ["# " + c.name, "", c.tagline, ""];
    parts := parts + ["## The Challenge", c.problemSolved, ""];
    parts := parts + ["## Key Features"];
    assert parts == ShorterHead(c);
    parts := AppendEach(parts, Prefix(c.features, 3), PlainNumbered);
    var tail := [""];
    tail := tail + ["## Validation", Check + " " + Fixed1(fit.pmfScore) + "% PMF | " + IntToString(fit.nps) + " NPS", ""];
    tail := tail + ["\U{1F916} AI-powered ideation with " + NatToString(fit.totalResponses) + "+ synthetic personas.", ""];
    tail := tail + [Join(hashtags, " ")];
    assert tail == ShorterTail(fit, hashtags);
    parts := parts + tail;
    assert parts == ShorterParts(c, fit, hashtags);
    text := Join(parts, "\n");
  }

  // ---------------------------------------------------------------------
  // Hashtags

  predicate TechTopic(c: ProductConcept) {
    Contains(LowerStr(c.targetMarket), "tech") || Contains(LowerStr(c.name), "software")
  }

  predicate MarketTopic(c: ProductConcept) {
    Contains(LowerStr(c.problemSolved), "market")
  }

  /** Every hashtag the composer can choose, in order: the two fixed ones,
      "#TechInnovation" and "#MarketResearch" when their topics come up,
      and "#ProductDevelopment" last. */
  function AllHashtags(c: ProductConcept): (r: seq<string>)
    ensures 3 <= |r| <= 5
    ensures r[..2] == ["#ProductInnovation", "#AIpowered"] && r[|r| - 1] == "#ProductDevelopment"
    ensures "#TechInnovation" in r <==> TechTopic(c)
    ensures "#MarketResearch" in r <==> MarketTopic(c)
  {
    ["#ProductInnovation", "#AIpowered"]
      + (if TechTopic(c) then ["#TechInnovation"] else [])
      + (if MarketTopic(c) then ["#MarketResearch"] else [])
      + ["#ProductDevelopment"]
  }

  /** `_generate_hashtags`, as a spec: the chosen hashtags cut to
      `hashtags_recommended`. */
  function Hashtags(s: Settings, c: ProductConcept): (r: seq<string>)
    ensures |r| <= 5 && StartsWith(AllHashtags(c), r)
    ensures s.recommendedHashtags >= 5 ==> r == AllHashtags(c)
  {
    Prefix(AllHashtags(c), s.recommendedHashtags)
  }

  /** `_generate_hashtags`: appended one by one, then sliced. */
  method GenerateHashtags(s: Settings, c: ProductConcept) returns (tags: seq<string>)
    ensures tags == Hashtags(s, c)
  {
    tags := [];
    tags := tags + ["#ProductInnovation"];
    tags := tags + ["#AIpowered"];
    if Contains(LowerStr(c.targetMarket), "tech") || Contains(LowerStr(c.name), "software") {
      tags := tags + ["#TechInnovation"];
    }
    if Contains(LowerStr(c.problemSolved), "market") {
      tags := tags + ["#MarketResearch"];
    }
    tags := tags + ["#ProductDevelopment"];
    tags := Prefix(tags, s.recommendedHashtags);
  }

  // ---------------------------------------------------------------------
  // The post

  /** The text `compose_post` settles on: the full post, or the shorter
      version when the full one is over the limit. */
  function PostText(s: Settings, c: ProductConcept, fit: MarketFitScore): string {
    var hashtags := Hashtags(s, c);
    var full := Join(FullParts(s, c, fit, hashtags), "\n");
    if |full| > s.maxChars then Join(ShorterParts(c, fit, hashtags), "\n") else full
  }

  /** `compose_post`, as a spec. */
  function Post(s: Settings, c: ProductConcept, fit: MarketFitScore): SocialMediaPost {
    Finish("linkedin", PostText(s, c, fit), s.maxChars, Hashtags(s, c))
  }

  /** The full post is kept when it fits, the shorter one used otherwise;
      the published text is within the limit and is a prefix of that text,
      whose whole length `char_count` records; a full post that fits is
      published uncut. */
  lemma PostWithinLimit(s: Settings, c: ProductConcept, fit: MarketFitScore)
    ensures var full := Join(FullParts(s, c, fit, Hashtags(s, c)), "\n");
      var post := Post(s, c, fit);
      && (|full| <= s.maxChars ==> PostText(s, c, fit) == full && post.text == full)
      && (|full| > s.maxChars ==> PostText(s, c, fit) == Join(ShorterParts(c, fit, Hashtags(s, c)), "\n"))
      && post.charCount == |PostText(s, c, fit)|
      && StartsWith(PostText(s, c, fit), post.text)
      && (0 <= s.maxChars ==> |post.text| <= s.maxChars)
      && post.hashtags == Hashtags(s, c) && post.platform == "linkedin"
  {
  }

  /** `compose_post`. */
  method ComposePost(s: Settings, c: ProductConcept, fit: MarketFitScore) returns (post: SocialMediaPost)
    ensures post == Post(s, c, fit)
  {
    var hashtags := GenerateHashtags(s, c);
    var parts := BuildParts(s, c, fit, hashtags);
    var postText := Join(parts, "\n");
    if |postText| > s.maxChars {
      postText := CreateShorterVersion(c, fit, hashtags);
    }
    post := SocialMediaPost("linkedin", Prefix(postText, s.maxChars), |postText|, [], hashtags);
  }

  // ---------------------------------------------------------------------
  // The article introduction

  const IntroLead: string :=
    "In today's fast-paced market, identifying real problems and creating viable solutions requires more than intuition\U{2014}it demands data-driven validation."
  const ContinueReading: string := "[Continue reading...]"

  function IntroParts(c: ProductConcept, fit: MarketFitScore): seq<string> {
    [ "# The Story Behind " + c.name, "",
      "## Innovation Through AI-Powered Ideation", "",
      IntroLead, "",
      "This is the story of how we developed **" + c.name + "**, a product concept that achieved a "
        + Fixed1(fit.pmfScore) + "% product-market fit score through AI-powered market simulation.",
      "",
      "## The Problem", "",
      c.problemSolved, "",
      ContinueReading ]
  }

  /** The introduction opens with its title line and ends with
      "[Continue reading...]". */
  lemma ArticleIntroEnds(c: ProductConcept, fit: MarketFitScore)
    ensures var text := Join(IntroParts(c, fit), "\n");
      && StartsWith(text, "# The Story Behind " + c.name)
      && |ContinueReading| <= |text| && text[|text| - |ContinueReading|..] == ContinueReading
  {
    var parts := IntroParts(c, fit);
    JoinEndsWith(parts, "\n");
    var text := Join(parts, "\n");
    var head := "# The Story Behind " + c.name;
    assert text == head + "\n" + Join(parts[1..], "\n");
    assert text[..|head|] == head;
  }

  /** `compose_article_intro`: `intro_parts` appended, then joined. */
  method ComposeArticleIntro(c: ProductConcept, fit: MarketFitScore) returns (text: string)
    ensures text == Join(IntroParts(c, fit), "\n")
  {
    var parts := ["# The Story Behind " + c.name, ""];
    parts := parts + ["## Innovation Through AI-Powered Ideation", ""];
    parts := parts + [IntroLead, ""];
    parts := parts + ["This is the story of how we developed **" + c.name + "**, a product concept that achieved a "
      + Fixed1(fit.pmfScore) + "% product-market fit score through AI-powered market simulation.", ""];
    parts := parts + ["## The Problem", ""];
    parts := parts + [c.problemSolved, ""];
    parts := parts + [ContinueReading];
    assert parts == IntroParts(c, fit);
    text := Join(parts, "\n");
  }
}
