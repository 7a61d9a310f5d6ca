/** OpenRouterClient (src/utils/api_manager.py): every model call goes
    through a sliding-window rate limiter and a retry loop with exponential
    backoff, is logged once, and a failure is turned into one of the API
    exceptions by an ordered scan of its message. The HTTP call itself is an
    oracle `send(request, attempt)`; clocks are parameters. */
module ApiManager {
  import opened Py
  import opened Records
  import opened Exceptions

  // ---------------------------------------------------------------------
  // Requests, replies and log records

  datatype Message = Message(role: string, content: string)

  /** The keyword arguments of `chat.completions.create`. */
  datatype Request = Request(
    model: string,
    messages: seq<Message>,
    temperature: Option<real>,
    maxTokens: int,
    responseFormat: Option<Value>)

  /** A reply: the first choice's content and the usage counts, each of
      which may be absent. */
  datatype Response = Response(content: Option<string>, promptTokens: Option<int>, completionTokens: Option<int>)

  /** `APICallLog`, without its timestamp and its always-None cost. */
  datatype CallLog = CallLog(
    model: string,
    operation: string,
    inputTokens: Option<int>,
    outputTokens: Option<int>,
    success: bool,
    errorMessage: Option<string>)

  function SuccessLog(model: string, operation: string, input: Option<int>, output: Option<int>): CallLog {
    CallLog(model, operation, input, output, true, None)
  }

  function FailureLog(model: string, operation: string, message: string): CallLog {
    CallLog(model, operation, None, None, false, Some(message))
  }

  // ---------------------------------------------------------------------
  // Retry with exponential backoff

  function Pow2(n: nat): (p: nat)
    ensures p >= 1
  {
    if n == 0 then 1 else 2 * Pow2(n - 1)
  }

  /** `_retry_with_backoff` from attempt `attempt` on: the first success,
      the last attempt's error, or None when no attempt is left to make. */
  function Retry<T>(call: nat -> Result<T, string>, maxRetries: int, attempt: nat): Result<Option<T>, string>
    decreases maxRetries - attempt
  {
    if attempt >= maxRetries then Success(None)
    else if call(attempt).Success? then Success(Some(call(attempt).value))
    else if attempt == maxRetries - 1 then Failure(call(attempt).error)
    else Retry(call, maxRetries, attempt + 1)
  }

  /** The seconds slept from attempt `attempt` on: one sleep after every
      failed attempt but the last. */
  function Sleeps<T>(call: nat -> Result<T, string>, maxRetries: int, attempt: nat): seq<nat>
    decreases maxRetries - attempt
  {
    if attempt >= maxRetries || call(attempt).Success? || attempt == maxRetries - 1 then []
    else [Pow2(attempt)] + Sleeps(call, maxRetries, attempt + 1)
  }

  /** The retry loop returns the first successful attempt; it fails only
      when every allowed attempt failed, with the last one's error; and it
      returns None exactly when no attempt is allowed. */
  lemma {:induction false} RetrySpec<T>(call: nat -> Result<T, string>, maxRetries: int, attempt: nat)
    ensures var r := Retry(call, maxRetries, attempt);
      && (r == Success(None) <==> attempt >= maxRetries)
      && (r.Success? && r.value.Some? ==> exists j | attempt <= j < maxRetries ::
            call(j) == Success(r.value.value) && forall k | attempt <= k < j :: call(k).Failure?)
      && (r.Failure? <==> attempt < maxRetries && forall k | attempt <= k < maxRetries :: call(k).Failure?)
      && (r.Failure? ==> r.error == call(maxRetries - 1).error)
    decreases maxRetries - attempt
  {
    if attempt < maxRetries && call(attempt).Failure? && attempt != maxRetries - 1 {
      RetrySpec(call, maxRetries, attempt + 1);
      var r := Retry(call, maxRetries, attempt + 1);
      if r.Success? && r.value.Some? {
        var j :| attempt + 1 <= j < maxRetries && call(j) == Success(r.value.value)
          && forall k | attempt + 1 <= k < j :: call(k).Failure?;
        assert forall k | attempt <= k < j :: call(k).Failure? by {
          forall k | attempt <= k < j
            ensures call(k).Failure?
          {
            if k > attempt {
              assert attempt + 1 <= k < j;
            }
          }
        }
      }
      if attempt < maxRetries && forall k | attempt + 1 <= k < maxRetries :: call(k).Failure? {
        assert forall k | attempt <= k < maxRetries :: call(k).Failure? by {
          forall k | attempt <= k < maxRetries
            ensures call(k).Failure?
          {
            if k > attempt {
              assert attempt + 1 <= k < maxRetries;
            }
          }
        }
      }
    } else if attempt < maxRetries && call(attempt).Success? {
      assert attempt <= attempt < maxRetries;
    }
  }

  /** The backoff doubles: the i-th sleep lasts 2^(attempt + i) seconds, and
      fewer sleeps happen than attempts are allowed. A sleep follows every
      failed attempt but the last: the attempts slept after all failed, and
      when the sleeps stop short of the last attempt, the next one succeeded. */
  lemma {:induction false} SleepsDouble<T>(call: nat -> Result<T, string>, maxRetries: int, attempt: nat)
    ensures var s := Sleeps(call, maxRetries, attempt);
      && (forall i | 0 <= i < |s| :: s[i] == Pow2(attempt + i))
      && (s != [] ==> |s| < maxRetries - attempt)
      && (forall k | attempt <= k < attempt + |s| :: call(k).Failure?)
      && (attempt + |s| < maxRetries - 1 ==> call(attempt + |s|).Success?)
    decreases maxRetries - attempt
  {
    if !(attempt >= maxRetries || call(attempt).Success? || attempt == maxRetries - 1) {
      SleepsDouble(call, maxRetries, attempt + 1);
      var s := Sleeps(call, maxRetries, attempt);
      var rest := Sleeps(call, maxRetries, attempt + 1);
      assert |s| == 1 + |rest|;
      assert forall i | 1 <= i < |s| :: s[i] == rest[i - 1];
      assert forall k | attempt <= k < attempt + |s| :: call(k).Failure? by {
        forall k | attempt <= k < attempt + |s|
          ensures call(k).Failure?
        {
          if k > attempt {
            assert attempt + 1 <= k < attempt + 1 + |rest|;
          }
        }
      }
    }
  }

  /** `_retry_with_backoff(func, max_retries)`: the attempts in order and the
      seconds slept between them. */
  method RetryWithBackoff<T>(call: nat -> Result<T, string>, maxRetries: int) returns (r: Result<Option<T>, string>, slept: seq<nat>)
    ensures r == Retry(call, maxRetries, 0)
    ensures slept == Sleeps(call, maxRetries, 0)
  {
    slept := [];
    var attempt: nat := 0;
    while attempt < maxRetries
      invariant Retry(call, maxRetries, attempt) == Retry(call, maxRetries, 0)
      invariant slept + Sleeps(call, maxRetries, attempt) == Sleeps(call, maxRetries, 0)
      decreases maxRetries - attempt
    {
      var outcome := call(attempt);
      if outcome.Success? {
        r := Success(Some(outcome.value));
        assert slept + [] == slept;
        return;
      }
      if attempt == maxRetries - 1 {
        r := Failure(outcome.error);
        assert slept + [] == slept;
        return;
      }
      slept := slept + [Pow2(attempt)];
      attempt := attempt + 1;
    }
    assert slept + [] == slept;
    r := Success(None);
  }

  // ---------------------------------------------------------------------
  // Rate limiting

  /** `[t for t in call_times if now - t < rate_period]`: every timestamp
      younger than the period, as often as it was recorded, and no other. */
  function Window(times: seq<real>, now: real, period: real): (w: seq<real>)
    ensures |w| <= |times|
    ensures forall t | t in w :: t in times && now - t < period
    ensures forall t | t in times && now - t < period :: t in w
    ensures forall t :: Count(w, t) == (if now - t < period then Count(times, t) else 0)
  {
    if times == [] then []
    else
      var rest := Window(times[1..], now, period);
      assert forall t | t in times[1..] :: t in times;
      assert forall t | t in times :: t == times[0] || t in times[1..];
      if now - times[0] < period then
        assert ([times[0]] + rest)[0] == times[0] && ([times[0]] + rest)[1..] == rest;
        [times[0]] + rest
      else rest
  }

  /** A timestamp at least one period old shortens the window. */
  lemma {:induction false} WindowDrops(times: seq<real>, stale: real, now: real, period: real)
    requires stale in times && now - stale >= period
    ensures |Window(times, now, period)| < |times|
  {
    if times[0] != stale {
      assert stale in times[1..];
      WindowDrops(times[1..], stale, now, period);
    }
  }

  /** The window `_check_rate_limit` leaves behind: the recent calls plus
      this one; only this one after a wait for a full window; and nothing
      when the full window is empty, where `min` raises. */
  function NextWindow(times: seq<real>, now: real, stamp: real, limit: int, period: real): (w: seq<real>)
    ensures w == [] <==> (limit <= 0 && Window(times, now, period) == [])
    ensures w != [] ==> w[|w| - 1] == stamp
    ensures w != [] ==> forall t | t in w[..|w| - 1] :: t in times && now - t < period
    ensures limit >= 1 ==> |w| <= limit
    ensures |Window(times, now, period)| < limit ==> w == Window(times, now, period) + [stamp]
    ensures |Window(times, now, period)| >= limit && Window(times, now, period) != [] ==> w == [stamp]
  {
    var recent := Window(times, now, period);
    if |recent| >= limit then (if recent == [] then [] else [stamp])
    else recent + [stamp]
  }

  /** After a wait the window is cleared, so calls made less than one
      period before the new one are no longer counted: with a limit of 2
      calls per 10 seconds, calls stamped 0, 1, 10 and 10.5 are all let
      through, and the last three fall within 10 seconds. */
  lemma ForgetsRecentCalls()
    ensures var w1 := NextWindow([], 0.0, 0.0, 2, 10.0);
      var w2 := NextWindow(w1, 1.0, 1.0, 2, 10.0);
      var w3 := NextWindow(w2, 2.0, 10.0, 2, 10.0);
      var w4 := NextWindow(w3, 10.5, 10.5, 2, 10.0);
      && w2 == [0.0, 1.0] && w3 == [10.0] && w4 == [10.0, 10.5]
      && 10.0 - 1.0 < 10.0 && 1.0 !in w3
      && 10.5 - 1.0 < 10.0 && |w4| == 2
  {
    var w1 := NextWindow([], 0.0, 0.0, 2, 10.0);
    assert Window([], 0.0, 10.0) == [];
    assert w1 == [0.0];
    var w2 := NextWindow(w1, 1.0, 1.0, 2, 10.0);
    assert Window([0.0], 1.0, 10.0) == [0.0];
    assert w2 == [0.0, 1.0];
    assert Window([0.0, 1.0], 2.0, 10.0) == [0.0, 1.0];
    assert Window([10.0], 10.5, 10.0) == [10.0];
  }

  /** The window of a sliding-window limiter: after the wait, the calls
      still younger than one period at the new timestamp stay counted.
      `stamp` is read after `now` (and after any wait). */
  function SlidingNextWindow(times: seq<real>, now: real, stamp: real, limit: int, period: real): (w: seq<real>)
    requires now <= stamp
    ensures forall t | t in times && stamp - t < period :: t in w
    ensures w != [] ==> w[|w| - 1] == stamp
    ensures |Window(times, now, period)| < limit ==> w == NextWindow(times, now, stamp, limit, period)
    ensures var recent := Window(times, now, period);
      limit >= 1 && |times| <= limit && (|recent| >= limit ==> stamp >= Minimum(recent) + period) ==> |w| <= limit
  {
    var recent := Window(times, now, period);
    if |recent| >= limit then
      if recent == [] then []
      else
        var kept := Window(recent, stamp, period);
        assert stamp - Minimum(recent) >= period ==> |kept| < |recent| by {
          if stamp - Minimum(recent) >= period {
            WindowDrops(recent, Minimum(recent), stamp, period);
          }
        }
        kept + [stamp]
    else recent + [stamp]
  }

  /** `min(xs)` */
  function Minimum(xs: seq<real>): (m: real)
    requires xs != []
    ensures m in xs && forall x | x in xs :: m <= x
  {
    if |xs| == 1 then xs[0]
    else
      var m := Minimum(xs[1..]);
      assert forall x | x in xs :: x == xs[0] || x in xs[1..];
      if xs[0] <= m then xs[0] else m
  }

  const MinOfEmpty: Error := Error(Builtin("ValueError"), "min() arg is an empty sequence")

  // ---------------------------------------------------------------------
  // Failure classification

  const TimeoutHead: string := "Request timeout for model "
  const TimeoutTail: string := ". Try increasing 'api.timeout' in config/settings.yaml or use a faster model."
  const ApiFailedHead: string := "API call failed: "

  predicate MentionsRateLimit(s: string) { Contains(s, "rate") && Contains(s, "limit") }
  predicate MentionsAuth(s: string) { Contains(s, "auth") || Contains(s, "unauthorized") || Contains(s, "401") }
  predicate MentionsNotFound(s: string) { Contains(s, "not found") || Contains(s, "404") }

  /** The exception `chat_completion` raises for a failure whose `str(e)` is
      `message`: the first match, in order, of rate limit, authentication,
      missing model and timeout, on the lower-cased text; otherwise a generic
      APIError that quotes the message. */
  function Classify(message: string, model: string): (e: Error)
    ensures IsA(e.kind, APIError)
    ensures var s := LowerStr(message);
      && (e.kind == RateLimitError <==> MentionsRateLimit(s))
      && (e.kind == AuthenticationError <==> !MentionsRateLimit(s) && MentionsAuth(s))
      && (e.kind == ModelNotFoundError <==> !MentionsRateLimit(s) && !MentionsAuth(s) && MentionsNotFound(s))
      && (e.kind == APIError <==> !MentionsRateLimit(s) && !MentionsAuth(s) && !MentionsNotFound(s))
    ensures e.kind == ModelNotFoundError ==> Contains(e.message, model)
    ensures e.kind == APIError && Contains(LowerStr(message), "timeout") ==> Contains(e.message, model)
    ensures e.kind == APIError && !Contains(LowerStr(message), "timeout") ==> Contains(e.message, message)
  {
    var s := LowerStr(message);
    ApiErrorFamily(RateLimitError);
    ApiErrorFamily(AuthenticationError);
    ApiErrorFamily(ModelNotFoundError);
    if MentionsRateLimit(s) then Raise(RateLimitError, None)
    else if MentionsAuth(s) then Raise(AuthenticationError, None)
    else if MentionsNotFound(s) then ModelNotFound(model)
    else if Contains(s, "timeout") then
      ContainsMiddle(TimeoutHead, model, TimeoutTail);
      Raise(APIError, Some(TimeoutHead + model + TimeoutTail))
    else
      ContainsMiddle(ApiFailedHead, message, []);
      assert ApiFailedHead + message + [] == ApiFailedHead + message;
      Raise(APIError, Some(ApiFailedHead + message))
  }

  // ---------------------------------------------------------------------
  // Structured output

  const SchemaIntro: string := "\n\nYou must respond with valid JSON matching this schema:\n"
  const DefaultSystemPrompt: string := "You are a helpful assistant."

  function JsonInstruction(schema: string): string {
    SchemaIntro + schema
  }

  /** The index of the first system message, or -1. */
  function SystemIndex(messages: seq<Message>): (i: int)
    ensures -1 <= i < |messages|
    ensures 0 <= i ==> messages[i].role == "system" && forall j | 0 <= j < i :: messages[j].role != "system"
    ensures i < 0 ==> forall j | 0 <= j < |messages| :: messages[j].role != "system"
  {
    if messages == [] then -1
    else if messages[0].role == "system" then 0
    else
      var i := SystemIndex(messages[1..]);
      assert forall j | 1 <= j < |messages| :: messages[j] == messages[1..][j - 1];
      if i < 0 then -1 else i + 1
  }

  /** `messages` after chat_completion_with_structured_output has added the
      schema instruction: appended to the first system message, or in a new
      system message inserted first. */
  function WithSchemaInstruction(messages: seq<Message>, schema: string): (r: seq<Message>)
    ensures SystemIndex(messages) >= 0 ==>
      var i := SystemIndex(messages);
      |r| == |messages| && r[i] == Message("system", messages[i].content + JsonInstruction(schema))
      && forall j | 0 <= j < |messages| && j != i :: r[j] == messages[j]
    ensures SystemIndex(messages) < 0 ==>
      r == [Message("system", DefaultSystemPrompt + JsonInstruction(schema))] + messages
  {
    var i := SystemIndex(messages);
    if i >= 0 then messages[i := Message("system", messages[i].content + JsonInstruction(schema))]
    else [Message("system", DefaultSystemPrompt + JsonInstruction(schema))] + messages
  }

  /** After the instruction is added, the first system message ends with it,
      the messages that were there keep their order, and at most one new
      message appears. */
  lemma SchemaInstructionPlaced(messages: seq<Message>, schema: string)
    ensures var r := WithSchemaInstruction(messages, schema);
      var i := SystemIndex(r);
      var instruction := JsonInstruction(schema);
      && i >= 0
      && |instruction| <= |r[i].content|
      && r[i].content[|r[i].content| - |instruction|..] == instruction
      && |messages| <= |r| <= |messages| + 1
  {
    var r := WithSchemaInstruction(messages, schema);
    var k := SystemIndex(messages);
    if k >= 0 {
      assert r[k].role == "system";
      assert forall j | 0 <= j < k :: r[j] == messages[j];
      assert SystemIndex(r) == k;
    } else {
      assert r[0].role == "system";
      assert SystemIndex(r) == 0;
    }
  }

  // ---------------------------------------------------------------------
  // Image URLs

  /** The two regular-expression scans, in order: markdown images, then
      plain URLs. */
  datatype UrlScanner = UrlScanner(markdownImages: string -> seq<string>, plainUrls: string -> seq<string>)

  /** `_extract_image_urls_from_markdown`: markdown image links when there are
      any, otherwise every plain URL. */
  function ExtractImageUrls(scan: UrlScanner, content: string): (urls: seq<string>)
    ensures scan.markdownImages(content) != [] ==> urls == scan.markdownImages(content)
    ensures scan.markdownImages(content) == [] ==> urls == scan.plainUrls(content)
  {
    var urls := scan.markdownImages(content);
    if urls == [] then scan.plainUrls(content) else urls
  }

  /** `str(e)` for the exceptions the image path raises itself: `None.usage`
      or `None.choices` when no attempt was allowed, `re.findall` on a None
      content, and the missing `self.logger` when no URL was found. */
  const NoUsageMessage: string := "'NoneType' object has no attribute 'usage'"
  const NoChoicesMessage: string := "'NoneType' object has no attribute 'choices'"
  const NotAStringMessage: string := "expected string or bytes-like object, got 'NoneType'"
  const NoLoggerMessage: string := "'OpenRouterClient' object has no attribute 'logger'"

  // ---------------------------------------------------------------------
  // Cost summary

  datatype ModelStats = ModelStats(calls: nat, inputTokens: int, outputTokens: int)

  datatype CostSummary = CostSummary(
    totalCalls: nat,
    successfulCalls: nat,
    failedCalls: nat,
    modelStats: seq<(string, ModelStats)>)

  /** `[log for log in call_logs if log.success == success]` */
  function WithOutcome(logs: seq<CallLog>, success: bool): (r: seq<CallLog>)
    ensures |r| <= |logs|
    ensures forall l | l in r :: l in logs && l.success == success
  {
    if logs == [] then []
    else
      var init := WithOutcome(logs[..|logs| - 1], success);
      var last := logs[|logs| - 1];
      assert forall l | l in logs[..|logs| - 1] :: l in logs;
      if last.success == success then init + [last] else init
  }

  /** Every call is either successful or failed. */
  lemma {:induction false} OutcomesPartition(logs: seq<CallLog>)
    ensures |WithOutcome(logs, true)| + |WithOutcome(logs, false)| == |logs|
  {
    if logs != [] {
      OutcomesPartition(logs[..|logs| - 1]);
    }
  }

  /** The logs of one model, in order. */
  function OfModel(logs: seq<CallLog>, model: string): (r: seq<CallLog>)
    ensures forall l | l in r :: l in logs && l.model == model
  {
    if logs == [] then []
    else
      var init := OfModel(logs[..|logs| - 1], model);
      var last := logs[|logs| - 1];
      assert forall l | l in logs[..|logs| - 1] :: l in logs;
      if last.model == model then init + [last] else init
  }

  /** `sum(x or 0 for x in counts)` */
  function SumTokens(counts: seq<Option<int>>): int {
    if counts == [] then 0 else SumTokens(counts[..|counts| - 1]) + counts[|counts| - 1].GetOr(0)
  }

  function InputCounts(logs: seq<CallLog>): seq<Option<int>> {
    seq(|logs|, i requires 0 <= i < |logs| => logs[i].inputTokens)
  }

  function OutputCounts(logs: seq<CallLog>): seq<Option<int>> {
    seq(|logs|, i requires 0 <= i < |logs| => logs[i].outputTokens)
  }

  /** The position of `model` among the groups, or -1. */
  function ModelIndex(groups: seq<(string, seq<CallLog>)>, model: string): (i: int)
    ensures -1 <= i < |groups|
    ensures 0 <= i ==> groups[i].0 == model
    ensures i < 0 ==> forall j | 0 <= j < |groups| :: groups[j].0 != model
  {
    if groups == [] then -1
    else if groups[|groups| - 1].0 == model then |groups| - 1
    else ModelIndex(groups[..|groups| - 1], model)
  }

  predicate DistinctModels(groups: seq<(string, seq<CallLog>)>) {
    forall i, j | 0 <= i < j < |groups| :: groups[i].0 != groups[j].0
  }

  /** `calls_by_model[log.model].append(log)`, creating the group first
      when the model is new. */
  function GroupAdd(groups: seq<(string, seq<CallLog>)>, log: CallLog): seq<(string, seq<CallLog>)> {
    var i := ModelIndex(groups, log.model);
    if i < 0 then groups + [(log.model, [log])]
    else groups[i := (log.model, groups[i].1 + [log])]
  }

  /** `calls_by_model`: the logs grouped by model, models in the order they
      first appear. */
  function Group(logs: seq<CallLog>): seq<(string, seq<CallLog>)> {
    if logs == [] then [] else GroupAdd(Group(logs[..|logs| - 1]), logs[|logs| - 1])
  }

  /** No model has two groups. */
  lemma {:induction false} GroupDistinct(logs: seq<CallLog>)
    ensures DistinctModels(Group(logs))
  {
    if logs != [] {
      GroupDistinct(logs[..|logs| - 1]);
    }
  }

  /** Every log's model has a group. */
  lemma {:induction false} GroupCovers(logs: seq<CallLog>)
    ensures forall l | l in logs :: ModelIndex(Group(logs), l.model) >= 0
  {
    if logs != [] {
      var init := logs[..|logs| - 1];
      var last := logs[|logs| - 1];
      GroupCovers(init);
      var prev := Group(init);
      var g := Group(logs);
      var i := ModelIndex(prev, last.model);
      var at := if i < 0 then |prev| else i;
      if i < 0 {
        assert g == prev + [(last.model, [last])];
      } else {
        assert g == prev[i := (last.model, prev[i].1 + [last])];
      }
      assert g[at].0 == last.model;
      forall l | l in logs
        ensures ModelIndex(g, l.model) >= 0
      {
        if l != last {
          assert l in init;
          var k := ModelIndex(prev, l.model);
          assert g[k].0 == l.model;
        }
      }
    }
  }

  /** Each group holds exactly its model's logs, in order. */
  lemma {:induction false} GroupContents(logs: seq<CallLog>)
    ensures forall i | 0 <= i < |Group(logs)| :: Group(logs)[i].1 == OfModel(logs, Group(logs)[i].0)
    ensures forall i | 0 <= i < |Group(logs)| :: Group(logs)[i].1 != []
  {
    if logs != [] {
      var init := logs[..|logs| - 1];
      var last := logs[|logs| - 1];
      GroupContents(init);
      GroupDistinct(init);
      var prev := Group(init);
      var g := Group(logs);
      var i := ModelIndex(prev, last.model);
      if i < 0 {
        GroupCovers(init);
        OfModelAbsent(init, last.model);
        assert g == prev + [(last.model, [last])];
        forall j | 0 <= j < |g|
          ensures g[j].1 == OfModel(logs, g[j].0) && g[j].1 != []
        {
          if j < |prev| {
            assert g[j] == prev[j] && prev[j].0 != last.model;
            assert prev[j].1 == OfModel(init, prev[j].0);
            assert OfModel(logs, prev[j].0) == OfModel(init, prev[j].0);
          } else {
            assert OfModel(logs, last.model) == [] + [last];
          }
        }
      } else {
        assert g == prev[i := (last.model, prev[i].1 + [last])];
        forall j | 0 <= j < |g|
          ensures g[j].1 == OfModel(logs, g[j].0) && g[j].1 != []
        {
          assert prev[j].1 == OfModel(init, prev[j].0);
          if j != i {
            assert g[j] == prev[j] && prev[j].0 != last.model;
            assert OfModel(logs, prev[j].0) == OfModel(init, prev[j].0);
          } else {
            assert OfModel(logs, last.model) == OfModel(init, last.model) + [last];
          }
        }
      }
    }
  }

  /** A model with no log among the first ones has no log there. */
  lemma {:induction false} OfModelAbsent(logs: seq<CallLog>, model: string)
    requires forall l | l in logs :: l.model != model
    ensures OfModel(logs, model) == []
  {
    if logs != [] {
      assert forall l | l in logs[..|logs| - 1] :: l in logs;
      OfModelAbsent(logs[..|logs| - 1], model);
    }
  }

  function StatsFor(group: seq<CallLog>): ModelStats {
    ModelStats(|group|, SumTokens(InputCounts(group)), SumTokens(OutputCounts(group)))
  }

  /** `model_stats`, built group by group. */
  function StatsOf(groups: seq<(string, seq<CallLog>)>): (s: seq<(string, ModelStats)>)
    ensures |s| == |groups|
    ensures forall i | 0 <= i < |groups| :: s[i] == (groups[i].0, StatsFor(groups[i].1))
  {
    if groups == [] then []
    else StatsOf(groups[..|groups| - 1]) + [(groups[|groups| - 1].0, StatsFor(groups[|groups| - 1].1))]
  }

  /** What `get_cost_summary` returns for a log. */
  function Summary(logs: seq<CallLog>): CostSummary {
    var ok := WithOutcome(logs, true);
    CostSummary(|logs|, |ok|, |WithOutcome(logs, false)|, StatsOf(Group(ok)))
  }

  function TotalCalls(stats: seq<(string, ModelStats)>): nat {
    if stats == [] then 0 else TotalCalls(stats[..|stats| - 1]) + stats[|stats| - 1].1.calls
  }

  function GroupSize(groups: seq<(string, seq<CallLog>)>): nat {
    if groups == [] then 0 else GroupSize(groups[..|groups| - 1]) + |groups[|groups| - 1].1|
  }

  lemma {:induction false} GroupSizeAdd(groups: seq<(string, seq<CallLog>)>, i: nat, model: string, log: CallLog)
    requires i < |groups|
    ensures GroupSize(groups[i := (model, groups[i].1 + [log])]) == GroupSize(groups) + 1
    decreases |groups|
  {
    var g := groups[i := (model, groups[i].1 + [log])];
    if i < |groups| - 1 {
      assert g[..|g| - 1] == groups[..|groups| - 1][i := (model, groups[i].1 + [log])];
      GroupSizeAdd(groups[..|groups| - 1], i, model, log);
    } else {
      assert g[..|g| - 1] == groups[..|groups| - 1];
    }
  }

  /** Grouping loses and invents no call. */
  lemma {:induction false} GroupSizeIsCount(logs: seq<CallLog>)
    ensures GroupSize(Group(logs)) == |logs|
  {
    if logs != [] {
      var init := logs[..|logs| - 1];
      var last := logs[|logs| - 1];
      GroupSizeIsCount(init);
      var prev := Group(init);
      var i := ModelIndex(prev, last.model);
      if i < 0 {
        assert (prev + [(last.model, [last])])[..|prev|] == prev;
      } else {
        GroupSizeAdd(prev, i, last.model, last);
      }
    }
  }

  lemma {:induction false} TotalCallsIsGroupSize(groups: seq<(string, seq<CallLog>)>)
    ensures TotalCalls(StatsOf(groups)) == GroupSize(groups)
  {
    if groups != [] {
      var s := StatsOf(groups);
      assert s[..|s| - 1] == StatsOf(groups[..|groups| - 1]);
      TotalCallsIsGroupSize(groups[..|groups| - 1]);
    }
  }

  /** The summary's counts agree: every call is successful or failed, the
      per-model call counts add up to the successful calls, and each
      model's entry counts exactly that model's successful calls and their
      token totals. */
  lemma SummaryConsistent(logs: seq<CallLog>)
    ensures var s := Summary(logs);
      && s.totalCalls == s.successfulCalls + s.failedCalls
      && TotalCalls(s.modelStats) == s.successfulCalls
      && forall i | 0 <= i < |s.modelStats| ::
           var ofModel := OfModel(WithOutcome(logs, true), s.modelStats[i].0);
           && s.modelStats[i].1 == StatsFor(ofModel)
           && forall l | l in ofModel :: l.success
  {
    OutcomesPartition(logs);
    var ok := WithOutcome(logs, true);
    GroupContents(ok);
    GroupSizeIsCount(ok);
    TotalCallsIsGroupSize(Group(ok));
  }

  // ---------------------------------------------------------------------
  // The client

  /** The client's mutable state: the log of calls, the running cost, the
      rate-limit window and the settings it was built with. */
  class OpenRouterClient {
    var callLogs: seq<CallLog>
    var totalCost: real
    var callTimes: seq<real>
    const rateLimit: int
    const ratePeriod: real
    const retryAttempts: int
    const imageModel: string

    constructor(rateLimit: int, ratePeriod: real, retryAttempts: int, imageModel: string)
      ensures callLogs == [] && totalCost == 0.0 && callTimes == []
      ensures this.rateLimit == rateLimit && this.ratePeriod == ratePeriod
      ensures this.retryAttempts == retryAttempts && this.imageModel == imageModel
    {
      this.rateLimit := rateLimit;
      this.ratePeriod := ratePeriod;
      this.retryAttempts := retryAttempts;
      this.imageModel := imageModel;
      callLogs := [];
      totalCost := 0.0;
      callTimes := [];
    }

    /** Whether `_check_rate_limit` at time `now` raises: the window is due
        for a wait but empty, so `min` has nothing to take. */
    predicate LimitRaises(now: real)
      reads this
    {
      var w := Window(callTimes, now, ratePeriod);
      |w| >= rateLimit && w == []
    }

    /** `_check_rate_limit`: forget calls a period old; when the window is
        full, wait until its oldest call leaves it and start a new window;
        record this call at `stamp`. Returns the wait. */
    method CheckRateLimit(now: real, stamp: real) returns (r: Result<Option<real>, Error>)
      modifies this
      ensures callLogs == old(callLogs) && totalCost == old(totalCost)
      ensures var w := Window(old(callTimes), now, ratePeriod);
        && (|w| >= rateLimit && w == [] ==> r == Failure(MinOfEmpty) && callTimes == [])
        && (|w| >= rateLimit && w != [] ==>
              r == Success(Some(ratePeriod - (now - Minimum(w)))) && r.value.value > 0.0 && callTimes == [stamp])
        && (|w| < rateLimit ==> r == Success(None) && callTimes == w + [stamp])
      ensures r.Failure? <==> old(LimitRaises(now))
      ensures r.Success? && rateLimit >= 1 ==> |callTimes| <= rateLimit
      ensures callTimes == NextWindow(old(callTimes), now, stamp, rateLimit, ratePeriod)
    {
      callTimes := Window(callTimes, now, ratePeriod);
      var waited: Option<real> := None;
      if |callTimes| >= rateLimit {
        if callTimes == [] {
          return Failure(MinOfEmpty);
        }
        var wait := ratePeriod - (now - Minimum(callTimes));
        if wait > 0.0 {
          waited := Some(wait);
          callTimes := [];
        }
      }
      callTimes := callTimes + [stamp];
      r := Success(waited);
    }

    /** `_log_call` */
    method LogCall(log: CallLog)
      modifies this
      ensures callLogs == old(callLogs) + [log]
      ensures totalCost == old(totalCost) && callTimes == old(callTimes)
    {
      callLogs := callLogs + [log];
    }

    /** `chat_completion`: rate limit (whose error is not caught), then the
        retried call; one log record either way; a failure raised as the
        exception its message classifies to. */
    method ChatCompletion(model: string, messages: seq<Message>, temperature: real, maxTokens: int,
                          responseFormat: Value, send: (Request, nat) -> Result<Response, string>,
                          now: real, stamp: real)
      returns (r: Result<Response, Error>)
      modifies this
      ensures totalCost == old(totalCost)
      ensures callTimes == NextWindow(old(callTimes), now, stamp, rateLimit, ratePeriod)
      ensures old(LimitRaises(now)) ==> r == Failure(MinOfEmpty) && callLogs == old(callLogs)
      ensures !old(LimitRaises(now)) ==>
        var o := ChatOutcome(send, ChatRequest(model, messages, temperature, maxTokens, responseFormat), retryAttempts);
        && (o.Success? ==>
              && r == Success(o.value)
              && callLogs == old(callLogs) + [SuccessLog(model, "chat_completion", o.value.promptTokens, o.value.completionTokens)])
        && (o.Failure? ==>
              && r == Failure(Classify(o.error, model))
              && callLogs == old(callLogs) + [FailureLog(model, "chat_completion", o.error)])
      ensures r.Failure? ==> r.error == MinOfEmpty || IsA(r.error.kind, APIError)
    {
      var limited := CheckRateLimit(now, stamp);
      if limited.Failure? {
        return Failure(limited.error);
      }
      var request := ChatRequest(model, messages, temperature, maxTokens, responseFormat);
      var reply, _ := RetryWithBackoff((attempt: nat) => send(request, attempt), retryAttempts);
      if reply.Success? && reply.value.Some? {
        var response := reply.value.value;
        LogCall(SuccessLog(model, "chat_completion", response.promptTokens, response.completionTokens));
        return Success(response);
      }
      var message := if reply.Failure? then reply.error else NoUsageMessage;
      LogCall(FailureLog(model, "chat_completion", message));
      r := Failure(Classify(message, model));
    }

    /** `chat_completion_with_structured_output`: add the schema instruction
        to the messages (returned, as the caller's list is changed in place),
        ask for a JSON object, then parse the content and build the record;
        parse and build failures propagate as they are. */
    method ChatCompletionWithStructuredOutput<T>(model: string, messages: seq<Message>, schema: string,
                                                 temperature: real, maxTokens: int,
                                                 parse: string -> Result<Value, Error>, build: Value -> Result<T, Error>,
                                                 send: (Request, nat) -> Result<Response, string>,
                                                 now: real, stamp: real)
      returns (sent: seq<Message>, r: Result<T, Error>)
      modifies this
      ensures sent == WithSchemaInstruction(messages, schema)
      ensures totalCost == old(totalCost)
      ensures callTimes == NextWindow(old(callTimes), now, stamp, rateLimit, ratePeriod)
      ensures old(LimitRaises(now)) ==> r == Failure(MinOfEmpty) && callLogs == old(callLogs)
      ensures !old(LimitRaises(now)) ==>
        var o := ChatOutcome(send, ChatRequest(model, sent, temperature, maxTokens, JsonObjectFormat), retryAttempts);
        && (o.Failure? ==>
              && r == Failure(Classify(o.error, model))
              && callLogs == old(callLogs) + [FailureLog(model, "chat_completion", o.error)])
        && (o.Success? ==>
              && r == Structured(o.value, parse, build)
              && callLogs == old(callLogs) + [SuccessLog(model, "chat_completion", o.value.promptTokens, o.value.completionTokens)])
    {
      sent := WithSchemaInstruction(messages, schema);
      var reply := ChatCompletion(model, sent, temperature, maxTokens, JsonObjectFormat, send, now, stamp);
      if reply.Failure? {
        return sent, Failure(reply.error);
      }
      r := Structured(reply.value, parse, build);
    }

    /** `generate_image`: the call failures, a missing content and an empty
        URL list are all logged and answered with []; only the rate
        limiter's own error escapes. */
    method GenerateImage(prompt: string, model: Option<string>, send: (Request, nat) -> Result<Response, string>,
                         scan: UrlScanner, now: real, stamp: real)
      returns (r: Result<seq<string>, Error>)
      modifies this
      ensures totalCost == old(totalCost)
      ensures callTimes == NextWindow(old(callTimes), now, stamp, rateLimit, ratePeriod)
      ensures old(LimitRaises(now)) ==> r == Failure(MinOfEmpty) && callLogs == old(callLogs)
      ensures !old(LimitRaises(now)) ==>
        var name := model.GetOr(imageModel);
        var reply := Retry((attempt: nat) => send(ImageRequest(name, prompt), attempt), retryAttempts, 0);
        r == Success(ImageUrls(reply, scan)) && callLogs == old(callLogs) + ImageLogs(name, reply, scan)
    {
      var name := model.GetOr(imageModel);
      var limited := CheckRateLimit(now, stamp);
      if limited.Failure? {
        return Failure(limited.error);
      }
      var request := ImageRequest(name, prompt);
      var reply, _ := RetryWithBackoff((attempt: nat) => send(request, attempt), retryAttempts);
      if reply.Failure? {
        LogCall(FailureLog(name, "image_generation", reply.error));
        return Success([]);
      }
      LogCall(SuccessLog(name, "image_generation", None, None));
      if reply.value.None? {
        LogCall(FailureLog(name, "image_generation", NoChoicesMessage));
        return Success([]);
      }
      var content := reply.value.value.content;
      if content.None? {
        LogCall(FailureLog(name, "image_generation", NotAStringMessage));
        return Success([]);
      }
      var urls := ExtractImageUrls(scan, content.value);
      if urls == [] {
        LogCall(FailureLog(name, "image_generation", NoLoggerMessage));
        return Success([]);
      }
      r := Success(urls);
    }

    /** `get_cost_summary`: two loops, one grouping the successful calls by
        model, one totalling each group. */
    method GetCostSummary() returns (summary: CostSummary)
      ensures summary == Summary(callLogs)
    {
      var ok := WithOutcome(callLogs, true);
      var failed := WithOutcome(callLogs, false);
      var groups: seq<(string, seq<CallLog>)> := [];
      var i := 0;
      while i < |ok|
        invariant 0 <= i <= |ok|
        invariant groups == Group(ok[..i])
      {
        assert ok[..i + 1][..i] == ok[..i];
        var log := ok[i];
        var k := ModelIndex(groups, log.model);
        if k < 0 {
          groups := groups + [(log.model, [log])];
        } else {
          groups := groups[k := (log.model, groups[k].1 + [log])];
        }
        i := i + 1;
      }
      assert ok[..i] == ok;
      var stats: seq<(string, ModelStats)> := [];
      var j := 0;
      while j < |groups|
        invariant 0 <= j <= |groups|
        invariant stats == StatsOf(groups[..j])
      {
        assert groups[..j + 1][..j] == groups[..j];
        stats := stats + [(groups[j].0, StatsFor(groups[j].1))];
        j := j + 1;
      }
      assert groups[..j] == groups;
      summary := CostSummary(|callLogs|, |ok|, |failed|, stats);
    }

    /** `clear_logs` */
    method ClearLogs()
      modifies this
      ensures callLogs == [] && totalCost == 0.0 && callTimes == old(callTimes)
    {
      callLogs := [];
      totalCost := 0.0;
    }
  }

  /** `OpenRouterClient()`: a missing or empty OPENROUTER_API_KEY raises
      AuthenticationError before anything else is set up. */
  method Connect(apiKey: Option<string>, rateLimit: int, ratePeriod: real, retryAttempts: int, imageModel: string)
    returns (r: Result<OpenRouterClient, Error>)
    ensures r.Failure? <==> apiKey.None? || apiKey.value == ""
    ensures r.Failure? ==> r.error == Raise(AuthenticationError, None)
    ensures r.Success? ==>
      && fresh(r.value) && r.value.callLogs == [] && r.value.callTimes == []
      && r.value.rateLimit == rateLimit && r.value.ratePeriod == ratePeriod
  {
    if apiKey.None? || apiKey.value == "" {
      return Failure(Raise(AuthenticationError, None));
    }
    var client := new OpenRouterClient(rateLimit, ratePeriod, retryAttempts, imageModel);
    r := Success(client);
  }

  // ---------------------------------------------------------------------
  // What the client methods are specified by

  const JsonObjectFormat: Value := Dict([("type", Str("json_object"))])

  /** The request `chat_completion` sends: `response_format` only when it is
      truthy. */
  function ChatRequest(model: string, messages: seq<Message>, temperature: real, maxTokens: int, responseFormat: Value): Request {
    Request(model, messages, Some(temperature), maxTokens, if Truthy(responseFormat) then Some(responseFormat) else None)
  }

  function ImageRequest(model: string, prompt: string): Request {
    Request(model, [Message("user", prompt)], None, 1000, None)
  }

  /** The response of the retried call, or the message of the exception
      `chat_completion` catches: the last attempt's, or reading `usage` from
      the None that a loop without attempts returns. */
  function ChatOutcome(send: (Request, nat) -> Result<Response, string>, request: Request, retries: int): Result<Response, string> {
    match Retry((attempt: nat) => send(request, attempt), retries, 0)
    case Success(Some(response)) => Success(response)
    case Success(None) => Failure(NoUsageMessage)
    case Failure(message) => Failure(message)
  }

  /** `json.loads(content)` then `response_model(**data)`; a None content
      makes `json.loads` raise TypeError. */
  function Structured<T>(response: Response, parse: string -> Result<Value, Error>, build: Value -> Result<T, Error>): Result<T, Error> {
    if response.content.None? then Failure(Error(Builtin("TypeError"), "the JSON object must be str, bytes or bytearray, not NoneType"))
    else
      var data := parse(response.content.value);
      if data.Failure? then Failure(data.error) else build(data.value)
  }

  /** The URLs `generate_image` returns for the retried call's outcome. */
  function ImageUrls(reply: Result<Option<Response>, string>, scan: UrlScanner): seq<string> {
    if reply.Success? && reply.value.Some? && reply.value.value.content.Some? then
      ExtractImageUrls(scan, reply.value.value.content.value)
    else []
  }

  /** The log records `generate_image` adds: a failure for a failed call; a
      success, then a failure when the reply yields no URL. */
  function ImageLogs(model: string, reply: Result<Option<Response>, string>, scan: UrlScanner): seq<CallLog> {
    var op := "image_generation";
    if reply.Failure? then [FailureLog(model, op, reply.error)]
    else if reply.value.None? then [SuccessLog(model, op, None, None), FailureLog(model, op, NoChoicesMessage)]
    else if reply.value.value.content.None? then [SuccessLog(model, op, None, None), FailureLog(model, op, NotAStringMessage)]
    else if ImageUrls(reply, scan) == [] then [SuccessLog(model, op, None, None), FailureLog(model, op, NoLoggerMessage)]
    else [SuccessLog(model, op, None, None)]
  }

  /** Image generation logs one record per call when URLs come back and two
      otherwise, the last of which is a failure whenever the result is
      empty; a successful call is always logged as such first. */
  lemma ImageLogsShape(model: string, reply: Result<Option<Response>, string>, scan: UrlScanner)
    ensures var logs := ImageLogs(model, reply, scan);
      && 1 <= |logs| <= 2
      && (ImageUrls(reply, scan) == [] <==> !logs[|logs| - 1].success)
      && (reply.Success? ==> logs[0].success)
      && (|logs| == 2 <==> reply.Success? && ImageUrls(reply, scan) == [])
  {
  }
}
