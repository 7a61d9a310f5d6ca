# Synthetic consumer research: a Dafny model of the deterministic core

The system generates product concepts with an LLM. It tests each concept on
a synthetic population of consumer personas and scores the simulated
responses as a product-market-fit survey. It refines the concept until the
score reaches a threshold or the iteration budget is spent, then writes
social-media posts about the result.

This project models the deterministic parts of that pipeline and proves
properties of them. The LLM, the semantic-similarity rater and the clock are
parameters. One Dafny module stands for each source file:

| module | source file | what it models |
|---|---|---|
| `MarketPredictor` (+ `MarketMetrics`, `Ranking`) | src/agents/market_predictor.py | the fit score computed from per-respondent rating distributions: segments, NPS, PMF score, superfans, `most_common` lists, decision tables; the simulate loop; sample feedback |
| `Workflow` | src/orchestration/workflow.py | the state, the partial updates of the nodes, the graph's edges, and `run` as a loop over passes |
| `PersonaGenerator` | src/agents/persona_generator.py | the batch loop with its cache and three-strikes budget; reply repair, key cleaning, record selection and per-record discard |
| `ApiManager` | src/utils/api_manager.py | the client object: sliding-window rate limiter, retry with backoff, error classification, call log, schema-instruction injection, image failure path, cost summary |
| `ConfigLoader` | src/utils/config_loader.py | `_validate`'s guard chain, strict property access, `get_setting`, `get_prompt`, `is_feature_enabled` |
| `Files` | src/utils/file_manager.py | filename sanitising and the run-directory layout |
| `Exceptions` | src/utils/exceptions.py | the exception classes, their hierarchy and their messages |
| `XComposer`, `LinkedInComposer` (+ `Posts`) | src/post_composer/x_composer.py, src/post_composer/linkedin_composer.py | the length cascades, sections, hashtags, threads and article intro |

`Py` and `Records` are shared support modules:

- `Py` holds Python's slicing, ASCII lowercasing, substring search, `startswith`, `strip`, `replace`, `join` and `str(int)`.
- `Records` holds JSON-like values and the records (concept, persona, response, critic feedback) built from the fields the code reads.

Floats are modelled as `real`. Python's `int()` truncation toward zero, `round()` half to even, and `f"{x:.0f}"`/`f"{x:.1f}"` are written out explicitly.

What the code computes, in the places where it is easy to assume otherwise:

- **Superfans and segments.** Superfans are counted per respondent: expected interest ≥ 4.5 and expected disappointment ≥ 4.0. Segments are likewise counted from each respondent's expected score.
- **NPS.** Each respondent's expected recommendation is rescaled to 0–10 and bucketed: promoters are ≥ 9, detractors ≤ 6. The percentage difference is truncated with `int()`, so a uniform population has NPS −100.
- **Persona generation failure.** Three consecutive empty batches raise `PersonaGenerationError`. Only `generate_targeted_personas` falls back, to `generate_personas`.
- **Rating dimensions.** There are three rating dimensions: interest, disappointment and recommendation.

## Model

| member | source | states |
|---|---|---|
| MarketPredictor.CalculatePmf | src/agents/market_predictor.py:219-361 | fails exactly on an empty response list, with InsufficientDataError(required 10, actual 0); otherwise flags fewer than 10 responses as unreliable and reports the response count |
| MarketPredictor.InterestSegmentsPartition | src/agents/market_predictor.py:283-296 | the enthusiast, interested and skeptical percentages sum to 100: every respondent falls in exactly one interest segment |
| MarketPredictor.DisappointmentSegmentsPartition | src/agents/market_predictor.py:288-299 | the very/somewhat/not-disappointed counts partition the population and their percentages sum to 100 |
| MarketPredictor.PromoterSegmentsPartition | src/agents/market_predictor.py:264-302 | promoter, passive and detractor percentages sum to 100, with passives between 0 and 100 |
| MarketPredictor.NpsOfBounds | src/agents/market_predictor.py:267 | the truncated NPS lies in [-100, 100], is positive only with more promoters than detractors, and negative only with fewer; it is ±100 for all promoters or all detractors |
| MarketPredictor.NpsBounds | src/agents/market_predictor.py:260-267 | the same bounds and sign facts for the NPS of a population of ratings |
| MarketPredictor.ScoreBounds | src/agents/market_predictor.py:252-272 | for valid distributions, the PMF score is in [0, 100] and the average interest in [1, 5] |
| MarketPredictor.CalculatePmfBounds | src/agents/market_predictor.py:219-272 | with raters that return valid distributions, the assessment has PMF score in [0, 100], average interest in [1, 5] and NPS in [-100, 100] |
| MarketPredictor.PmfScoreMonotone | src/agents/market_predictor.py:271-272 | raising any respondent's probability of disappointment level 4 or 5 never lowers the PMF score |
| MarketPredictor.SuperfansAreEnthusiasts | src/agents/market_predictor.py:279-306 | superfans are a subset of enthusiasts: superfan % ≤ enthusiast %; the superfan ratio is in [0, 1] and is the superfan % over 100; the target market size lies between the enthusiast % and twice it |
| MarketPredictor.RecommendationTable | src/agents/market_predictor.py:337-347 | the recommendation is PROCEED iff the superfan ratio is ≥ 0.10, mass market iff also ≥ 40 % enthusiasts, REFINE iff ratio < 0.10 with ≥ 30 % enthusiasts or ≥ 50 % interested, and PIVOT otherwise |
| MarketPredictor.RecommendationTextPrefix | src/agents/market_predictor.py:339-347 | the text starts with the PROCEED, REFINE or PIVOT marker exactly for the matching recommendations |
| MarketPredictor.BusinessModelTable | src/agents/market_predictor.py:319-347 | the business model is chosen on ratio bands ≥ 0.15 and [0.10, 0.15), then on the enthusiast cut points, and agrees with the recommendation table (mid-market exactly when the recommendation is REFINE-moderate) |
| MarketPredictor.InterestDistributionTotal | src/agents/market_predictor.py:275-276 | the interest distribution has keys 1..5 with non-negative counts; each count is rounded separately, so their total is within 2.5 of the population size |
| MarketPredictor.LevelMassesTotal | src/agents/market_predictor.py:275 | summed over levels 1..5, the per-level interest masses add up to the population size |
| MarketMetrics.ExpectedScore | src/agents/market_predictor.py:252 | the expected score of a probability distribution over 1..5 lies in [1, 5] |
| MarketMetrics.TopTwoMass | src/agents/market_predictor.py:271 | a respondent's probability of disappointment level 4 or 5 lies in [0, 1] |
| MarketMetrics.MeanBounds | src/agents/market_predictor.py:253 | the mean of values bounded by lo and hi is bounded by them |
| MarketMetrics.MeanMonotone | src/agents/market_predictor.py:272 | raising every value never lowers the mean |
| MarketMetrics.Pct | src/agents/market_predictor.py:293-302 | a share of the total is a percentage between 0 and 100; all of it is 100, none of it 0 |
| MarketMetrics.PctSum3 | src/agents/market_predictor.py:293-302 | shares of three counts that add up to the total sum to 100 % |
| MarketMetrics.CountPartition3 | src/agents/market_predictor.py:283-290 | three mutually exclusive, exhaustive tests count every respondent exactly once |
| MarketMetrics.CountSubset | src/agents/market_predictor.py:279-283 | a stricter test counts no more respondents |
| MarketMetrics.TruncateTowardZero | src/agents/market_predictor.py:267 | `int()` of a real: the integer between it and zero that is less than 1 away |
| MarketMetrics.RoundHalfEven | src/agents/market_predictor.py:276 | `round()`: within 0.5, and even on a tie |
| MarketPredictor.TopListsSpec | src/agents/market_predictor.py:308-316 | top benefits and top concerns hold min(5, number of distinct values) distinct strings, drawn from the main benefits and from the flattened concerns |
| Ranking.Distinct | src/agents/market_predictor.py:310 | the Counter's keys: exactly the values of the input, each once |
| Ranking.TopK | src/agents/market_predictor.py:311 | min(n, candidates) distinct candidates, none for a negative n |
| Ranking.TopKSorted | src/agents/market_predictor.py:311 | the chosen values are in strictly decreasing (frequency, earlier first appearance) order |
| Ranking.TopKMaximal | src/agents/market_predictor.py:311 | every chosen value ranks ahead of every candidate left out |
| Ranking.MostCommonSpec | src/agents/market_predictor.py:310-311 | `most_common(n)` keeps min(n, distinct) distinct values of the input in non-increasing frequency, ties by first appearance, and leaves out no value more frequent than one it keeps |
| MarketPredictor.UniformPopulation | src/agents/market_predictor.py:252-347 | uniform [0.2]*5 ratings give PMF score 40, average interest 3, NPS -100, superfan ratio 0, 100 % interested, REFINE-lukewarm, needs-refinement |
| MarketPredictor.UnanimousPopulation | src/agents/market_predictor.py:252-347 | all-top ratings give PMF score 100, interest 5, NPS 100, superfan ratio 1, target market 200 %, PROCEED mass market, freemium |
| MarketPredictor.Simulated | src/agents/market_predictor.py:123-191 | the responses are, in persona order, those whose simulation succeeded, each stamped with its persona's name; none is lost when all succeed |
| MarketPredictor.SimulateMarketResponse | src/agents/market_predictor.py:114-139 | the loop appends exactly the successful simulations (ensures it equals Simulated) |
| MarketPredictor.Samples | src/agents/market_predictor.py:394 | the sample is the first min(n, len) responses; a negative n drops that many from the end, as Python's slice does |
| MarketPredictor.GetSampleFeedback | src/agents/market_predictor.py:397-408 | the loop's text is the samples' entries joined by blank lines (ensures it equals SampleFeedback) |
| MarketPredictor.FeedbackEntriesSpec | src/agents/market_predictor.py:398-406 | there are min(n, len) entries, the k-th starting with "k+1. name:" of the k-th response |
| Workflow.Merge | src/orchestration/workflow.py:43 | applying an update appends to the history (the add reducer) and keeps the seed and the configuration |
| Workflow.GeneratePersonasNode | src/orchestration/workflow.py:110-113 | succeeds iff the generator does for the configured count, and then sets only the personas; its error propagates |
| Workflow.IdeateNode | src/orchestration/workflow.py:115-134 | a fresh concept from the seed at iteration 0, else a refinement with the critic's prompt (AttributeError without feedback); the iteration becomes one higher |
| Workflow.SimulateNode | src/orchestration/workflow.py:136-143 | sets only the responses, which are exactly the simulated market response of the personas to the current concept (none without a concept); each is named after a persona, and when every persona answers there is one per persona, in persona order |
| Workflow.CalculatePmfNode | src/orchestration/workflow.py:145-171 | fails on no responses with InsufficientDataError; on success sets the score and adds exactly one history entry for the current iteration and concept |
| Workflow.AnalyzeNode | src/orchestration/workflow.py:173-189 | succeeds iff the critic does on the concept, the score and the sample feedback of five responses, and then sets only the critic's feedback |
| Workflow.Decide | src/orchestration/workflow.py:194-212 | continue iff the score is below the threshold and the iteration is below the budget; never continue once the threshold is met |
| Workflow.DecideNode | src/orchestration/workflow.py:191-212 | succeeds iff a score is present, and sets should_continue to the decision |
| Workflow.Route | src/orchestration/workflow.py:214-216 | "continue" iff should_continue, which defaults to true; the only other route is "finalize" |
| Workflow.Next | src/orchestration/workflow.py:91-106 | no edge returns to generate_personas; decide goes to ideate on "continue" and to END on "finalize"; no other node reaches END |
| Workflow.PassOrder | src/orchestration/workflow.py:91-106 | from ideate the graph runs simulate, calculate_pmf, analyze, decide, then returns to ideate or ends, as should_continue says |
| Workflow.PassKeepsBetween | src/orchestration/workflow.py:129-212 | a pass that raises the iteration by one, appends one entry and records the decision keeps the loop invariant (history length = iteration, entries numbered 1.., earlier scores below threshold) |
| Workflow.ScorePass | src/orchestration/workflow.py:115-171 | ideate, simulate and calculate_pmf raise the iteration by one and append one entry holding the new concept and score |
| Workflow.RunPass | src/orchestration/workflow.py:91-212 | one full pass keeps the loop invariant and raises the iteration by one |
| Workflow.BetweenStopped | src/orchestration/workflow.py:194-216 | a state the decide node stopped is finished |
| Workflow.Run | src/orchestration/workflow.py:218-273 | None arguments take the defaults; a finished run has 1 ≤ iteration ≤ max(1, budget), one history entry per iteration numbered 1, 2, …, every earlier score below the threshold, and the last score meeting it or the budget spent |
| PersonaGenerator.NextBatchSize | src/agents/persona_generator.py:66-67 | inside the loop the batch size is min(5, remaining), so between 1 and 5 |
| PersonaGenerator.GenerateSpec | src/agents/persona_generator.py:65-92 | a finished loop has at least `count` personas and keeps the earlier ones first; a failed one raised PersonaGenerationError |
| PersonaGenerator.GenerateFailsOnThreeEmpty | src/agents/persona_generator.py:72-88 | three consecutive empty batches raise the error naming how many personas were generated |
| PersonaGenerator.GenerateSucceedsWhenBatchesArrive | src/agents/persona_generator.py:65-92 | when no batch is empty the loop terminates with success |
| PersonaGenerator.GenerationFailureMessage | src/agents/persona_generator.py:80-88 | the error is a ProductIdeationError whose message names the personas generated so far |
| PersonaGenerator.PersonaGenerator.GeneratePersonas | src/agents/persona_generator.py:36-104 | a cache of at least `count` answers with its first `count`; otherwise the loop's result, which replaces the cache on success; failure leaves the cache alone |
| PersonaGenerator.PersonaGenerator.GenerateTargetedPersonas | src/agents/persona_generator.py:248-286 | the valid records of a usable targeted reply, with the cache untouched; otherwise exactly what generate_personas gives: the cached prefix, or the batch loop, whose result replaces the cache; a failure is PersonaGenerationError and leaves the cache alone |
| PersonaGenerator.PersonaGenerator.ClearCache | src/agents/persona_generator.py:288-290 | the cache is empty |
| PersonaGenerator.ParseWithRepair | src/agents/persona_generator.py:142-157 | the reply is parsed as is, and only when that fails after the comma repair |
| PersonaGenerator.RepairDropsCommas | src/agents/persona_generator.py:149 | the repair only deletes commas directly before `]`, then before `}`, keeping every other character in order |
| PersonaGenerator.RepairIdentity | src/agents/persona_generator.py:149 | text with no `,]` or `,}` is left unchanged |
| PersonaGenerator.Rekey | src/agents/persona_generator.py:160-166 | rebuilding a dict under cleaned keys: keys unique, every cleaned key present, each holding the value of the LAST entry whose key cleans to it, and the keys in the order of their FIRST occurrence |
| PersonaGenerator.RekeyFromInput | src/agents/persona_generator.py:160-166 | every entry of the cleaned dict is an original value under its cleaned key |
| PersonaGenerator.RekeyEntries | src/agents/persona_generator.py:160-166 | the loop builds the cleaned dict (ensures it equals Rekey) |
| PersonaGenerator.Put | src/agents/persona_generator.py:165 | a dict assignment keeps keys unique, holds the new pair, and keeps the position of earlier keys |
| PersonaGenerator.FirstWhere | src/agents/persona_generator.py:176-181 | the value under the first key satisfying the test, or none if no key does |
| PersonaGenerator.FirstList | src/agents/persona_generator.py:184-188 | the first list value, or [] when there is none |
| PersonaGenerator.Valid | src/agents/persona_generator.py:191-200 | no more personas than records, each the validation of some record |
| PersonaGenerator.KeepValid | src/agents/persona_generator.py:191-200 | the loop keeps, in order, exactly the records that validate |
| PersonaGenerator.ValidAppend | src/agents/persona_generator.py:191-200 | validating two runs of records is validating each and concatenating |
| PersonaGenerator.ValidAll | src/agents/persona_generator.py:191-200 | when every record validates, none is dropped |
| PersonaGenerator.BatchOfList | src/agents/persona_generator.py:171-173 | a top-level list yields exactly its valid records |
| PersonaGenerator.BatchOfDict | src/agents/persona_generator.py:174-188 | for a mapping reply, with keys cleaned: a non-empty list under the first key mentioning "persona" supplies the records; with no such key or a falsy value there, the first list value does |
| PersonaGenerator.BatchOfNoList | src/agents/persona_generator.py:183-188 | a reply with no list at the top level yields no persona |
| PersonaGenerator.GenerateBatch | src/agents/persona_generator.py:106-207 | the method's batch equals BatchOf: nothing for a failed call or an unparsable reply, else the valid records selected from the cleaned data |
| ApiManager.OpenRouterClient.constructor | src/utils/api_manager.py:34-41 | empty logs, zero cost, an empty window and the configured limits |
| ApiManager.Connect | src/utils/api_manager.py:18-41 | a missing or empty key raises AuthenticationError with its default message; otherwise a fresh client with empty logs and window |
| ApiManager.Minimum | src/utils/api_manager.py:53 | `min` of a non-empty window: an element no larger than any other |
| ApiManager.OpenRouterClient.CheckRateLimit | src/utils/api_manager.py:43-61 | old timestamps are dropped; at the limit the wait is period − (now − oldest) > 0 and the window is cleared; the call is recorded; the window never exceeds a positive limit; an empty window at a non-positive limit raises ValueError; the new window is NextWindow of the old one |
| ApiManager.Window | src/utils/api_manager.py:48 | the window keeps exactly the timestamps younger than the period, each as many times as it was recorded, so its length counts the recent calls |
| ApiManager.WindowDrops | src/utils/api_manager.py:48 | a timestamp at least one period old makes the window shorter than the list |
| ApiManager.NextWindow | src/utils/api_manager.py:43-61 | the window the limiter leaves: below the limit, the recent calls plus this one; at the limit after a wait, this call alone; empty only when an empty window was already at a non-positive limit; never longer than a positive limit |
| ApiManager.ForgetsRecentCalls | src/utils/api_manager.py:51-61 | clearing the window after a wait lets three calls through within one period at a limit of two |
| ApiManager.SlidingNextWindow | src/utils/api_manager.py:51-61 | a limiter that keeps, after the wait, every call younger than one period at the new timestamp; it agrees with NextWindow below the limit and stays within the limit after a full wait |
| ApiManager.RetrySpec | src/utils/api_manager.py:63-78 | at most max_retries attempts; the first success is returned; all failing re-raises the last attempt's error; no attempts returns None |
| ApiManager.SleepsDouble | src/utils/api_manager.py:63-78 | the i-th sleep is 2^i seconds, fewer sleeps than attempts; every attempt slept after failed, and sleeps ending before the last attempt mean the next attempt succeeded |
| ApiManager.RetryWithBackoff | src/utils/api_manager.py:63-78 | the loop's outcome and its sleeps equal the specification |
| ApiManager.Classify | src/utils/api_manager.py:159-173 | the ordered classification: rate-and-limit, else auth/unauthorized/401, else not found/404, else APIError; all are APIErrors; the model or the original message appears in the text |
| ApiManager.OpenRouterClient.LogCall | src/utils/api_manager.py:80-95 | exactly one record is appended |
| ApiManager.OpenRouterClient.ChatCompletion | src/utils/api_manager.py:97-173 | one success log and the response, or one failure log and the classified error; the rate limiter's error escapes unlogged; the cost is unchanged and the rate-limit window becomes NextWindow of the old one |
| ApiManager.SystemIndex | src/utils/api_manager.py:197 | the index of the first system message, or -1 when there is none |
| ApiManager.WithSchemaInstruction | src/utils/api_manager.py:197-208 | the instruction is appended to the first system message, or a new system message is inserted at index 0 |
| ApiManager.SchemaInstructionPlaced | src/utils/api_manager.py:197-208 | afterwards the first system message ends with the instruction and at most one message was added |
| ApiManager.OpenRouterClient.ChatCompletionWithStructuredOutput | src/utils/api_manager.py:175-226 | sends the instructed messages; a failed call gives the classified error with one failure log, a successful one the parse of the content with one success log; the rate limiter's error escapes unlogged; the cost is unchanged and the window becomes NextWindow of the old one |
| ApiManager.ExtractImageUrls | src/utils/api_manager.py:306-318 | markdown image URLs if any, otherwise plain URLs |
| ApiManager.OpenRouterClient.GenerateImage | src/utils/api_manager.py:228-304 | never propagates a call failure; returns the extracted URLs and appends the logs of ImageLogs; of the modelled errors only the rate limiter's escapes; the window becomes NextWindow of the old one |
| ApiManager.ImageLogsShape | src/utils/api_manager.py:269-304 | one or two logs; the last is a failure exactly when no URL is returned; a call that returned is first logged as a success; two logs exactly when it returned but no URL came out |
| ApiManager.SummaryConsistent | src/utils/api_manager.py:320-353 | total = successful + failed; per-model stats cover only successful calls and their call counts sum to the successful calls |
| ApiManager.OutcomesPartition | src/utils/api_manager.py:327-328 | successful and failed logs partition the log |
| ApiManager.GroupContents | src/utils/api_manager.py:331-335 | each model's group holds exactly that model's logs, in order, and is non-empty |
| ApiManager.GroupSizeIsCount | src/utils/api_manager.py:331-335 | grouping by model loses and duplicates no log |
| ApiManager.OpenRouterClient.GetCostSummary | src/utils/api_manager.py:320-353 | the loop's summary equals Summary of the current log, whose consistency SummaryConsistent states |
| ApiManager.OpenRouterClient.ClearLogs | src/utils/api_manager.py:362-365 | the log is empty and the total cost 0 |
| ConfigLoader.Validate | src/utils/config_loader.py:49-68 | a missing or empty key raises AuthenticationError; a key without the sk-or-v1- prefix raises the invalid-key error; otherwise the settings checks decide |
| ConfigLoader.MissingKeyMessage | src/utils/config_loader.py:55-60 | the message names OPENROUTER_API_KEY and the keys URL |
| ConfigLoader.BadKeyMessage | src/utils/config_loader.py:63-68 | the message says invalid and shows the expected prefix |
| ConfigLoader.FirstMissing | src/utils/config_loader.py:71-74 | the first required section absent, or none when all are present |
| ConfigLoader.CheckWorkflow | src/utils/config_loader.py:76-108 | succeeds iff max_iterations (default 5) is an int in [1, 10], pmf_threshold (default 40.0) a number in [0, 100] and personas_count (default 100) an int in [10, 500], returning those values; else ConfigurationError |
| ConfigLoader.FirstFalsy | src/utils/config_loader.py:111-117 | the first required model that is missing or falsy, or none |
| ConfigLoader.CheckModels | src/utils/config_loader.py:110-124 | succeeds iff the four models are truthy and ideator_temperature (default 0.7) is a number in [0, 2]; a falsy model is reported first |
| ConfigLoader.CheckSettings | src/utils/config_loader.py:70-124 | accepted values lie in their ranges; failures are ConfigurationError, or the AttributeError of `.get` on a section that is not a mapping |
| ConfigLoader.CheckSettingsSpec | src/utils/config_loader.py:70-124 | success iff all sections are present, both sections are dicts and both sub-checks pass, with their values |
| ConfigLoader.IntInRange | src/utils/config_loader.py:80-89 | an int within the bounds is returned; otherwise the low or the high error |
| ConfigLoader.NumberInRange | src/utils/config_loader.py:92-95 | a number within the bounds is returned; otherwise the range error |
| ConfigLoader.GetOr | src/utils/config_loader.py:77-79 | `dict.get(key, default)`: the stored value when the key is present, else the default |
| ConfigLoader.GetSetting | src/utils/config_loader.py:280-299 | the loop's result is the nested walk, or the default when it stops |
| ConfigLoader.GetSettingCases | src/utils/config_loader.py:292-299 | no keys return the whole tree; a missing first key gives the default; a present non-null value is returned as is, falsy included |
| ConfigLoader.WalkAppend | src/utils/config_loader.py:292-298 | walking a longer path continues from where the shorter one stopped |
| ConfigLoader.WalkNeverNull | src/utils/config_loader.py:295-296 | a walk over at least one key never yields None |
| ConfigLoader.Index | src/utils/config_loader.py:128-176 | strict `[]` access fails only with KeyError or TypeError; a present path is read and gives the walked value, and a successful read agrees with the walk |
| ConfigLoader.IndexPair | src/utils/config_loader.py:164-176 | a two-key access succeeds only through a present dict section holding the key |
| ConfigLoader.AcceptedWorkflow | src/utils/config_loader.py:164-176 | once validation accepts, a successful read of max_iterations, pmf_threshold or personas_count gives a value in its range |
| ConfigLoader.AcceptedTemperature | src/utils/config_loader.py:133-135 | once validation accepts, a successful read of ideator_temperature lies in [0, 2] |
| ConfigLoader.GetPrompt | src/utils/config_loader.py:221-235 | a missing agent or prompt type raises ValueError; an agent entry that is not a mapping raises TypeError; a present agent mapping holding the prompt type returns the stored prompt, and any result is a prompt stored under that agent and type |
| ConfigLoader.IsFeatureEnabled | src/utils/config_loader.py:238-240 | false without a features section or for an unknown feature, else the stored value; a non-dict section raises AttributeError |
| ConfigLoader.Load | src/utils/config_loader.py:13-37 | the configuration loads iff validation succeeds, and then holds the given settings and prompts |
| Files.SanitizeFilename | src/utils/file_manager.py:52-75 | the replace loop computes the specification: spaces to underscores, the invalid characters removed, cut to 50, lowercased |
| Files.SanitizedShape | src/utils/file_manager.py:62-75 | at most 50 characters, no space, none of `<>:"/\|?*`, lowercase, the lowercasing of a prefix of the filtered text |
| Files.SanitizedIdempotent | src/utils/file_manager.py:52-75 | sanitising a sanitised name changes nothing |
| Files.SpacesToUnderscores | src/utils/file_manager.py:63 | the space replacement keeps length and turns exactly the spaces into underscores |
| Files.Timestamp | src/utils/file_manager.py:35 | `%Y%m%d_%H%M%S` is 15 characters, digits except the underscore at index 8, and its groups read back as the year, month, day, hour, minute and second |
| Files.Padded | src/utils/file_manager.py:35 | a zero-padded field has exactly its width in digits, which read back as the number |
| Files.TimestampInjective | src/utils/file_manager.py:35 | two clock readings give the same timestamp exactly when they are equal |
| Files.OutputName | src/utils/file_manager.py:35-41 | the directory name is the sanitised name, an underscore and the timestamp |
| Files.FileManager.constructor | src/utils/file_manager.py:19-22 | the manager holds the base path, the files, and the directories left by making the base directory |
| Files.FileManager.CreateOutputDirectory | src/utils/file_manager.py:24-50 | the run directory is the base plus the sanitised name and timestamp; the outcome and the new directories are those of Layout, so an OSError from any of the four `mkdir` calls propagates and leaves what was made before it |
| Files.Open | src/utils/file_manager.py:14-22 | `mkdir(exist_ok=True)` without `parents`: the OSError of Mkdir (a missing parent or a file of that name) is raised, otherwise a new manager over the directories Mkdir leaves |
| Files.FirstGap | src/utils/file_manager.py:22 | the first ancestor of a path that is not a directory, every shorter one being one |
| Files.Mkdir | src/utils/file_manager.py:22 | `Path.mkdir(exist_ok=True)`: an existing directory is left alone; a file of that name is FileExistsError; failure only when a file or a missing ancestor is in the way, and without `parents` a missing ancestor always fails; without `parents` at most the path itself is made |
| Files.MkdirSpec | src/utils/file_manager.py:22 | with `parents` and no file in the way it succeeds; success keeps every directory, makes the path and all its ancestors, and nothing but those |
| Files.MkdirClosed | src/utils/file_manager.py:22 | mkdir keeps the directories closed under taking ancestors |
| Files.MkdirChild | src/utils/file_manager.py:46-48 | a child of an existing directory fails only on a file of that name and adds just the child |
| Files.SubDirectoriesSpec | src/utils/file_manager.py:46-48 | the images, posts and analytics children are made unless a file of that name is in the way, and nothing else is made |
| Files.LayoutSpec | src/utils/file_manager.py:45-48 | the layout succeeds exactly when the run directory can be made and no child is blocked by a file; then the run directory and its children exist, and the only new directories are the run directory, its ancestors and its children; nothing is lost either way |
| Exceptions.EveryCustomKindIsProductIdeationError | src/utils/exceptions.py:4-132 | every custom class is a ProductIdeationError and no built-in one is |
| Exceptions.ApiErrorFamily | src/utils/exceptions.py:14-54 | exactly APIError, RateLimitError, AuthenticationError and ModelNotFoundError are APIErrors |
| Exceptions.Raise | src/utils/exceptions.py:19-117 | a given message is used verbatim; None gives the class's default, which is non-empty exactly for the four classes that define one |
| Exceptions.ModelNotFound | src/utils/exceptions.py:45-54 | an APIError whose message contains the model name |
| Exceptions.InsufficientData | src/utils/exceptions.py:87-96 | the message contains both the required and the actual count |
| Exceptions.FileOperationMessage | src/utils/exceptions.py:125-132 | "Failed to op file: path", extended with " - reason" exactly when a non-empty reason is given |
| Posts.AppendEach | src/post_composer/linkedin_composer.py:71-72 | a `for` loop of `parts.append` adds one numbered line per item, in order |
| Posts.JoinedContains | src/post_composer/x_composer.py:63-67 | a `+=` loop's text contains every item's line |
| Posts.JoinedLength | src/post_composer/x_composer.py:63-67 | lines of bounded length make a text bounded by their number |
| Posts.Fixed1Digits | src/post_composer/linkedin_composer.py:86 | `:.1f` shows the value rounded to tenths, within 0.05 |
| Posts.Finish | src/post_composer/x_composer.py:104-110 | the text is a prefix of the composed text, within the limit, cut iff the composed text is longer; char_count is the untruncated length |
| XComposer.Shorten | src/post_composer/x_composer.py:66 | a feature over the cut becomes its prefix plus "...", others are unchanged |
| XComposer.FeaturesTextContents | src/post_composer/x_composer.py:63-67 | each shown feature's bullet is in the text, and the text length is bounded by the number of features |
| XComposer.BuildFeaturesText | src/post_composer/x_composer.py:63-67 | the `+=` loop builds the specification's features text |
| XComposer.ValidationNps | src/post_composer/x_composer.py:70-72 | the NPS is appended only when positive |
| XComposer.CascadeFits | src/post_composer/x_composer.py:80-98 | the text is the three-feature, the two-feature or the minimal version, and the minimal one whenever it is over the limit; when the minimal version fits, the post is not cut |
| XComposer.ComposeText | src/post_composer/x_composer.py:51-98 | the method's text equals the cascade |
| XComposer.PostWithinLimit | src/post_composer/x_composer.py:104-110 | the post is at most max_chars long, char_count is the untruncated length, and its hashtags are the generated ones |
| XComposer.ComposePost | src/post_composer/x_composer.py:34-113 | the composed post equals the specification |
| XComposer.TopicIsCaseInsensitive | src/post_composer/x_composer.py:123-124 | #AI is chosen iff the lowercased name contains "ai" |
| XComposer.Hashtags | src/post_composer/x_composer.py:115-130 | "#Innovation" then the topic tag, cut to max_hashtags as a Python slice (a negative count drops from the end) |
| XComposer.GenerateHashtags | src/post_composer/x_composer.py:115-130 | the appending method equals the specification |
| XComposer.ThreadShape | src/post_composer/x_composer.py:149-216 | five posts; only the last carries hashtags (#Innovation, #AIpowered); the third is cut to 280 and records its full length |
| XComposer.Tweet3Lines | src/post_composer/x_composer.py:172-174 | each of the first three features appears numbered and cut to 60 |
| XComposer.ComposeThread | src/post_composer/x_composer.py:132-216 | the appended thread equals the specification |
| LinkedInComposer.Solution | src/post_composer/linkedin_composer.py:68-73 | every feature, in order, numbered from 1 |
| LinkedInComposer.AppendSolution | src/post_composer/linkedin_composer.py:68-73 | the loop appends exactly the solution section |
| LinkedInComposer.Difference | src/post_composer/linkedin_composer.py:75-81 | omitted iff there are no differentiators, else at most three of them |
| LinkedInComposer.AppendDifference | src/post_composer/linkedin_composer.py:75-81 | the loop appends exactly the differentiators section |
| LinkedInComposer.Benefits | src/post_composer/linkedin_composer.py:91-96 | omitted iff there are no top benefits, else at most three of them |
| LinkedInComposer.AppendBenefits | src/post_composer/linkedin_composer.py:91-96 | the loop appends exactly the benefits section |
| LinkedInComposer.FullPartsSize | src/post_composer/linkedin_composer.py:51-119 | the full post has 26 lines plus one per feature plus the optional sections |
| LinkedInComposer.BuildParts | src/post_composer/linkedin_composer.py:51-119 | the appended lines equal the specification's sections |
| LinkedInComposer.ShorterIgnoresExtras | src/post_composer/linkedin_composer.py:141-174 | the shorter version depends only on name, tagline, problem, first three features, score, NPS and count; it has 15 + min(features, 3) lines |
| LinkedInComposer.CreateShorterVersion | src/post_composer/linkedin_composer.py:141-174 | the method's text equals the specification |
| LinkedInComposer.AllHashtags | src/post_composer/linkedin_composer.py:178-192 | 3 to 5 tags starting with #ProductInnovation, #AIpowered and ending with #ProductDevelopment; #TechInnovation and #MarketResearch exactly under their conditions |
| LinkedInComposer.Hashtags | src/post_composer/linkedin_composer.py:194 | a prefix of those tags, never more than five |
| LinkedInComposer.GenerateHashtags | src/post_composer/linkedin_composer.py:176-194 | the appending method equals the specification |
| LinkedInComposer.PostWithinLimit | src/post_composer/linkedin_composer.py:122-136 | the full post when it fits, else the shorter version; the text is within the limit and char_count is the untruncated length |
| LinkedInComposer.ComposePost | src/post_composer/linkedin_composer.py:34-139 | the composed post equals the specification |
| LinkedInComposer.ArticleIntroEnds | src/post_composer/linkedin_composer.py:211-234 | the intro starts with "# The Story Behind name" and ends with "[Continue reading...]" |
| LinkedInComposer.ComposeArticleIntro | src/post_composer/linkedin_composer.py:196-234 | the appended intro equals the specification |

## Left out

- The semantic-similarity rater (embeddings, temperature and epsilon smoothing) is a foreign library. Per-respondent rating distributions are inputs.
- LLM calls are oracles returning a result or a failure. This covers concept generation and refinement, the critic, persona and response simulation, and the chat and image endpoints. So are the JSON parser, Pydantic validation of a persona record, and the URL regular expressions.
- Time and sleeping: `now` and the recorded timestamp are parameters. Sleeps are returned as a sequence of durations rather than performed. The call log leaves out the ISO timestamp.
- Logging, progress bars, console output and `save_logs` are not modelled.
- File reads and writes (`save_*`, `load_*`, `list_outputs`, `get_latest_output`, `copy_file`, `ensure_dir`) are I/O. Only the directories that `FileManager(...)` and `create_output_directory` make are modelled.
- The file system is a set of directory paths and a set of file paths. Permissions, symbolic links, disk errors and other processes changing the file system meanwhile are not modelled. Files.LayoutSpec assumes, as a real file system guarantees, that every ancestor of a directory is a directory.
- Loading YAML and `.env` is I/O and is not modelled; settings and prompts are given as mappings, so a top-level YAML document that is not a mapping is not modelled either. The `get_config`, `reload_config` and `get_openrouter_client` singletons are not modelled.
- Floating point is modelled as `real`, so binary rounding error is not captured; `int()` truncation and `round()` half to even are modelled exactly on reals.
- ConfigLoader.Validate: `str(value)` inside error messages is an input function (`show`); the messages are built from it and not checked character by character.
- LinkedInComposer.Post and XComposer.Post: `str.format` of the disclosure templates is an input (the composer settings are values already read from configuration). The X `optimal_length` setting, which is never used, is not modelled.
- Py.LowerStr lowercases ASCII only; Python's full Unicode `lower()` can change lengths and is not modelled.
- Files.Timestamp requires a four-digit year; `strftime` for years before 1000 is not modelled.
- MarketPredictor.SimulateMarketResponse: the caller's persona list is not aliased or mutated; the model works on values.
- ApiManager.OpenRouterClient: the rate limit, the rate period, the retry count and the image model are taken as values already read from the settings. The KeyError or TypeError that `settings["api"][...]` (src/utils/config_loader.py:244-256) or `settings["models"]["image_generator"]` (:153-155) raises when the section or key is missing or not a mapping is not modelled; such a settings file passes validation, so the constructor or `generate_image` would raise it before any call. The retry count is read once rather than on every retry.
- ApiManager.OpenRouterClient.ChatCompletionWithStructuredOutput: the in-place mutation of the caller's `messages` list is returned as `sent` rather than shared by reference.
- The LangGraph runtime itself is not modelled; `run` is an explicit loop over passes, with the graph's edges stated by Workflow.Next. A failing node makes the run fail with its error, as the re-raise does. The runtime's own limit on the number of steps is not modelled. One pass is five node steps after the persona step, so a run of `max_iterations` passes takes 1 + 5 × `max_iterations` steps; if that exceeds the runtime's step limit, the real run raises where the model keeps going.
- The prompt texts the persona generator and the other agents build are not modelled: a batch reply is an oracle of the request number and the batch size. The agents in ideator.py and critic.py are not part of this model.
- The CLI, visualisation, image download and asset bundling files are not part of this model.

## Findings

| source | as written | input that shows it | evidently intended | confidence | as-written member | corrected member |
|---|---|---|---|---|---|---|
| src/utils/api_manager.py:51-61 | after waiting for the oldest call to expire, `call_times` is set to `[]`, so the calls still inside the period are no longer counted | limit 2 per 10 s; calls at 0, 1, 10 (after the wait) and 10.5 all pass, and the last three fall within 10 s; up to 2 × limit − 1 calls can land in one period | keep counting the calls younger than one period at the new timestamp, so no period holds more than the limit | not executed; follows from lines 57-61 | ApiManager.ForgetsRecentCalls | ApiManager.SlidingNextWindow |

The client's methods model the code as written, with NextWindow; SlidingNextWindow states the sliding window the limiter evidently aims at, beside it.
