# Prompt-playground backend: a Dafny model

This project models the experiment pipeline of the prompt-engineering
playground backend (`backend/`). Every external effect becomes an input:
LLM SDK calls, SQLite, clocks and randomness. The model covers:

- **`LLMService.generate_response`**, in both versions.
  - `backend/llm_service_fixed.py` → module `ServiceFixed`; `backend/llm_service_backup.py` → module `ServiceBackup`.
  - Shared parts live in module `Dispatch`: the provider handlers, the keyword classification of a failure, and settling a handler's result into a returned response, a fallback demo response or a propagated exception.
  - Each service is a class `LlmService`. Its clients are fixed at construction, and it carries a lazily built Hugging Face pipeline flag.
- **The metric helpers** (module `TextMetrics`):
  - syllables, computed by the state-machine loop and by its specification;
  - keyword sentiment;
  - simplified Flesch readability;
  - sentence-length coherence;
  - per-model cost;
  - `_calculate_metrics`.

  Both service files hold the same code for these, so it is modelled once.
- **The request and record types** (module `Models`, from `backend/models.py`): their bounds, defaults and enumerations.
- **The persistence layer** (module `Store`, from `backend/data_service.py`):
  - the `get_experiments` query and parameter builder;
  - the flattening of stored rows;
  - the experiment and template tables, as a class `ExperimentStore` over two maps that `save_experiment`, `save_template`, `delete_template` and `update_experiment_rating` change in place.
- **The experiment endpoints** (module `Experiments`, from `backend/main.py`):
  - the nested configuration × run loop of `run_experiment`, with its records and enqueued saves;
  - `calculate_aggregate_metrics`;
  - how the rating and template-deletion endpoints map results to HTTP statuses.

Module `Text` states the Python string primitives these rely on: `split()`, `split(sep)`, `strip()`, `lower()`, `in`, slicing and `endswith`.

Where the repository's own description and its code disagree, the model follows the code:

- **`success_rate` is always 1.0 when any run succeeded.** The description calls it successes over total. But `calculate_aggregate_metrics` computes `n / (n + errors)` over the list it is given, and `run_experiment` gives it only the successful records. If every run failed, the aggregate is `{}`. See `Experiments.RunSuccessRate` and `Experiments.OneOfTwoRunsReportsFullSuccess`.
- **Unlisted model names are charged 0.001 per 1k tokens, not 0.** See `TextMetrics.CostRate`.
- **Sentiment lies in [-1, 1], not [0, 1].** See `TextMetrics.Sentiment`.
- **An empty prompt and an empty list of configurations pass validation.** See `Models.EmptyRequestIsValid`.
- **`token_count` of a provider reply is the whitespace word count of the reply**, whatever usage the provider reported.
- **Runs are sequential.**
- **A missing OpenAI or Anthropic client makes the call fail; it does not fall back to a demo response.**
- **The 400 for a bad rating and the 404 for an unknown experiment or template reach the client as 500**, because the endpoint's catch-all handler converts them.

## Model

| member | source | states |
|---|---|---|
| Models.ParseProvider | backend/models.py:16-19 | a provider string is accepted exactly when it is one of the three enum values, and maps back to that value |
| Models.ProviderRoundTrip | backend/models.py:16-19 | parsing a provider's value gives back the provider |
| Models.ParseCategory | backend/models.py:11 | a template category is one of exactly four literals |
| Models.CategoryRoundTrip | backend/models.py:11 | parsing a category's value gives back the category |
| Models.ConfigViolations | backend/models.py:21-28 | the reported fields are exactly those outside their bound (temperature in [0,2], max_tokens None or in [1,4000], top_p in [0,1], penalties in [-2,2]); none exactly when the config is valid |
| Models.DefaultModelConfig | backend/models.py:24-28 | the defaults are 0.7, 1000, 1.0, 0.0 and 0.0, and they satisfy the bounds |
| Models.DefaultExperimentRequest | backend/models.py:30-36 | num_runs defaults to 1, A/B testing to off, template and variables to empty; the request is valid exactly when its configs are |
| Models.EmptyRequestIsValid | backend/models.py:31-32 | neither the prompt nor the config list has a non-emptiness constraint |
| Models.ParseSuccessMetric | backend/models.py:79 | a success metric is one of exactly four literals |
| Models.SuccessMetricRoundTrip | backend/models.py:79 | parsing a success metric's value gives it back |
| Models.DefaultAbTestConfig | backend/models.py:75-79 | traffic_split defaults to 0.5, and the A/B config is valid exactly when both variants are |
| TextMetrics.Syllables | backend/llm_service_fixed.py:327-344 | the syllable estimate is at least 1 |
| TextMetrics.CountSyllables | backend/llm_service_fixed.py:327-344 | the vowel-flag loop computes the vowel groups of the lower-cased word, minus one for a final 'e', floored at 1 |
| TextMetrics.VowelFreeWordHasOneSyllable | backend/llm_service_backup.py:498-515 | a word without vowels still counts one syllable |
| TextMetrics.SyllablesAtMostLength | backend/llm_service_fixed.py:327-344 | a non-empty word never counts more syllables than characters |
| TextMetrics.TotalSyllables | backend/llm_service_fixed.py:318 | the syllables of a word list are at least the number of words |
| TextMetrics.CountListed | backend/llm_service_fixed.py:304-305 | the count of listed words is at most the number of words |
| TextMetrics.Balance | backend/llm_service_fixed.py:310 | (p - n)/(p + n) lies in [-1,1]; its sign is the sign of p - n; it is 1 exactly when n = 0 and -1 exactly when p = 0 |
| TextMetrics.Sentiment | backend/llm_service_fixed.py:297-310 | the sentiment score lies in [-1,1] |
| TextMetrics.SentimentSign | backend/llm_service_fixed.py:303-310 | the score is positive or negative exactly as positive words outnumber negative ones or the reverse, and it is 1 exactly when only positive words occur |
| TextMetrics.NeutralTextScoresZero | backend/llm_service_fixed.py:307-308 | a text with no listed word scores 0 |
| TextMetrics.SentenceCount | backend/llm_service_fixed.py:316 | the sentence count is at least 1 |
| TextMetrics.Clamp | backend/llm_service_fixed.py:325 | clamping lands in [lo, hi] and leaves values already inside unchanged |
| TextMetrics.Readability | backend/llm_service_fixed.py:312-325 | readability lies in [0,1] and is 0 for a text without words |
| TextMetrics.PolysyllabicTextScoresZero | backend/llm_service_fixed.py:324-325 | at 2.5 or more syllables per word the clamped score is 0 |
| TextMetrics.FleschNegative | backend/llm_service_fixed.py:324 | the Flesch formula is negative at 2.5 or more syllables per word |
| TextMetrics.NonBlankLengths | backend/llm_service_fixed.py:353 | there are no more lengths than pieces |
| TextMetrics.SquaredDeviations | backend/llm_service_fixed.py:358 | the sum of squared deviations is non-negative |
| TextMetrics.Reciprocal | backend/llm_service_fixed.py:361 | 1/(1 + v/d) lies in (0,1], and is 1 exactly when the variance is 0 |
| TextMetrics.LengthConsistency | backend/llm_service_fixed.py:353-362 | the consistency score lies in [0,1]; it is 0 when no sentence is non-blank and positive otherwise |
| TextMetrics.UniformLengthsScoreOne | backend/llm_service_fixed.py:357-361 | sentences all of one length score exactly 1 |
| TextMetrics.Coherence | backend/llm_service_fixed.py:346-362 | coherence lies in [0,1] and is 1 for a text without '.' |
| TextMetrics.PeriodSplitsText | backend/llm_service_fixed.py:348-350 | a text with a '.' splits into at least two pieces, so the variance branch runs |
| TextMetrics.CostRate | backend/llm_service_fixed.py:287-294 | the rate is positive, and 0.001 for a model name not in the table |
| TextMetrics.EstimateCost | backend/llm_service_fixed.py:284-295 | the cost is non-negative, and 0 exactly when there are no tokens |
| TextMetrics.CostMonotone | backend/llm_service_fixed.py:295 | more tokens never cost less for the same model |
| TextMetrics.CalculateMetrics | backend/llm_service_fixed.py:250-273 | response_length is the reply's length; token_count is its word count; cost comes from that count; the three scores are present and within their ranges |
| Dispatch.OpenAiHandler | backend/llm_service_fixed.py:96-122 | without a client the call raises "OpenAI client not initialized"; a reply's text and three usage fields are handed back |
| Dispatch.AnthropicHandler | backend/llm_service_fixed.py:124-147 | without a client the call raises "Anthropic client not initialized"; total_tokens is input plus output tokens |
| Dispatch.HuggingFaceCall | backend/llm_service_fixed.py:149-166 | once the pipeline is built only its own call's outcome counts; every reply comes from the pipeline; any other result is the build's exception, raised only before the pipeline exists |
| Dispatch.RoutesToOwnHandler | backend/llm_service_fixed.py:57-65 | each provider reaches only its own handler: dispatches that agree on that provider's client and outcome agree, whatever the other providers would do |
| Dispatch.Classify | backend/llm_service_fixed.py:84-94 | a failure is a quota failure exactly when the lower-cased message has a quota keyword, and an auth failure exactly when it has no quota keyword but has an auth keyword |
| Dispatch.FallbackIffKeyword | backend/llm_service_fixed.py:84-94 | a failure is classified exactly when its lower-cased message contains one of the nine keywords |
| Dispatch.CaseInsensitive | backend/llm_service_fixed.py:84 | messages equal after lower-casing are classified alike |
| Dispatch.UnrecognisedWithoutKeywordLetters | backend/llm_service_fixed.py:85-94 | a message lacking the letters q, x, u, k, m and the digit 4 is not classified |
| Dispatch.MissingClientIsUnrecognised | backend/llm_service_fixed.py:96-127 | the two "client not initialized" messages match no keyword |
| Dispatch.QuotaMessageFallsBack | backend/llm_service_fixed.py:85-87 | any message containing "429" is a quota failure |
| Dispatch.Settle | backend/llm_service_fixed.py:57-94 | a reply is returned with metrics; a classified failure becomes the demo response; any other failure propagates unchanged |
| Dispatch.EstimatedTokens | backend/llm_service_fixed.py:223-224 | the estimate is the floor of words × 1.3 |
| Dispatch.DemoGenerated | backend/llm_service_fixed.py:219-248 | demo metrics: response_length is the text's length, token_count is floor(words × 1.3), cost and scores are the drawn values, no coherence score; total_tokens is prompt plus completion tokens |
| ServiceFixed.DemoTexts | backend/llm_service_fixed.py:189-209 | each provider has three canned texts, each opening with its emoji |
| ServiceFixed.Framed | backend/llm_service_fixed.py:211-213 | in fallback mode the text opens with the warning banner, ends with the note and holds exactly the canned text between them; otherwise it is the canned text |
| ServiceFixed.PromptEcho | backend/llm_service_fixed.py:217 | a prompt longer than 100 characters is quoted as its first 100 followed by "..."; a shorter one is quoted whole with no "..." |
| ServiceFixed.Echo | backend/llm_service_fixed.py:215-217 | something is appended exactly when the lower-cased prompt contains "question" or the prompt contains "?" |
| ServiceFixed.BuildDemoText | backend/llm_service_fixed.py:207-217 | wrapping and then appending step by step yields the demo text |
| ServiceFixed.BannerIffFallback | backend/llm_service_fixed.py:186-213 | the demo text opens with the banner exactly in fallback mode |
| ServiceFixed.FallbackTextMentionsFallbackMode | backend/llm_service_fixed.py:212-213 | a fallback text contains "Fallback Mode", the marker a client of the fallback looks for |
| ServiceFixed.QuestionIsQuoted | backend/llm_service_fixed.py:216-217 | a question's first 100 characters appear in the demo text |
| ServiceFixed.ShortQuestionIsQuoted | backend/llm_service_fixed.py:217 | a question of at most 100 characters is quoted whole |
| ServiceFixed.NoQuestionNoEcho | backend/llm_service_fixed.py:216 | without a question, the demo text is the (framed) canned text alone |
| ServiceFixed.DemoResponse | backend/llm_service_fixed.py:180-248 | the demo response is the demo text; its cost lies in [0.0001, 0.001] and response_length is its length |
| ServiceFixed.HuggingFaceHandler | backend/llm_service_fixed.py:149-178 | the response is the pipeline's generated text; usage is its word count; a failure comes from loading or from the call |
| ServiceFixed.DemoModeShortCircuits | backend/llm_service_fixed.py:53-55 | in demo mode the result does not depend on any provider outcome and is exactly the bannerless demo response |
| ServiceFixed.FallbackIffClassifiedFailure | backend/llm_service_fixed.py:84-94 | outside demo mode, a demo response comes back exactly when the handler raised with a keyword, and then it carries the banner and "Fallback Mode" |
| ServiceFixed.PropagatesIffUnrecognised | backend/llm_service_fixed.py:84-94 | an exception escapes exactly when the handler raised one without a keyword, and it escapes unchanged |
| ServiceFixed.ReplyCarriesMetrics | backend/llm_service_fixed.py:67-78 | a reply is returned with its usage and with metrics computed from its text |
| ServiceFixed.MissingClientFails | backend/llm_service_fixed.py:96-127 | a missing OpenAI or Anthropic client makes the call fail with "… client not initialized" |
| ServiceFixed.RateLimitedCallFallsBack | backend/llm_service_fixed.py:84-87 | an OpenAI failure mentioning 429 yields the fallback demo response |
| ServiceFixed.LlmService.constructor | backend/llm_service_fixed.py:16-47 | DEMO_MODE is "true" case-insensitively; a client exists only outside demo mode with a key that is set, non-empty and not the placeholder; no pipeline yet |
| ServiceFixed.LlmService.GenerateResponse | backend/llm_service_fixed.py:49-94 | the outcome is the one described above; the pipeline flag changes only on a Hugging Face call outside demo mode, and once set stays set |
| ServiceBackup.DemoTexts | backend/llm_service_backup.py:541-561 | each provider has three canned texts |
| ServiceBackup.PromptEcho | backend/llm_service_backup.py:565 | a prompt longer than 50 characters is quoted as its first 50, a shorter one whole; the closing always starts with "..." |
| ServiceBackup.Echo | backend/llm_service_backup.py:563-565 | something is appended exactly when the lower-cased prompt contains "question" or the prompt contains "?" |
| ServiceBackup.BuildDemoText | backend/llm_service_backup.py:559-565 | the canned text plus the `+=` echo yields the demo text |
| ServiceBackup.DemoTextStartsWithCanned | backend/llm_service_backup.py:559-565 | the demo text opens with the canned text, and is the canned text alone without a question |
| ServiceBackup.QuestionIsQuoted | backend/llm_service_backup.py:564-565 | a question's first 50 characters, followed by "...", appear in the demo text |
| ServiceBackup.DemoResponse | backend/llm_service_backup.py:535-596 | the demo response is the demo text; its cost lies in [0.0001, 0.001] and response_length is its length |
| ServiceBackup.ContinuationDropsPrompt | backend/llm_service_backup.py:169 | a generated text that repeats the prompt yields the stripped continuation |
| ServiceBackup.ShortGenerationIsEmpty | backend/llm_service_backup.py:169 | a generated text no longer than the prompt yields an empty response |
| ServiceBackup.HuggingFaceHandler | backend/llm_service_backup.py:149-179 | the response is the generated text minus the prompt's length, stripped; usage is its word count |
| ServiceBackup.DemoModeShortCircuits | backend/llm_service_backup.py:53-55 | in demo mode the result does not depend on any provider outcome and is exactly the demo response |
| ServiceBackup.FallbackIndistinguishableFromDemoMode | backend/llm_service_backup.py:84-94 | a demo response comes back exactly on a classified failure, and it equals what demo mode returns |
| ServiceBackup.PropagatesIffUnrecognised | backend/llm_service_backup.py:84-94 | an exception escapes exactly when the handler raised one without a keyword, and it escapes unchanged |
| ServiceBackup.MissingClientFails | backend/llm_service_backup.py:96-127 | a missing OpenAI or Anthropic client makes the call fail |
| ServiceBackup.HuggingFaceReplyIsContinuation | backend/llm_service_backup.py:149-179 | a Hugging Face reply repeating the prompt is returned as the stripped continuation, with metrics on it |
| ServiceBackup.LlmService.constructor | backend/llm_service_backup.py:16-47 | client creation as in the fixed version |
| ServiceBackup.LlmService.GenerateResponse | backend/llm_service_backup.py:49-94 | the outcome is the one described above; the pipeline flag changes only on a Hugging Face call outside demo mode |
| Store.ActiveFilters | backend/data_service.py:120-130 | at most three filters, in the order provider, start, end; a provider filter exactly for a non-empty provider, a date filter exactly for a given date |
| Store.EmptyProviderAddsNothing | backend/data_service.py:120-122 | an empty provider string filters nothing |
| Store.FilterParams | backend/data_service.py:122-130 | one parameter per filter, in order |
| Store.ClauseHasOneMark | backend/data_service.py:121-130 | each filter clause has exactly one placeholder |
| Store.FixedPartsMarks | backend/data_service.py:117-133 | the head has no placeholder and the ORDER/LIMIT/OFFSET tail has two |
| Store.ClausesMarks | backend/data_service.py:120-130 | the clauses carry as many placeholders as filter parameters |
| Store.QueryMarksMatchParams | backend/data_service.py:117-133 | the whole query has one placeholder per bound parameter |
| Store.QueryTextIsClauses | backend/data_service.py:117-132 | the query is the head, one clause per active filter in order, then the tail |
| Store.QueryParamsAreFilters | backend/data_service.py:118-133 | the parameters are the filter parameters in order, then limit and offset |
| Store.QueryWellFormed | backend/data_service.py:117-133 | the query starts with the unfiltered select and ends with the ordering and paging; params end with [limit, offset]; placeholder count equals parameter count |
| Store.BuildExperimentsQuery | backend/data_service.py:117-133 | growing the query and parameters clause by clause yields exactly that query and those parameters |
| Store.BaseFields | backend/data_service.py:164-174 | a flattened row has exactly the nine base columns |
| Store.Prefixed | backend/data_service.py:178-186 | each key k maps to prefix+k with its value, and every new key is a prefixed original key |
| Store.BaseKeysUnprefixed | backend/data_service.py:164-186 | no base column starts with "config_" or "metric_" |
| Store.FlatRowKeepsAndAdds | backend/data_service.py:163-188 | flattening keeps the base columns, adds config_k and metric_k for every key, and adds nothing else |
| Store.FlattenExperiments | backend/data_service.py:158-190 | one flattened row per experiment, in order; none for none |
| Store.ExperimentRowOf | backend/data_service.py:84-99 | the inserted row has the new id, the run's experiment id as its group, and no rating or notes |
| Store.EmptyIdCountsAsMissing | backend/data_service.py:199 | the key is the template's own id or the fresh one, and an empty id gets a fresh key just as a missing one does |
| Store.ExperimentStore.SaveExperiment | backend/data_service.py:77-107 | the row goes in under a fresh id; a taken id is an error with nothing written; templates are untouched |
| Store.ExperimentStore.SaveTemplate | backend/data_service.py:196-250 | upsert: content and updated_at are written; created_at is kept on update and equals updated_at on insert; other rows are unchanged |
| Store.ExperimentStore.DeleteTemplate | backend/data_service.py:284-291 | the result is true exactly when the row existed; only that row goes |
| Store.ExperimentStore.UpdateExperimentRating | backend/data_service.py:342-353 | the result is true exactly when the row exists; only its rating and notes change; ratings stay in 1..5 when the new one is |
| Experiments.RecordFor | backend/main.py:152-190 | a record is a success exactly when the call returned, carrying its response, metrics and usage, or else an error with the message; run_number is r+1 |
| Experiments.RunRecords | backend/main.py:151-190 | one record per run, the r-th for run r |
| Experiments.RecordCount | backend/main.py:150-151 | there are len(model_configs) × num_runs records |
| Experiments.RecordAtSlot | backend/main.py:150-190 | records are configuration-major: slot c·runs + r holds run r+1 of configuration c |
| Experiments.Successes | backend/main.py:193 | every kept record is a success record of the list, and there are no more of them than records |
| Experiments.SuccessesExactly | backend/main.py:193 | a record is kept exactly when it is in the list and is a success record: every success is kept, nothing else is |
| Experiments.SavesMirrorSuccesses | backend/main.py:161-174 | one save per success, in order, all under the one experiment id and prompt, with the record's configuration, response, metrics and run number |
| Experiments.MetricValues | backend/main.py:227 | one value per success record |
| Experiments.MetricValuesPointwise | backend/main.py:227 | the k-th value is the requested metric of the k-th success record |
| Experiments.Minimum | backend/main.py:230 | min is a member that no value is below |
| Experiments.Maximum | backend/main.py:231 | max is a member that no value exceeds |
| Experiments.MeanBetween | backend/main.py:229-231 | min ≤ avg ≤ max |
| Experiments.FailureCount | backend/main.py:234 | errors plus successes are all records |
| Experiments.KeyAggregatesCounters | backend/main.py:226-231 | the metric loop sets neither counter |
| Experiments.KeyAggregatesPresence | backend/main.py:226-231 | a metric's avg, min and max are present exactly when it has values |
| Experiments.KeyAggregatesValues | backend/main.py:226-231 | the entries are the mean, minimum and maximum of the metric's values |
| Experiments.CountersOf | backend/main.py:233-234 | the two counters are added and the metric entries stay as they were |
| Experiments.AggregateShape | backend/main.py:218-236 | {} exactly for no records; otherwise total_responses is n, success_rate is present, and each metric's entries exist exactly when there are successes, with min ≤ avg ≤ max |
| Experiments.SuccessRateRange | backend/main.py:233-234 | success_rate is n/(n + errors), lies in [0.5, 1], and is 1 exactly when there are no errors |
| Experiments.RateBounds | backend/main.py:234 | n/(n + f) lies in [0.5, 1] for f ≤ n, and is 1 exactly when f = 0 |
| Experiments.NoFailuresAmongSuccesses | backend/main.py:193 | the filtered list has no error records |
| Experiments.RunSuccessRate | backend/main.py:193-194 | the reported success_rate is 1 whenever any run succeeded, and the aggregate is {} when all failed |
| Experiments.OneOfTwoRunsReportsFullSuccess | backend/main.py:193-194 | one success and one failure report a rate of 1, not 1/2 |
| Experiments.CalculateAggregateMetrics | backend/main.py:218-236 | the key-by-key loop computes exactly the aggregate above |
| Experiments.RunConfiguration | backend/main.py:151-190 | the inner loop appends one record per run and enqueues one save per success |
| Experiments.RunConfigurations | backend/main.py:150-190 | the outer loop yields all records in configuration-major order and the saves of exactly the successes, in order, each with its own clock reading; a failed run does not stop later ones |
| Experiments.RunExperiment | backend/main.py:145-194 | all records in configuration-major order, the saves of exactly the successes in order, and the aggregate over the successes |
| Experiments.CatchAll | backend/main.py:279-281 | any exception, an HTTPException included, becomes 500; only completion gives 200 |
| Experiments.RatingStatuses | backend/main.py:266-281 | the client sees 200 exactly for an in-range rating of an existing experiment, and never 400 or 404 |
| Experiments.UpdateRatingEndpoint | backend/main.py:259-281 | an out-of-range rating never reaches the store; an accepted one changes only that row's rating and notes; stored ratings stay in 1..5 |
| Experiments.DeleteTemplateEndpoint | backend/main.py:311-324 | 200 exactly when the template existed, else 500; only that row goes |

## Left out

- Provider SDK calls, the transformers pipeline, `run_in_executor` and environment reads are inputs. Each call's outcome is an `Oracle` value; the environment variables are constructor parameters.
- `random.choice` and `random.uniform` are inputs, and so is `asyncio.sleep`. The picked canned text is a parameter, and so are the three drawn metric values.
- ServiceFixed.LlmService.GenerateResponse: the picked canned text is only required to open with one of the three emoji. The model does not require it to be one of `DemoTexts(config.provider)`: with the nine long literals in the method's context, its proof exceeds the solver's resource budget.
- ServiceBackup.LlmService.GenerateResponse: the picked canned text is unconstrained, for the same reason.
- The fallback for an unknown provider in `demo_responses.get(…)` is not modelled. The provider enum is closed, so that default is unreachable.
- The "Unsupported provider" branch of `generate_response` is not modelled, for the same reason.
- `time.time()` and `datetime.now()` are inputs: the latency, and one clock reading per run slot.
- Timestamps are abstract integers. Their `isoformat()` text appears only as opaque date strings in the query parameters.
- Floating point is modelled as exact `real` arithmetic. IEEE rounding in the 1.3 multipliers, the Flesch constants and the divisions is not modelled.
- `str.lower()` is modelled for ASCII letters only; Unicode case mapping is not.
- `re.split` is modelled by its count alone: one more than the number of maximal runs of `.`, `!` and `?`.
- `_calculate_metrics` has an exception branch that returns basic metrics. It is not modelled, because none of the modelled helpers can raise.
- Experiments.MetricValues: the metrics dict always holds the four aggregated keys, so the `.get(key, 0)` default of 0 is never used and is not modelled.
- SQLite, schema creation, `get_templates`, `get_experiment_statistics`, `get_experiment_count` and the row decoding in `get_experiments` are I/O. They are replaced by the two in-memory tables, and the query builder stops at the text and parameters.
- pandas `DataFrame` construction is not modelled; flattening yields a list of maps. Column order in a flattened row is not modelled.
- The CSV/JSON export, the dashboard, the A/B-test endpoints, FastAPI routing, authentication, rate limiting and lifespan are web plumbing and stubs.
- HTTP `detail` strings are not modelled; only status codes are.
- `BackgroundTasks` execution and its concurrency are not modelled. The saves are a list of enqueued `ExperimentResult`s in order, and a save that fails later is not modelled.
- `save_experiment`'s uuid and `save_template`'s fallback uuid are parameters (`freshId`). A uuid collision is modelled as the primary-key error it would raise.
- `run_experiment` calls `generate_response` once per slot. In the model, the outcome of each slot is an input (`outcomes[c][r]`), and the service object is not invoked from the loop.
- The `ExperimentResponse` wrapper (id, duration, start timestamp) is not modelled.
- Logging is not modelled.
- The backup file's earlier definitions are not modelled: the first two copies of `_generate_demo_response` (lines 181 and 358) and the first copy of the metric helpers (lines 244-357). Python binds the last definition, and the metric helpers are identical to the fixed file's.
