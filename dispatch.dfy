/**
 * What both versions of `LLMService.generate_response` share
 * (backend/llm_service_fixed.py and backend/llm_service_backup.py): the
 * provider SDK calls as oracle values, the OpenAI and Anthropic handlers,
 * the keyword classification of a failure message, the way a handler's
 * result is settled into a returned response, a fallback demo response or a
 * propagated exception, and the metrics attached to a demo response.
 */
module Dispatch {
  import opened Text
  import opened Models
  import opened TextMetrics

  // ---------------------------------------------------------------------
  // Provider calls as oracles
  // ---------------------------------------------------------------------

  /** What one SDK call did: returned a value or raised an exception whose `str(e)` is `message`. */
  datatype Call<+T> = Reply(value: T) | Fails(message: string)

  /** The fields read from an OpenAI chat completion. */
  datatype ChatCompletion = ChatCompletion(content: string, promptTokens: nat, completionTokens: nat, totalTokens: nat)

  /** The fields read from an Anthropic message. */
  datatype AnthropicMessage = AnthropicMessage(text: string, inputTokens: nat, outputTokens: nat)

  /**
   * The outcome of every external call one `generate_response` may make; only
   * the one for the requested provider is consulted. `pipelineLoad` is the
   * exception message raised while building the Hugging Face pipeline, if any;
   * `huggingFace` is the pipeline's `generated_text`.
   */
  datatype Oracle = Oracle(
    openAi: Call<ChatCompletion>,
    anthropic: Call<AnthropicMessage>,
    pipelineLoad: Option<string>,
    huggingFace: Call<string>)

  /** What a provider handler hands back to `generate_response`. */
  datatype HandlerResult = Produced(text: string, tokenUsage: map<string, real>) | Raised(message: string)

  /** The API-key check of `_initialize_clients`: set, non-empty and not the placeholder. */
  predicate KeyConfigured(key: Option<string>, placeholder: string) {
    key.Some? && key.value != "" && key.value != placeholder
  }

  /** `os.getenv(name, default)` */
  function GetEnv(value: Option<string>, default: string): string {
    if value.Some? then value.value else default
  }

  const OpenAiNotInitialized: string := "OpenAI client not initialized"
  const AnthropicNotInitialized: string := "Anthropic client not initialized"

  /** `_generate_openai_response` */
  function OpenAiHandler(hasClient: bool, call: Call<ChatCompletion>): (h: HandlerResult)
    ensures !hasClient ==> h == Raised(OpenAiNotInitialized)
    ensures h.Produced? ==> call.Reply? && h.text == call.value.content
    ensures h.Produced? ==> h.tokenUsage.Keys == {"prompt_tokens", "completion_tokens", "total_tokens"}
  {
    if !hasClient then Raised(OpenAiNotInitialized)
    else match call
      case Fails(message) => Raised(message)
      case Reply(c) => Produced(c.content, map[
        "prompt_tokens" := c.promptTokens as real,
        "completion_tokens" := c.completionTokens as real,
        "total_tokens" := c.totalTokens as real])
  }

  /** `_generate_anthropic_response`: the total is computed as input plus output tokens. */
  function AnthropicHandler(hasClient: bool, call: Call<AnthropicMessage>): (h: HandlerResult)
    ensures !hasClient ==> h == Raised(AnthropicNotInitialized)
    ensures h.Produced? ==> call.Reply? && h.text == call.value.text
    ensures h.Produced? ==> && h.tokenUsage.Keys == {"input_tokens", "output_tokens", "total_tokens"}
                            && h.tokenUsage["total_tokens"] == h.tokenUsage["input_tokens"] + h.tokenUsage["output_tokens"]
  {
    if !hasClient then Raised(AnthropicNotInitialized)
    else match call
      case Fails(message) => Raised(message)
      case Reply(m) => Produced(m.text, map[
        "input_tokens" := m.inputTokens as real,
        "output_tokens" := m.outputTokens as real,
        "total_tokens" := (m.inputTokens + m.outputTokens) as real])
  }

  /**
   * The Hugging Face call of `_generate_huggingface_response`: the pipeline is
   * built on first use, and building it can raise; after that the pipeline's
   * own call can raise or produce the generated text.
   */
  function HuggingFaceCall(pipelineLoaded: bool, oracle: Oracle): (c: Call<string>)
    ensures pipelineLoaded ==> c == oracle.huggingFace
    ensures c.Reply? ==> c == oracle.huggingFace
    ensures c != oracle.huggingFace ==> c.Fails? && !pipelineLoaded && oracle.pipelineLoad == Some(c.message)
  {
    if !pipelineLoaded && oracle.pipelineLoad.Some? then Fails(oracle.pipelineLoad.value) else oracle.huggingFace
  }

  /** Whether `self.hf_pipeline` is set after one Hugging Face call: once built it is kept. */
  predicate PipelineLoadedAfter(pipelineLoaded: bool, oracle: Oracle) {
    pipelineLoaded || oracle.pipelineLoad.None?
  }

  /** The provider branch of `generate_response`; `huggingFace` is the Hugging Face handler's result. */
  function SelectHandler(provider: Provider, hasOpenAiClient: bool, hasAnthropicClient: bool, oracle: Oracle, huggingFace: HandlerResult): (h: HandlerResult)
  {
    match provider
    case OpenAi => OpenAiHandler(hasOpenAiClient, oracle.openAi)
    case Anthropic => AnthropicHandler(hasAnthropicClient, oracle.anthropic)
    case HuggingFace => huggingFace
  }

  /**
   * Each provider reaches only its own handler: two dispatches that agree on
   * the chosen provider's client and outcome agree, whatever the other
   * providers would have done.
   */
  lemma RoutesToOwnHandler(
    provider: Provider, hasOpenAiClient1: bool, hasOpenAiClient2: bool, hasAnthropicClient1: bool, hasAnthropicClient2: bool,
    oracle1: Oracle, oracle2: Oracle, huggingFace1: HandlerResult, huggingFace2: HandlerResult)
    requires provider == OpenAi ==> hasOpenAiClient1 == hasOpenAiClient2 && oracle1.openAi == oracle2.openAi
    requires provider == Anthropic ==> hasAnthropicClient1 == hasAnthropicClient2 && oracle1.anthropic == oracle2.anthropic
    requires provider == HuggingFace ==> huggingFace1 == huggingFace2
    ensures SelectHandler(provider, hasOpenAiClient1, hasAnthropicClient1, oracle1, huggingFace1)
         == SelectHandler(provider, hasOpenAiClient2, hasAnthropicClient2, oracle2, huggingFace2)
  {
  }

  // ---------------------------------------------------------------------
  // Failure classification
  // ---------------------------------------------------------------------

  const QuotaKeywords: seq<string> := ["quota", "rate limit", "429", "insufficient_quota", "exceeded"]
  const AuthKeywords: seq<string> := ["authentication", "api key", "unauthorized", "401"]

  /** `any(keyword in message.lower() for keyword in keywords)` */
  predicate MentionsAny(message: string, keywords: seq<string>) {
    exists k :: k in keywords && Contains(Lower(message), k)
  }

  datatype FailureKind = QuotaOrRateLimit | AuthFailure | Unrecognised

  /** The quota list is tried first, then the authentication list. */
  function Classify(message: string): (kind: FailureKind)
    ensures kind == QuotaOrRateLimit <==> MentionsAny(message, QuotaKeywords)
    ensures kind == AuthFailure <==> !MentionsAny(message, QuotaKeywords) && MentionsAny(message, AuthKeywords)
  {
    if MentionsAny(message, QuotaKeywords) then QuotaOrRateLimit
    else if MentionsAny(message, AuthKeywords) then AuthFailure
    else Unrecognised
  }

  /** A failure turns into a demo response exactly when its message mentions one of the nine keywords. */
  lemma FallbackIffKeyword(message: string)
    ensures Classify(message) != Unrecognised
        <==> exists k :: k in QuotaKeywords + AuthKeywords && Contains(Lower(message), k)
  {
    if Classify(message) != Unrecognised {
      var k :| k in QuotaKeywords + AuthKeywords && Contains(Lower(message), k) by {
        if MentionsAny(message, QuotaKeywords) {
          var q :| q in QuotaKeywords && Contains(Lower(message), q);
          assert q in QuotaKeywords + AuthKeywords;
        } else {
          var a :| a in AuthKeywords && Contains(Lower(message), a);
          assert a in QuotaKeywords + AuthKeywords;
        }
      }
    }
  }

  /** Keyword matching ignores case: "Rate Limit" and "RATE LIMIT" fall back like "rate limit". */
  lemma CaseInsensitive(m1: string, m2: string)
    requires Lower(m1) == Lower(m2)
    ensures Classify(m1) == Classify(m2)
  {
  }

  /**
   * A lower-cased message lacking the letters q, x, u, k, m and the digit 4
   * contains none of the nine keywords, so the failure is not classified.
   */
  lemma UnrecognisedWithoutKeywordLetters(message: string)
    requires forall c :: c in "qxukm4" ==> c !in Lower(message)
    ensures Classify(message) == Unrecognised
  {
    var s := Lower(message);
    AbsentCharNotContained(s, "quota", 'q');
    AbsentCharNotContained(s, "rate limit", 'm');
    AbsentCharNotContained(s, "429", '4');
    AbsentCharNotContained(s, "insufficient_quota", 'q');
    AbsentCharNotContained(s, "exceeded", 'x');
    AbsentCharNotContained(s, "authentication", 'u');
    AbsentCharNotContained(s, "api key", 'k');
    AbsentCharNotContained(s, "unauthorized", 'u');
    AbsentCharNotContained(s, "401", '4');
    FallbackIffKeyword(message);
  }

  lemma LowerOpenAiNotInitialized()
    ensures Lower(OpenAiNotInitialized) == "openai client not initialized"
  {
    var o := "openai client not initialized";
    assert forall i :: 0 <= i < |o| ==> LowerChar(OpenAiNotInitialized[i]) == o[i];
  }

  lemma LowerAnthropicNotInitialized()
    ensures Lower(AnthropicNotInitialized) == "anthropic client not initialized"
  {
    var a := "anthropic client not initialized";
    assert forall i :: 0 <= i < |a| ==> LowerChar(AnthropicNotInitialized[i]) == a[i];
  }

  /** The exceptions raised for a missing client match no keyword, so they propagate. */
  lemma MissingClientIsUnrecognised()
    ensures Classify(OpenAiNotInitialized) == Unrecognised
    ensures Classify(AnthropicNotInitialized) == Unrecognised
  {
    LowerOpenAiNotInitialized();
    UnrecognisedWithoutKeywordLetters(OpenAiNotInitialized);
    LowerAnthropicNotInitialized();
    UnrecognisedWithoutKeywordLetters(AnthropicNotInitialized);
  }

  /** A typical OpenAI quota message, "Error code: 429 - ... insufficient_quota ...", falls back. */
  lemma QuotaMessageFallsBack(prefix: string, suffix: string)
    ensures Classify(prefix + "429" + suffix) == QuotaOrRateLimit
  {
    var m := prefix + "429" + suffix;
    assert Lower(m)[|prefix|..|prefix| + 3] == "429";
    ContainsAt(Lower(m), "429", |prefix|);
    assert "429" in QuotaKeywords;
  }

  // ---------------------------------------------------------------------
  // What generate_response returns
  // ---------------------------------------------------------------------

  /** The returned dict: its text, token usage and metrics; `isDemo` marks the demo shape (`model_info.demo_mode`). */
  datatype Generated = Generated(response: string, tokenUsage: map<string, real>, metrics: MetricsData, isDemo: bool)

  /** `generate_response` either returns or lets an exception with this message escape. */
  datatype Outcome = Returned(generated: Generated) | Propagated(message: string)

  /**
   * The `try`/`except` of `generate_response` once a handler has run: a reply
   * gets metrics; a failure becomes the demo response when classified, and is
   * re-raised unchanged otherwise.
   */
  function Settle(handler: HandlerResult, demo: Generated, latencyMs: real, config: ModelConfig): (o: Outcome)
    ensures handler.Produced? ==> o.Returned? && !o.generated.isDemo && o.generated.response == handler.text
    ensures handler.Raised? && Classify(handler.message) != Unrecognised ==> o == Returned(demo)
    ensures handler.Raised? && Classify(handler.message) == Unrecognised ==> o == Propagated(handler.message)
  {
    match handler
    case Produced(text, usage) =>
      Returned(Generated(text, usage, CalculateMetrics(text, latencyMs, config), false))
    case Raised(message) =>
      if Classify(message) != Unrecognised then Returned(demo) else Propagated(message)
  }

  // ---------------------------------------------------------------------
  // Demo responses: randomness as inputs, metrics
  // ---------------------------------------------------------------------

  /** The values the three `random.uniform` calls for the mock metrics produced. */
  datatype DemoDraws = DemoDraws(cost: real, sentiment: real, readability: real)

  /** `random.uniform(a, b)` lies in [a, b]. */
  predicate ValidDraws(d: DemoDraws) {
    && 0.0001 <= d.cost <= 0.001
    && 0.3 <= d.sentiment <= 0.8
    && 0.6 <= d.readability <= 0.9
  }

  /** `int(word_count * 1.3)` */
  function EstimatedTokens(wordCount: nat): (t: nat)
    ensures 10 * t <= 13 * wordCount < 10 * t + 10
  {
    var x := wordCount as real * 1.3;
    assert x == (13 * wordCount) as real / 10.0;
    FloorDiv10(13 * wordCount);
    x.Floor
  }

  lemma FloorDiv10(n: nat)
    ensures 10 * ((n as real / 10.0).Floor) <= n < 10 * ((n as real / 10.0).Floor) + 10
    ensures (n as real / 10.0).Floor >= 0
  {
    var f := (n as real / 10.0).Floor;
    assert f as real <= n as real / 10.0 < f as real + 1.0;
  }

  /** The demo dict around a finished demo text: mock metrics and the estimated token usage. */
  function DemoGenerated(text: string, prompt: string, draws: DemoDraws, latencyMs: real): (g: Generated)
    ensures g.isDemo && g.response == text
    ensures g.metrics.responseLength == |text|
    ensures 10 * g.metrics.tokenCount <= 13 * |Words(text)| < 10 * g.metrics.tokenCount + 10
    ensures g.metrics.costEstimate == draws.cost && g.metrics.latencyMs == latencyMs
    ensures g.metrics.sentimentScore == Some(draws.sentiment) && g.metrics.readabilityScore == Some(draws.readability)
    ensures g.metrics.coherenceScore.None?
    ensures g.tokenUsage.Keys == {"prompt_tokens", "completion_tokens", "total_tokens"}
    ensures g.tokenUsage["completion_tokens"] == g.metrics.tokenCount as real
    ensures g.tokenUsage["total_tokens"] == g.tokenUsage["prompt_tokens"] + g.tokenUsage["completion_tokens"]
  {
    var tokenCount := EstimatedTokens(|Words(text)|);
    var promptTokens := |Words(prompt)| as real * 1.3;
    Generated(
      text,
      map[
        "prompt_tokens" := promptTokens,
        "completion_tokens" := tokenCount as real,
        "total_tokens" := promptTokens + tokenCount as real],
      MetricsData(|text|, tokenCount, latencyMs, draws.cost, Some(draws.sentiment), Some(draws.readability), None),
      true)
  }

  /** `"question" in prompt.lower() or "?" in prompt` */
  predicate AsksQuestion(prompt: string) {
    Contains(Lower(prompt), "question") || Contains(prompt, "?")
  }
}
