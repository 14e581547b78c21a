/**
 * `LLMService` as backend/llm_service_fixed.py writes it: demo mode short-
 * circuits every call; otherwise the provider handler runs, and a failure
 * whose message mentions quota, rate limits or authentication turns into a
 * demo response marked by a "Fallback Mode" banner. The Hugging Face
 * response is the pipeline's `generated_text` as it stands.
 */
module ServiceFixed {
  import opened Text
  import opened Models
  import opened TextMetrics
  import opened Dispatch

  // ---------------------------------------------------------------------
  // The demo response text
  // ---------------------------------------------------------------------

  const Wrench: char := '\U{1F527}'
  const MobilePhone: char := '\U{1F4F1}'
  const HighVoltage: char := '\U{26A1}'

  const OpenAiDemoTexts: seq<string> := [
    [Wrench] + " **Demo Mode Response** - This simulates OpenAI's GPT response. In production, this would be generated by the actual OpenAI API with full language model capabilities.",
    [MobilePhone] + " **Mock Response** - This demonstrates how OpenAI's models would respond to your prompt. The real implementation connects to OpenAI's API for authentic AI-generated content.",
    [HighVoltage] + " **Playground Demo** - This sample response shows the expected output format from OpenAI's language models. Actual deployment uses live API connections."
  ]

  const AnthropicDemoTexts: seq<string> := [
    [Wrench] + " **Demo Mode Response** - This simulates Claude's response style. In production, Anthropic's AI assistant would provide thoughtful, nuanced responses with strong reasoning capabilities.",
    [MobilePhone] + " **Mock Response** - This demonstrates Claude's approach to helpful, harmless, and honest responses. Real deployment connects to Anthropic's API.",
    [HighVoltage] + " **Playground Demo** - This sample shows how Claude typically structures detailed, ethical responses. Actual implementation uses live Anthropic API."
  ]

  const HuggingFaceDemoTexts: seq<string> := [
    [Wrench] + " **Demo Mode Response** - This simulates output from Hugging Face models. Production deployment would use actual open-source transformer models from the Hub.",
    [MobilePhone] + " **Mock Response** - This demonstrates the variety of responses possible with Hugging Face's ecosystem of community models.",
    [HighVoltage] + " **Playground Demo** - This sample shows typical output from open-source language models. Real implementation connects to Hugging Face inference."
  ]

  /** The first character of every canned text: a wrench, mobile-phone or high-voltage emoji. */
  predicate StartsWithDemoEmoji(t: string) {
    |t| > 0 && (t[0] == Wrench || t[0] == MobilePhone || t[0] == HighVoltage)
  }

  /** `demo_responses[provider]`: three canned texts, each opening with an emoji. */
  function DemoTexts(p: Provider): (texts: seq<string>)
    ensures |texts| == 3
    ensures forall i :: 0 <= i < 3 ==> StartsWithDemoEmoji(texts[i])
  {
    match p
    case OpenAi => OpenAiDemoTexts
    case Anthropic => AnthropicDemoTexts
    case HuggingFace => HuggingFaceDemoTexts
  }

  const FallbackMarker: string := "Fallback Mode"
  const WarningSign: char := '\U{26A0}'
  const BannerOpening: string := [WarningSign, '\U{FE0F}'] + " **API Quota/Auth Error - "
  const FallbackBanner: string := BannerOpening + FallbackMarker + " Active**\n\n"
  const FallbackNote: string := "\n\n*Note: This demo response was triggered due to API quota limits or authentication issues. Please check your API keys and quota status.*"
  const EchoOpening: string := "\n\n\U{1F4A1} *Your prompt: '"
  const EchoClosing: string := "' - This showcases the interactive nature of the prompt engineering playground.*"

  /** The canned text framed by the warning banner and the note, in fallback mode. */
  function Framed(fallback: bool, canned: string): (t: string)
    ensures fallback ==> |t| == |FallbackBanner| + |canned| + |FallbackNote|
                         && StartsWith(t, FallbackBanner) && EndsWith(t, FallbackNote)
                         && t[|FallbackBanner|..|t| - |FallbackNote|] == canned
    ensures !fallback ==> t == canned
  {
    if fallback then FallbackBanner + (canned + FallbackNote) else canned
  }

  /** The sentence quoting the prompt: its first 100 characters, with "..." when it is longer. */
  function PromptEcho(prompt: string): (e: string)
    ensures |prompt| > 100 ==> e == EchoOpening + prompt[..100] + "..." + EchoClosing
    ensures |prompt| <= 100 ==> e == EchoOpening + prompt + EchoClosing
  {
    EchoOpening + Take(prompt, 100) + (if |prompt| > 100 then "..." else "") + EchoClosing
  }

  /** What follows the (framed) canned text: the echo when the prompt asks a question, else nothing. */
  function Echo(prompt: string): (e: string)
    ensures e != [] <==> AsksQuestion(prompt)
  {
    if AsksQuestion(prompt) then PromptEcho(prompt) else ""
  }

  /**
   * The demo text built around `canned`, the text `random.choice` picked:
   * framed in fallback mode, with the prompt echoed when it asks a question.
   */
  function DemoText(fallback: bool, prompt: string, canned: string): (text: string) {
    Framed(fallback, canned) + Echo(prompt)
  }

  /** The banner opens a demo text exactly in fallback mode. */
  lemma BannerIffFallback(fallback: bool, prompt: string, canned: string)
    requires StartsWithDemoEmoji(canned)
    ensures StartsWith(DemoText(fallback, prompt, canned), FallbackBanner) <==> fallback
  {
    if fallback {
      BannerInFallback(prompt, canned);
    } else {
      NoBannerOutsideFallback(prompt, canned);
    }
  }

  lemma BannerInFallback(prompt: string, canned: string)
    ensures StartsWith(DemoText(true, prompt, canned), FallbackBanner)
  {
    AppendAssoc(FallbackBanner, canned + FallbackNote, Echo(prompt));
    StartsWithAppend(FallbackBanner, canned + FallbackNote + Echo(prompt));
  }

  lemma NoBannerOutsideFallback(prompt: string, canned: string)
    requires StartsWithDemoEmoji(canned)
    ensures !StartsWith(DemoText(false, prompt, canned), FallbackBanner)
  {
    assert DemoText(false, prompt, canned)[0] == canned[0];
    assert FallbackBanner[0] == WarningSign;
  }

  /** A fallback demo text mentions "Fallback Mode", the marker a client looks for. */
  lemma FallbackTextMentionsFallbackMode(prompt: string, canned: string)
    ensures Contains(DemoText(true, prompt, canned), FallbackMarker)
  {
    var rest := canned + FallbackNote + Echo(prompt);
    AppendAssoc(FallbackBanner, canned + FallbackNote, Echo(prompt));
    AppendAssoc(BannerOpening + FallbackMarker, " Active**\n\n", rest);
    ContainsMiddle(BannerOpening, FallbackMarker, " Active**\n\n" + rest);
  }

  /** A prompt that asks a question has its first 100 characters quoted in the demo text. */
  lemma QuestionIsQuoted(fallback: bool, prompt: string, canned: string)
    requires AsksQuestion(prompt)
    ensures Contains(DemoText(fallback, prompt, canned), Take(prompt, 100))
  {
    var framed := Framed(fallback, canned);
    var head := Take(prompt, 100);
    var dots := if |prompt| > 100 then "..." else "";
    AppendAssoc(EchoOpening + head, dots, EchoClosing);
    AppendAssoc(framed, EchoOpening + head, dots + EchoClosing);
    AppendAssoc(framed, EchoOpening, head);
    ContainsMiddle(framed + EchoOpening, head, dots + EchoClosing);
  }

  /** A question of at most 100 characters is quoted whole. */
  lemma ShortQuestionIsQuoted(fallback: bool, prompt: string, canned: string)
    requires AsksQuestion(prompt) && |prompt| <= 100
    ensures Contains(DemoText(fallback, prompt, canned), prompt)
  {
    QuestionIsQuoted(fallback, prompt, canned);
  }

  /** A prompt that asks no question leaves the (framed) canned text as it is. */
  lemma NoQuestionNoEcho(fallback: bool, prompt: string, canned: string)
    requires !AsksQuestion(prompt)
    ensures DemoText(fallback, prompt, canned) == Framed(fallback, canned)
    ensures |DemoText(fallback, prompt, canned)| == |canned| + (if fallback then |FallbackBanner| + |FallbackNote| else 0)
  {
  }

  /** How `_generate_demo_response` assembles `response_text`: wrap in fallback mode, then append the echo. */
  method BuildDemoText(fallback: bool, prompt: string, canned: string) returns (text: string)
    ensures text == DemoText(fallback, prompt, canned)
  {
    text := canned;
    if fallback {
      text := FallbackBanner + (text + FallbackNote);
    }
    if AsksQuestion(prompt) {
      var ellipsis := if |prompt| > 100 then "..." else "";
      text := text + (EchoOpening + Take(prompt, 100) + ellipsis + EchoClosing);
    } else {
      assert text + "" == text;
    }
  }

  /** `_generate_demo_response`: the demo text with its mock metrics. */
  function DemoResponse(fallback: bool, prompt: string, canned: string, draws: DemoDraws, latencyMs: real): (g: Generated)
    requires ValidDraws(draws)
    ensures g.isDemo && g.response == DemoText(fallback, prompt, canned)
    ensures 0.0001 <= g.metrics.costEstimate <= 0.001
    ensures g.metrics.responseLength == |g.response|
  {
    DemoGenerated(DemoText(fallback, prompt, canned), prompt, draws, latencyMs)
  }

  // ---------------------------------------------------------------------
  // generate_response
  // ---------------------------------------------------------------------

  /** `_generate_huggingface_response`: the generated text is the response, its word count the token estimate. */
  function HuggingFaceHandler(pipelineLoaded: bool, oracle: Oracle): (h: HandlerResult)
    ensures h.Produced? ==> oracle.huggingFace.Reply? && h.text == oracle.huggingFace.value
    ensures h.Produced? ==> pipelineLoaded || oracle.pipelineLoad.None?
    ensures h.Produced? ==> h.tokenUsage == map["estimated_tokens" := |Words(h.text)| as real]
    ensures h.Raised? ==> HuggingFaceCall(pipelineLoaded, oracle).Fails?
  {
    match HuggingFaceCall(pipelineLoaded, oracle)
    case Fails(message) => Raised(message)
    case Reply(generated) => Produced(generated, map["estimated_tokens" := |Words(generated)| as real])
  }

  /** The handler that runs for `config.provider` outside demo mode. */
  function Handler(hasOpenAiClient: bool, hasAnthropicClient: bool, pipelineLoaded: bool, config: ModelConfig, oracle: Oracle): HandlerResult {
    SelectHandler(config.provider, hasOpenAiClient, hasAnthropicClient, oracle, HuggingFaceHandler(pipelineLoaded, oracle))
  }

  /** What one `generate_response` call returns or raises; `canned` is the demo text `random.choice` picked. */
  function Respond(
    demoMode: bool, hasOpenAiClient: bool, hasAnthropicClient: bool, pipelineLoaded: bool,
    prompt: string, config: ModelConfig, oracle: Oracle, canned: string, draws: DemoDraws, latencyMs: real): (o: Outcome)
    requires ValidDraws(draws)
  {
    if demoMode then Returned(DemoResponse(false, prompt, canned, draws, latencyMs))
    else Settle(Handler(hasOpenAiClient, hasAnthropicClient, pipelineLoaded, config, oracle),
                DemoResponse(true, prompt, canned, draws, latencyMs), latencyMs, config)
  }

  /** In demo mode no provider is consulted: the result is a demo response without the banner. */
  lemma DemoModeShortCircuits(
    hasOpenAiClient: bool, hasAnthropicClient: bool, pipelineLoaded: bool,
    prompt: string, config: ModelConfig, oracle1: Oracle, oracle2: Oracle, canned: string, draws: DemoDraws, latencyMs: real)
    requires ValidDraws(draws) && StartsWithDemoEmoji(canned)
    ensures Respond(true, hasOpenAiClient, hasAnthropicClient, pipelineLoaded, prompt, config, oracle1, canned, draws, latencyMs)
         == Respond(true, hasOpenAiClient, hasAnthropicClient, pipelineLoaded, prompt, config, oracle2, canned, draws, latencyMs)
    ensures var o := Respond(true, hasOpenAiClient, hasAnthropicClient, pipelineLoaded, prompt, config, oracle1, canned, draws, latencyMs);
            o.Returned? && o.generated.isDemo && !StartsWith(o.generated.response, FallbackBanner)
    ensures Respond(true, hasOpenAiClient, hasAnthropicClient, pipelineLoaded, prompt, config, oracle1, canned, draws, latencyMs)
         == Returned(DemoResponse(false, prompt, canned, draws, latencyMs))
  {
    BannerIffFallback(false, prompt, canned);
  }

  /**
   * Outside demo mode a demo response comes back exactly when the handler
   * raised with a keyword in its message, and it then carries the banner.
   */
  lemma FallbackIffClassifiedFailure(
    hasOpenAiClient: bool, hasAnthropicClient: bool, pipelineLoaded: bool,
    prompt: string, config: ModelConfig, oracle: Oracle, canned: string, draws: DemoDraws, latencyMs: real)
    requires ValidDraws(draws) && StartsWithDemoEmoji(canned)
    ensures var o := Respond(false, hasOpenAiClient, hasAnthropicClient, pipelineLoaded, prompt, config, oracle, canned, draws, latencyMs);
            var h := Handler(hasOpenAiClient, hasAnthropicClient, pipelineLoaded, config, oracle);
            && ((o.Returned? && o.generated.isDemo) <==> h.Raised? && Classify(h.message) != Unrecognised)
            && (o.Returned? && o.generated.isDemo ==>
                  StartsWith(o.generated.response, FallbackBanner) && Contains(o.generated.response, FallbackMarker))
  {
    BannerIffFallback(true, prompt, canned);
    FallbackTextMentionsFallbackMode(prompt, canned);
  }

  /**
   * Outside demo mode an exception escapes exactly when the handler raised
   * one that mentions no keyword, and it escapes unchanged.
   */
  lemma PropagatesIffUnrecognised(
    hasOpenAiClient: bool, hasAnthropicClient: bool, pipelineLoaded: bool,
    prompt: string, config: ModelConfig, oracle: Oracle, canned: string, draws: DemoDraws, latencyMs: real)
    requires ValidDraws(draws)
    ensures var o := Respond(false, hasOpenAiClient, hasAnthropicClient, pipelineLoaded, prompt, config, oracle, canned, draws, latencyMs);
            var h := Handler(hasOpenAiClient, hasAnthropicClient, pipelineLoaded, config, oracle);
            && (o.Propagated? <==> h.Raised? && Classify(h.message) == Unrecognised)
            && (o.Propagated? ==> o.message == h.message)
  {
  }

  /** A provider's reply is returned as it came, with metrics computed from it. */
  lemma ReplyCarriesMetrics(
    hasOpenAiClient: bool, hasAnthropicClient: bool, pipelineLoaded: bool,
    prompt: string, config: ModelConfig, oracle: Oracle, canned: string, draws: DemoDraws, latencyMs: real)
    requires ValidDraws(draws)
    requires Handler(hasOpenAiClient, hasAnthropicClient, pipelineLoaded, config, oracle).Produced?
    ensures var o := Respond(false, hasOpenAiClient, hasAnthropicClient, pipelineLoaded, prompt, config, oracle, canned, draws, latencyMs);
            var h := Handler(hasOpenAiClient, hasAnthropicClient, pipelineLoaded, config, oracle);
            && o.Returned? && !o.generated.isDemo
            && o.generated.response == h.text && o.generated.tokenUsage == h.tokenUsage
            && o.generated.metrics == CalculateMetrics(h.text, latencyMs, config)
  {
  }

  /**
   * Without a configured key the OpenAI and Anthropic handlers raise "... client
   * not initialized", which mentions no keyword: the call fails instead of
   * falling back.
   */
  lemma MissingClientFails(
    hasOpenAiClient: bool, hasAnthropicClient: bool, pipelineLoaded: bool,
    prompt: string, config: ModelConfig, oracle: Oracle, canned: string, draws: DemoDraws, latencyMs: real)
    requires ValidDraws(draws)
    requires (config.provider == OpenAi && !hasOpenAiClient) || (config.provider == Anthropic && !hasAnthropicClient)
    ensures Respond(false, hasOpenAiClient, hasAnthropicClient, pipelineLoaded, prompt, config, oracle, canned, draws, latencyMs)
         == Propagated(if config.provider == OpenAi then OpenAiNotInitialized else AnthropicNotInitialized)
  {
    MissingClientIsUnrecognised();
  }

  /** A provider failure such as "Error code: 429 ..." yields the fallback demo response. */
  lemma RateLimitedCallFallsBack(
    hasOpenAiClient: bool, hasAnthropicClient: bool, pipelineLoaded: bool,
    prompt: string, config: ModelConfig, oracle: Oracle, canned: string, draws: DemoDraws, latencyMs: real,
    prefix: string, suffix: string)
    requires ValidDraws(draws)
    requires config.provider == OpenAi && hasOpenAiClient && oracle.openAi == Fails(prefix + "429" + suffix)
    ensures Respond(false, hasOpenAiClient, hasAnthropicClient, pipelineLoaded, prompt, config, oracle, canned, draws, latencyMs)
         == Returned(DemoResponse(true, prompt, canned, draws, latencyMs))
  {
    QuotaMessageFallsBack(prefix, suffix);
  }

  // ---------------------------------------------------------------------
  // The service object
  // ---------------------------------------------------------------------

  const OpenAiKeyPlaceholder: string := "your_openai_api_key_here"
  const AnthropicKeyPlaceholder: string := "your_anthropic_api_key_here"

  /** `DEMO_MODE` read with default "false" and compared case-insensitively with "true". */
  predicate DemoModeEnabled(demoModeVar: Option<string>) {
    Lower(GetEnv(demoModeVar, "false")) == "true"
  }

  /**
   * The service. Which clients exist is fixed at construction; the Hugging
   * Face pipeline is built on first use and kept.
   */
  class LlmService {
    const demoMode: bool
    const hasOpenAiClient: bool
    const hasAnthropicClient: bool
    var hfPipelineLoaded: bool

    /** `__init__` and `_initialize_clients`: in demo mode no client is created. */
    constructor(demoModeVar: Option<string>, openAiKey: Option<string>, anthropicKey: Option<string>)
      ensures demoMode == DemoModeEnabled(demoModeVar)
      ensures hasOpenAiClient == (!demoMode && KeyConfigured(openAiKey, OpenAiKeyPlaceholder))
      ensures hasAnthropicClient == (!demoMode && KeyConfigured(anthropicKey, AnthropicKeyPlaceholder))
      ensures !hfPipelineLoaded
    {
      demoMode := DemoModeEnabled(demoModeVar);
      var openAi := false;
      var anthropic := false;
      if !DemoModeEnabled(demoModeVar) {
        if KeyConfigured(openAiKey, OpenAiKeyPlaceholder) {
          openAi := true;
        }
        if KeyConfigured(anthropicKey, AnthropicKeyPlaceholder) {
          anthropic := true;
        }
      }
      hasOpenAiClient := openAi;
      hasAnthropicClient := anthropic;
      hfPipelineLoaded := false;
    }

    /**
     * `generate_response`. `canned` is the text `random.choice` picked from
     * `DemoTexts(config.provider)`; the pipeline is built only by a Hugging Face
     * call outside demo mode, and once built stays built.
     */
    method GenerateResponse(prompt: string, config: ModelConfig, oracle: Oracle, canned: string, draws: DemoDraws, latencyMs: real)
      returns (o: Outcome)
      requires ValidDraws(draws) && StartsWithDemoEmoji(canned)
      modifies this
      ensures o == Respond(demoMode, hasOpenAiClient, hasAnthropicClient, old(hfPipelineLoaded),
                           prompt, config, oracle, canned, draws, latencyMs)
      ensures !demoMode && config.provider == HuggingFace ==> hfPipelineLoaded == PipelineLoadedAfter(old(hfPipelineLoaded), oracle)
      ensures demoMode || config.provider != HuggingFace ==> hfPipelineLoaded == old(hfPipelineLoaded)
    {
      var pipelineLoaded := hfPipelineLoaded;
      if !demoMode && config.provider == HuggingFace {
        hfPipelineLoaded := PipelineLoadedAfter(pipelineLoaded, oracle);
      }
      o := Respond(demoMode, hasOpenAiClient, hasAnthropicClient, pipelineLoaded,
                   prompt, config, oracle, canned, draws, latencyMs);
    }
  }
}
