/**
 * `LLMService` as backend/llm_service_backup.py writes it. It shares the
 * dispatch and the keyword fallback with the fixed version, but its demo
 * response carries no banner, so a fallback response reads exactly like an
 * explicit demo-mode one, and the Hugging Face response is the generated text
 * with the prompt cut off its front and whitespace stripped. The file defines
 * `_generate_demo_response` three times with the same body (lines 181, 358
 * and 535); Python keeps the last.
 */
module ServiceBackup {
  import opened Text
  import opened Models
  import opened TextMetrics
  import opened Dispatch

  // ---------------------------------------------------------------------
  // The demo response text
  // ---------------------------------------------------------------------

  const OpenAiDemoTexts: seq<string> := [
    "This is a demo response from GPT. In a real scenario, this would be generated by OpenAI's API. The response demonstrates how the application handles various types of outputs including reasoning, explanations, and structured content.",
    "Demo mode active: This response simulates OpenAI's language model output. The actual implementation would connect to OpenAI's API to generate contextually relevant responses based on your prompt.",
    "Welcome to the Prompt Engineering Playground! This demo response shows how different models might respond to your prompts. In production, this would be powered by OpenAI's advanced language models."
  ]

  const AnthropicDemoTexts: seq<string> := [
    "This is a simulated response from Claude. In production, this would be generated by Anthropic's AI assistant, providing thoughtful and helpful responses to your prompts with careful attention to safety and accuracy.",
    "Demo response from Claude simulation: This response demonstrates how Anthropic's models typically provide detailed, nuanced answers with strong reasoning capabilities and ethical considerations.",
    "Claude demo mode: This mock response showcases the type of helpful, harmless, and honest responses you would receive from Anthropic's AI models in a real deployment."
  ]

  const HuggingFaceDemoTexts: seq<string> := [
    "This is a demo response from a Hugging Face model. In actual use, this would be generated using open-source models from the Hugging Face Hub, offering various capabilities depending on the specific model selected.",
    "Hugging Face simulation: This response represents the output from community-driven open-source language models available through the Hugging Face ecosystem.",
    "Demo mode for Hugging Face: This mock response shows how open-source transformer models can provide diverse and creative outputs for your prompts."
  ]

  /** `demo_responses[provider]`: three canned texts per provider. */
  function DemoTexts(p: Provider): (texts: seq<string>)
    ensures |texts| == 3
  {
    match p
    case OpenAi => OpenAiDemoTexts
    case Anthropic => AnthropicDemoTexts
    case HuggingFace => HuggingFaceDemoTexts
  }

  const EchoOpening: string := " Your question about '"
  const Ellipsis: string := "..."
  const EchoTail: string := "' demonstrates the interactive nature of this prompt engineering tool."
  const EchoClosing: string := Ellipsis + EchoTail

  /** The sentence quoting the prompt: its first 50 characters, always followed by "...". */
  function PromptEcho(prompt: string): (e: string)
    ensures |prompt| > 50 ==> e == EchoOpening + prompt[..50] + EchoClosing
    ensures |prompt| <= 50 ==> e == EchoOpening + prompt + EchoClosing
    ensures |e| == |EchoOpening| + (if |prompt| < 50 then |prompt| else 50) + |EchoClosing|
  {
    EchoOpening + Take(prompt, 50) + EchoClosing
  }

  /** What follows the canned text: the echo when the prompt asks a question, else nothing. */
  function Echo(prompt: string): (e: string)
    ensures e != [] <==> AsksQuestion(prompt)
  {
    if AsksQuestion(prompt) then PromptEcho(prompt) else ""
  }

  /** The demo text: `canned`, the text `random.choice` picked, with the prompt echoed when it asks a question. */
  function DemoText(prompt: string, canned: string): (text: string) {
    canned + Echo(prompt)
  }

  /** The demo text always opens with the canned text. */
  lemma DemoTextStartsWithCanned(prompt: string, canned: string)
    ensures StartsWith(DemoText(prompt, canned), canned)
    ensures !AsksQuestion(prompt) ==> DemoText(prompt, canned) == canned
  {
    StartsWithAppend(canned, Echo(prompt));
  }

  /** A question's first 50 characters are quoted, followed by "...", whatever its length. */
  lemma QuestionIsQuoted(prompt: string, canned: string)
    requires AsksQuestion(prompt)
    ensures Contains(DemoText(prompt, canned), Take(prompt, 50) + Ellipsis)
  {
    var head := Take(prompt, 50);
    var front := canned + EchoOpening;
    AppendAssoc(head, Ellipsis, EchoTail);
    AppendAssoc(EchoOpening, head, Ellipsis + EchoTail);
    AppendAssoc(canned, EchoOpening, head + (Ellipsis + EchoTail));
    AppendAssoc(front, head + Ellipsis, EchoTail);
    AppendAssoc(front, head, Ellipsis);
    ContainsMiddle(front, head + Ellipsis, EchoTail);
  }

  /** How `_generate_demo_response` assembles `response_text`: the canned text, then `+=` the echo. */
  method BuildDemoText(prompt: string, canned: string) returns (text: string)
    ensures text == DemoText(prompt, canned)
  {
    text := canned;
    if AsksQuestion(prompt) {
      text := text + (EchoOpening + Take(prompt, 50) + EchoClosing);
    } else {
      assert text + "" == text;
    }
  }

  /** `_generate_demo_response`: the demo text with its mock metrics. */
  function DemoResponse(prompt: string, canned: string, draws: DemoDraws, latencyMs: real): (g: Generated)
    requires ValidDraws(draws)
    ensures g.isDemo && g.response == DemoText(prompt, canned)
    ensures 0.0001 <= g.metrics.costEstimate <= 0.001
    ensures g.metrics.responseLength == |g.response|
  {
    DemoGenerated(DemoText(prompt, canned), prompt, draws, latencyMs)
  }

  // ---------------------------------------------------------------------
  // generate_response
  // ---------------------------------------------------------------------

  /** The pipeline's `generated_text` with the prompt's length cut off its front, then stripped. */
  function Continuation(prompt: string, generated: string): (text: string) {
    Strip(Drop(generated, |prompt|))
  }

  /** When the generated text repeats the prompt, the response is the stripped continuation. */
  lemma ContinuationDropsPrompt(prompt: string, continuation: string)
    ensures Continuation(prompt, prompt + continuation) == Strip(continuation)
  {
    assert (prompt + continuation)[|prompt|..] == continuation;
  }

  /** A generated text no longer than the prompt leaves an empty response. */
  lemma ShortGenerationIsEmpty(prompt: string, generated: string)
    requires |generated| <= |prompt|
    ensures Continuation(prompt, generated) == ""
  {
  }

  /** `_generate_huggingface_response`: the continuation is the response, its word count the token estimate. */
  function HuggingFaceHandler(pipelineLoaded: bool, prompt: string, oracle: Oracle): (h: HandlerResult)
    ensures h.Produced? ==> oracle.huggingFace.Reply? && h.text == Continuation(prompt, oracle.huggingFace.value)
    ensures h.Produced? ==> pipelineLoaded || oracle.pipelineLoad.None?
    ensures h.Produced? ==> h.tokenUsage == map["estimated_tokens" := |Words(h.text)| as real]
    ensures h.Raised? ==> HuggingFaceCall(pipelineLoaded, oracle).Fails?
  {
    match HuggingFaceCall(pipelineLoaded, oracle)
    case Fails(message) => Raised(message)
    case Reply(generated) =>
      var text := Continuation(prompt, generated);
      Produced(text, map["estimated_tokens" := |Words(text)| as real])
  }

  /** The handler that runs for `config.provider` outside demo mode. */
  function Handler(hasOpenAiClient: bool, hasAnthropicClient: bool, pipelineLoaded: bool, prompt: string, config: ModelConfig, oracle: Oracle): HandlerResult {
    SelectHandler(config.provider, hasOpenAiClient, hasAnthropicClient, oracle, HuggingFaceHandler(pipelineLoaded, prompt, oracle))
  }

  /** What one `generate_response` call returns or raises; `canned` is the demo text `random.choice` picked. */
  function Respond(
    demoMode: bool, hasOpenAiClient: bool, hasAnthropicClient: bool, pipelineLoaded: bool,
    prompt: string, config: ModelConfig, oracle: Oracle, canned: string, draws: DemoDraws, latencyMs: real): (o: Outcome)
    requires ValidDraws(draws)
  {
    if demoMode then Returned(DemoResponse(prompt, canned, draws, latencyMs))
    else Settle(Handler(hasOpenAiClient, hasAnthropicClient, pipelineLoaded, prompt, config, oracle),
                DemoResponse(prompt, canned, draws, latencyMs), latencyMs, config)
  }

  /** In demo mode no provider is consulted: the result is the demo response. */
  lemma DemoModeShortCircuits(
    hasOpenAiClient: bool, hasAnthropicClient: bool, pipelineLoaded: bool,
    prompt: string, config: ModelConfig, oracle1: Oracle, oracle2: Oracle, canned: string, draws: DemoDraws, latencyMs: real)
    requires ValidDraws(draws)
    ensures Respond(true, hasOpenAiClient, hasAnthropicClient, pipelineLoaded, prompt, config, oracle1, canned, draws, latencyMs)
         == Respond(true, hasOpenAiClient, hasAnthropicClient, pipelineLoaded, prompt, config, oracle2, canned, draws, latencyMs)
    ensures Respond(true, hasOpenAiClient, hasAnthropicClient, pipelineLoaded, prompt, config, oracle1, canned, draws, latencyMs)
         == Returned(DemoResponse(prompt, canned, draws, latencyMs))
  {
  }

  /**
   * A fallback response is the very response demo mode would give: nothing in
   * it tells the caller that the provider failed.
   */
  lemma FallbackIndistinguishableFromDemoMode(
    hasOpenAiClient: bool, hasAnthropicClient: bool, pipelineLoaded: bool,
    prompt: string, config: ModelConfig, oracle: Oracle, canned: string, draws: DemoDraws, latencyMs: real)
    requires ValidDraws(draws)
    ensures var o := Respond(false, hasOpenAiClient, hasAnthropicClient, pipelineLoaded, prompt, config, oracle, canned, draws, latencyMs);
            var h := Handler(hasOpenAiClient, hasAnthropicClient, pipelineLoaded, prompt, config, oracle);
            && ((o.Returned? && o.generated.isDemo) <==> h.Raised? && Classify(h.message) != Unrecognised)
            && (o.Returned? && o.generated.isDemo ==>
                  o == Respond(true, hasOpenAiClient, hasAnthropicClient, pipelineLoaded, prompt, config, oracle, canned, draws, latencyMs))
  {
  }

  /**
   * Outside demo mode an exception escapes exactly when the handler raised
   * one that mentions no keyword, and it escapes unchanged.
   */
  lemma PropagatesIffUnrecognised(
    hasOpenAiClient: bool, hasAnthropicClient: bool, pipelineLoaded: bool,
    prompt: string, config: ModelConfig, oracle: Oracle, canned: string, draws: DemoDraws, latencyMs: real)
    requires ValidDraws(draws)
    ensures var o := Respond(false, hasOpenAiClient, hasAnthropicClient, pipelineLoaded, prompt, config, oracle, canned, draws, latencyMs);
            var h := Handler(hasOpenAiClient, hasAnthropicClient, pipelineLoaded, prompt, config, oracle);
            && (o.Propagated? <==> h.Raised? && Classify(h.message) == Unrecognised)
            && (o.Propagated? ==> o.message == h.message)
  {
  }

  /** Without a configured key the OpenAI and Anthropic calls fail instead of falling back. */
  lemma MissingClientFails(
    hasOpenAiClient: bool, hasAnthropicClient: bool, pipelineLoaded: bool,
    prompt: string, config: ModelConfig, oracle: Oracle, canned: string, draws: DemoDraws, latencyMs: real)
    requires ValidDraws(draws)
    requires (config.provider == OpenAi && !hasOpenAiClient) || (config.provider == Anthropic && !hasAnthropicClient)
    ensures Respond(false, hasOpenAiClient, hasAnthropicClient, pipelineLoaded, prompt, config, oracle, canned, draws, latencyMs)
         == Propagated(if config.provider == OpenAi then OpenAiNotInitialized else AnthropicNotInitialized)
  {
    MissingClientIsUnrecognised();
  }

  /** A Hugging Face reply that repeats the prompt is returned as the stripped continuation, with metrics on it. */
  lemma HuggingFaceReplyIsContinuation(
    hasOpenAiClient: bool, hasAnthropicClient: bool, pipelineLoaded: bool,
    prompt: string, config: ModelConfig, oracle: Oracle, canned: string, draws: DemoDraws, latencyMs: real,
    continuation: string)
    requires ValidDraws(draws)
    requires config.provider == HuggingFace && (pipelineLoaded || oracle.pipelineLoad.None?)
    requires oracle.huggingFace == Reply(prompt + continuation)
    ensures var o := Respond(false, hasOpenAiClient, hasAnthropicClient, pipelineLoaded, prompt, config, oracle, canned, draws, latencyMs);
            && o.Returned? && !o.generated.isDemo
            && o.generated.response == Strip(continuation)
            && o.generated.metrics == CalculateMetrics(Strip(continuation), latencyMs, config)
  {
    ContinuationDropsPrompt(prompt, continuation);
  }

  // ---------------------------------------------------------------------
  // The service object
  // ---------------------------------------------------------------------

  const OpenAiKeyPlaceholder: string := "your_openai_api_key_here"
  const AnthropicKeyPlaceholder: string := "your_anthropic_api_key_here"

  /** `DEMO_MODE` read with default "false" and compared case-insensitively with "true". */
  predicate DemoModeEnabled(demoModeVar: Option<string>) {
    Lower(GetEnv(demoModeVar, "false")) == "true"
  }

  /**
   * The service. Which clients exist is fixed at construction; the Hugging
   * Face pipeline is built on first use and kept.
   */
  class LlmService {
    const demoMode: bool
    const hasOpenAiClient: bool
    const hasAnthropicClient: bool
    var hfPipelineLoaded: bool

    /** `__init__` and `_initialize_clients`: in demo mode no client is created. */
    constructor(demoModeVar: Option<string>, openAiKey: Option<string>, anthropicKey: Option<string>)
      ensures demoMode == DemoModeEnabled(demoModeVar)
      ensures hasOpenAiClient == (!demoMode && KeyConfigured(openAiKey, OpenAiKeyPlaceholder))
      ensures hasAnthropicClient == (!demoMode && KeyConfigured(anthropicKey, AnthropicKeyPlaceholder))
      ensures !hfPipelineLoaded
    {
      demoMode := DemoModeEnabled(demoModeVar);
      var openAi := false;
      var anthropic := false;
      if !DemoModeEnabled(demoModeVar) {
        if KeyConfigured(openAiKey, OpenAiKeyPlaceholder) {
          openAi := true;
        }
        if KeyConfigured(anthropicKey, AnthropicKeyPlaceholder) {
          anthropic := true;
        }
      }
      hasOpenAiClient := openAi;
      hasAnthropicClient := anthropic;
      hfPipelineLoaded := false;
    }

    /**
     * `generate_response`. `canned` is the text `random.choice` picked from
     * `DemoTexts(config.provider)`; the pipeline is built only by a Hugging Face
     * call outside demo mode, and once built stays built.
     */
    method GenerateResponse(prompt: string, config: ModelConfig, oracle: Oracle, canned: string, draws: DemoDraws, latencyMs: real)
      returns (o: Outcome)
      requires ValidDraws(draws)
      modifies this
      ensures o == Respond(demoMode, hasOpenAiClient, hasAnthropicClient, old(hfPipelineLoaded),
                           prompt, config, oracle, canned, draws, latencyMs)
      ensures !demoMode && config.provider == HuggingFace ==> hfPipelineLoaded == PipelineLoadedAfter(old(hfPipelineLoaded), oracle)
      ensures demoMode || config.provider != HuggingFace ==> hfPipelineLoaded == old(hfPipelineLoaded)
    {
      var pipelineLoaded := hfPipelineLoaded;
      if !demoMode && config.provider == HuggingFace {
        hfPipelineLoaded := PipelineLoadedAfter(pipelineLoaded, oracle);
      }
      o := Respond(demoMode, hasOpenAiClient, hasAnthropicClient, pipelineLoaded,
                   prompt, config, oracle, canned, draws, latencyMs);
    }
  }
}
