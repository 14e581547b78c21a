/**
 * The request and record types of the backend (backend/models.py): the
 * provider and template-category enumerations, the model configuration with
 * its field bounds and defaults, the experiment request, the metrics record,
 * the persisted experiment result and log, and the A/B-test configuration.
 * Floats are `real`; a pydantic `Field(ge=…, le=…)` bound is a predicate.
 */
module Models {
  import opened Text

  /** `ModelProvider`: exactly three values. */
  datatype Provider = OpenAi | Anthropic | HuggingFace

  /** The enum's string value (`provider.value`). */
  function ProviderValue(p: Provider): string {
    match p
    case OpenAi => "openai"
    case Anthropic => "anthropic"
    case HuggingFace => "huggingface"
  }

  /** What validation does with the JSON string: one of the three values or nothing. */
  function ParseProvider(s: string): (p: Option<Provider>)
    ensures p.Some? ==> ProviderValue(p.value) == s
    ensures p.None? ==> s !in {"openai", "anthropic", "huggingface"}
  {
    if s == "openai" then Some(OpenAi)
    else if s == "anthropic" then Some(Anthropic)
    else if s == "huggingface" then Some(HuggingFace)
    else None
  }

  lemma ProviderRoundTrip(p: Provider)
    ensures ParseProvider(ProviderValue(p)) == Some(p)
  {
  }

  /** `PromptTemplate.category`: exactly four literals. */
  datatype TemplateCategory = ZeroShot | OneShot | FewShot | ChainOfThought

  function CategoryValue(c: TemplateCategory): string {
    match c
    case ZeroShot => "zero-shot"
    case OneShot => "one-shot"
    case FewShot => "few-shot"
    case ChainOfThought => "chain-of-thought"
  }

  function ParseCategory(s: string): (c: Option<TemplateCategory>)
    ensures c.Some? ==> CategoryValue(c.value) == s
    ensures c.None? ==> s !in {"zero-shot", "one-shot", "few-shot", "chain-of-thought"}
  {
    if s == "zero-shot" then Some(ZeroShot)
    else if s == "one-shot" then Some(OneShot)
    else if s == "few-shot" then Some(FewShot)
    else if s == "chain-of-thought" then Some(ChainOfThought)
    else None
  }

  lemma CategoryRoundTrip(c: TemplateCategory)
    ensures ParseCategory(CategoryValue(c)) == Some(c)
  {
  }

  /** `PromptTemplate`; timestamps are abstract instants. */
  datatype PromptTemplate = PromptTemplate(
    id: Option<string>,
    name: string,
    description: string,
    template: string,
    category: TemplateCategory,
    variables: seq<string>,
    createdAt: Option<int>,
    updatedAt: Option<int>)

  /** `ModelConfig`; the optional fields are `Optional[...]` in the source. */
  datatype ModelConfig = ModelConfig(
    provider: Provider,
    modelName: string,
    temperature: real,
    maxTokens: Option<int>,
    topP: Option<real>,
    frequencyPenalty: Option<real>,
    presencePenalty: Option<real>)

  /** Each field of `ModelConfig` that can fail its bound. */
  datatype ConfigField = Temperature | MaxTokens | TopP | FrequencyPenalty | PresencePenalty

  predicate InRange(x: real, lo: real, hi: real) { lo <= x <= hi }

  predicate OptionalInRange(x: Option<real>, lo: real, hi: real) {
    x.None? || InRange(x.value, lo, hi)
  }

  /** Whether field `f` of `c` satisfies its `Field(ge=…, le=…)` bound. */
  predicate FieldValid(c: ModelConfig, f: ConfigField) {
    match f
    case Temperature => InRange(c.temperature, 0.0, 2.0)
    case MaxTokens => c.maxTokens.None? || 1 <= c.maxTokens.value <= 4000
    case TopP => OptionalInRange(c.topP, 0.0, 1.0)
    case FrequencyPenalty => OptionalInRange(c.frequencyPenalty, -2.0, 2.0)
    case PresencePenalty => OptionalInRange(c.presencePenalty, -2.0, 2.0)
  }

  /** A `ModelConfig` pydantic accepts. */
  predicate ValidModelConfig(c: ModelConfig) {
    forall f: ConfigField :: FieldValid(c, f)
  }

  /**
   * The fields pydantic reports in its validation error, in declaration
   * order; the config is accepted when there are none.
   */
  function ConfigViolations(c: ModelConfig): (errs: seq<ConfigField>)
    ensures errs == [] <==> ValidModelConfig(c)
    ensures forall f :: f in errs <==> !FieldValid(c, f)
  {
    (if FieldValid(c, Temperature) then [] else [Temperature])
    + (if FieldValid(c, MaxTokens) then [] else [MaxTokens])
    + (if FieldValid(c, TopP) then [] else [TopP])
    + (if FieldValid(c, FrequencyPenalty) then [] else [FrequencyPenalty])
    + (if FieldValid(c, PresencePenalty) then [] else [PresencePenalty])
  }

  /** The config built when only `provider` and `model_name` are given. */
  function DefaultModelConfig(provider: Provider, modelName: string): (c: ModelConfig)
    ensures ValidModelConfig(c)
    ensures c.provider == provider && c.modelName == modelName
    ensures c.temperature == 0.7 && c.maxTokens == Some(1000)
    ensures c.topP == Some(1.0) && c.frequencyPenalty == Some(0.0) && c.presencePenalty == Some(0.0)
  {
    ModelConfig(provider, modelName, 0.7, Some(1000), Some(1.0), Some(0.0), Some(0.0))
  }

  /** `ExperimentRequest`; `variables` is carried but never read by the core. */
  datatype ExperimentRequest = ExperimentRequest(
    prompt: string,
    modelConfigs: seq<ModelConfig>,
    templateId: Option<string>,
    variables: map<string, string>,
    numRuns: int,
    enableAbTesting: bool)

  /** An `ExperimentRequest` pydantic accepts: only `num_runs` and the nested configs are bounded. */
  predicate ValidExperimentRequest(r: ExperimentRequest) {
    && 1 <= r.numRuns <= 10
    && forall c :: c in r.modelConfigs ==> ValidModelConfig(c)
  }

  /** The request built from a prompt and configs alone. */
  function DefaultExperimentRequest(prompt: string, configs: seq<ModelConfig>): (r: ExperimentRequest)
    ensures r.numRuns == 1 && !r.enableAbTesting && r.templateId.None? && r.variables == map[]
    ensures r.prompt == prompt && r.modelConfigs == configs
    ensures (forall c :: c in configs ==> ValidModelConfig(c)) <==> ValidExperimentRequest(r)
  {
    ExperimentRequest(prompt, configs, None, map[], 1, false)
  }

  /** An empty prompt and an empty list of configs pass validation. */
  lemma EmptyRequestIsValid()
    ensures ValidExperimentRequest(DefaultExperimentRequest("", []))
  {
  }

  /** `MetricsData`; the three heuristic scores are optional. */
  datatype MetricsData = MetricsData(
    responseLength: int,
    tokenCount: int,
    latencyMs: real,
    costEstimate: real,
    sentimentScore: Option<real>,
    readabilityScore: Option<real>,
    coherenceScore: Option<real>)

  /** `ExperimentResult`: one successful run as handed to the store; `metrics` is the `MetricsData` dict. */
  datatype ExperimentResult = ExperimentResult(
    experimentId: string,
    prompt: string,
    modelConfiguration: ModelConfig,
    response: string,
    metrics: MetricsData,
    timestamp: int,
    runNumber: int)

  /** `ExperimentLog`: a stored experiment row. */
  datatype ExperimentLog = ExperimentLog(
    id: string,
    experimentId: string,
    prompt: string,
    modelProvider: string,
    modelName: string,
    response: string,
    metrics: MetricsData,
    timestamp: int,
    userRating: Option<int>,
    notes: Option<string>)

  /** `user_rating`'s bound: absent or in 1..5. */
  predicate ValidRating(r: Option<int>) {
    r.None? || 1 <= r.value <= 5
  }

  predicate ValidExperimentLog(log: ExperimentLog) {
    ValidRating(log.userRating)
  }

  /** `ABTestConfig.success_metric`: exactly four literals. */
  datatype SuccessMetric = Latency | ResponseLength | UserRating | Cost

  function SuccessMetricValue(m: SuccessMetric): string {
    match m
    case Latency => "latency"
    case ResponseLength => "response_length"
    case UserRating => "user_rating"
    case Cost => "cost"
  }

  function ParseSuccessMetric(s: string): (m: Option<SuccessMetric>)
    ensures m.Some? ==> SuccessMetricValue(m.value) == s
    ensures m.None? ==> s !in {"latency", "response_length", "user_rating", "cost"}
  {
    if s == "latency" then Some(Latency)
    else if s == "response_length" then Some(ResponseLength)
    else if s == "user_rating" then Some(UserRating)
    else if s == "cost" then Some(Cost)
    else None
  }

  lemma SuccessMetricRoundTrip(m: SuccessMetric)
    ensures ParseSuccessMetric(SuccessMetricValue(m)) == Some(m)
  {
  }

  datatype AbTestConfig = AbTestConfig(
    variantA: ModelConfig,
    variantB: ModelConfig,
    trafficSplit: real,
    successMetric: SuccessMetric)

  predicate ValidAbTestConfig(t: AbTestConfig) {
    ValidModelConfig(t.variantA) && ValidModelConfig(t.variantB) && InRange(t.trafficSplit, 0.0, 1.0)
  }

  /** The A/B configuration built without an explicit `traffic_split`. */
  function DefaultAbTestConfig(a: ModelConfig, b: ModelConfig, metric: SuccessMetric): (t: AbTestConfig)
    ensures t.trafficSplit == 0.5
    ensures ValidAbTestConfig(t) <==> ValidModelConfig(a) && ValidModelConfig(b)
  {
    AbTestConfig(a, b, 0.5, metric)
  }
}
