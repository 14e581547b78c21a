/**
 * The persistence layer (backend/data_service.py) over abstract tables: the
 * `get_experiments` query and parameter builder, the flattening of stored
 * rows for analysis, and the experiment and template tables as maps from
 * primary key to row that `save_experiment`, `save_template`,
 * `delete_template` and `update_experiment_rating` change in place.
 */
module Store {
  import opened Text
  import opened Models

  // ---------------------------------------------------------------------
  // The query builder of `get_experiments`
  // ---------------------------------------------------------------------

  /** A bound SQL parameter: a string or an integer. */
  datatype Param = StrParam(s: string) | IntParam(n: int)

  /** The placeholder SQLite binds a parameter to. */
  const Mark := "?"

  const SelectAll := "SELECT * FROM experiments WHERE 1=1"
  const ProviderTest := " AND model_provider = "
  const StartTest := " AND timestamp >= "
  const EndTest := " AND timestamp <= "
  const ProviderClause := ProviderTest + Mark
  const StartClause := StartTest + Mark
  const EndClause := EndTest + Mark
  const OrderAndLimit := " ORDER BY timestamp DESC LIMIT "
  const OffsetWord := " OFFSET "
  const OrderAndPage := OrderAndLimit + Mark + OffsetWord + Mark

  /** A filter that made it into the query; dates are their `isoformat()` text. */
  datatype Filter = ProviderIs(provider: string) | StartsAt(date: string) | EndsAt(date: string)

  /** Position of a filter's clause in the query. */
  function Rank(f: Filter): nat {
    match f
    case ProviderIs(_) => 0
    case StartsAt(_) => 1
    case EndsAt(_) => 2
  }

  /**
   * The filters `get_experiments` applies: a provider only when it is a
   * non-empty string (Python truthiness), a date whenever one is given, in
   * the order provider, start, end.
   */
  function ActiveFilters(modelProvider: Option<string>, startDate: Option<string>, endDate: Option<string>): (fs: seq<Filter>)
    ensures |fs| <= 3
    ensures forall i, j :: 0 <= i < j < |fs| ==> Rank(fs[i]) < Rank(fs[j])
    ensures forall p :: ProviderIs(p) in fs <==> modelProvider == Some(p) && p != ""
    ensures forall d :: StartsAt(d) in fs <==> startDate == Some(d)
    ensures forall d :: EndsAt(d) in fs <==> endDate == Some(d)
  {
    (if modelProvider.Some? && modelProvider.value != "" then [ProviderIs(modelProvider.value)] else [])
    + (if startDate.Some? then [StartsAt(startDate.value)] else [])
    + (if endDate.Some? then [EndsAt(endDate.value)] else [])
  }

  /** An empty provider string filters nothing. */
  lemma EmptyProviderAddsNothing(startDate: Option<string>, endDate: Option<string>)
    ensures ActiveFilters(Some(""), startDate, endDate) == ActiveFilters(None, startDate, endDate)
  {
  }

  function Clause(f: Filter): string {
    match f
    case ProviderIs(_) => ProviderClause
    case StartsAt(_) => StartClause
    case EndsAt(_) => EndClause
  }

  function FilterParam(f: Filter): Param {
    match f
    case ProviderIs(p) => StrParam(p)
    case StartsAt(d) => StrParam(d)
    case EndsAt(d) => StrParam(d)
  }

  /** The clauses of `fs`, in order. */
  function Clauses(fs: seq<Filter>): string {
    if |fs| == 0 then [] else Clauses(fs[..|fs| - 1]) + Clause(fs[|fs| - 1])
  }

  /** The parameters of `fs`, in order. */
  function FilterParams(fs: seq<Filter>): (ps: seq<Param>)
    ensures |ps| == |fs|
    ensures forall i :: 0 <= i < |fs| ==> ps[i] == FilterParam(fs[i])
  {
    if |fs| == 0 then [] else FilterParams(fs[..|fs| - 1]) + [FilterParam(fs[|fs| - 1])]
  }

  /** A text without the placeholder character counts none. */
  lemma Unmarked(s: string)
    requires '?' !in s
    ensures Count(s, '?') == 0
  {
    CountZeroIff(s, '?');
  }

  /** The literal pieces of the query other than `Mark` hold no placeholder. */
  lemma SelectAllUnmarked()
    ensures Count(SelectAll, '?') == 0
  {
    Unmarked(SelectAll);
  }

  lemma ProviderTestUnmarked()
    ensures Count(ProviderTest, '?') == 0
  {
    Unmarked(ProviderTest);
  }

  lemma StartTestUnmarked()
    ensures Count(StartTest, '?') == 0
  {
    Unmarked(StartTest);
  }

  lemma EndTestUnmarked()
    ensures Count(EndTest, '?') == 0
  {
    Unmarked(EndTest);
  }

  lemma OrderAndLimitUnmarked()
    ensures Count(OrderAndLimit, '?') == 0
  {
    Unmarked(OrderAndLimit);
  }

  lemma OffsetWordUnmarked()
    ensures Count(OffsetWord, '?') == 0
  {
    Unmarked(OffsetWord);
  }

  /** Each filter clause holds exactly one placeholder. */
  lemma ClauseHasOneMark(f: Filter)
    ensures Count(Clause(f), '?') == 1
  {
    match f
    case ProviderIs(_) =>
      ProviderTestUnmarked();
      CountAppend(ProviderTest, Mark, '?');
    case StartsAt(_) =>
      StartTestUnmarked();
      CountAppend(StartTest, Mark, '?');
    case EndsAt(_) =>
      EndTestUnmarked();
      CountAppend(EndTest, Mark, '?');
  }

  /** The fixed head has no placeholder and the fixed tail has two. */
  lemma FixedPartsMarks()
    ensures Count(SelectAll, '?') == 0
    ensures Count(OrderAndPage, '?') == 2
  {
    SelectAllUnmarked();
    OrderAndLimitUnmarked();
    OffsetWordUnmarked();
    CountAppend(OrderAndLimit, Mark, '?');
    CountAppend(OrderAndLimit + Mark, OffsetWord, '?');
    CountAppend(OrderAndLimit + Mark + OffsetWord, Mark, '?');
  }

  /** The clauses carry as many placeholders as there are filter parameters. */
  lemma {:induction false} ClausesMarks(fs: seq<Filter>)
    ensures Count(Clauses(fs), '?') == |FilterParams(fs)|
  {
    if |fs| > 0 {
      ClausesMarks(fs[..|fs| - 1]);
      ClauseHasOneMark(fs[|fs| - 1]);
      CountAppend(Clauses(fs[..|fs| - 1]), Clause(fs[|fs| - 1]), '?');
    }
  }

  /** The full query has one placeholder per bound parameter. */
  lemma QueryMarksMatchParams(fs: seq<Filter>, limit: int, offset: int)
    ensures Count(SelectAll + Clauses(fs) + OrderAndPage, '?') == |FilterParams(fs) + [IntParam(limit), IntParam(offset)]|
  {
    ClausesMarks(fs);
    FixedPartsMarks();
    CountAppend(SelectAll, Clauses(fs), '?');
    CountAppend(SelectAll + Clauses(fs), OrderAndPage, '?');
  }

  /** A clause or parameter list that an `if` appends only when its test holds. */
  function Part<T>(present: bool, piece: seq<T>): seq<T> {
    if present then piece else []
  }

  /** Python truthiness of an optional string. */
  predicate Truthy(s: Option<string>) {
    s.Some? && s.value != ""
  }

  /** The query text `get_experiments` sends. */
  function QueryText(modelProvider: Option<string>, startDate: Option<string>, endDate: Option<string>): string {
    SelectAll
      + Part(Truthy(modelProvider), ProviderClause)
      + Part(startDate.Some?, StartClause)
      + Part(endDate.Some?, EndClause)
      + OrderAndPage
  }

  /** The parameter a filter test binds when it holds. */
  function ProviderParam(modelProvider: Option<string>): seq<Param> {
    if Truthy(modelProvider) then [StrParam(modelProvider.value)] else []
  }

  function DateParam(date: Option<string>): seq<Param> {
    if date.Some? then [StrParam(date.value)] else []
  }

  /** The parameters `get_experiments` binds. */
  function QueryParams(limit: int, offset: int, modelProvider: Option<string>, startDate: Option<string>, endDate: Option<string>): seq<Param> {
    ProviderParam(modelProvider) + DateParam(startDate) + DateParam(endDate) + [IntParam(limit), IntParam(offset)]
  }

  lemma AppendNothing<T>(s: seq<T>)
    ensures s + [] == s
  {
  }

  /** The query is the fixed head, one clause per active filter in order, and the fixed tail. */
  lemma {:induction false} QueryTextIsClauses(modelProvider: Option<string>, startDate: Option<string>, endDate: Option<string>)
    ensures QueryText(modelProvider, startDate, endDate)
      == SelectAll + Clauses(ActiveFilters(modelProvider, startDate, endDate)) + OrderAndPage
  {
    var p := Part(Truthy(modelProvider), ProviderClause);
    var st := Part(startDate.Some?, StartClause);
    var en := Part(endDate.Some?, EndClause);
    var fp := if Truthy(modelProvider) then [ProviderIs(modelProvider.value)] else [];
    var fs := if startDate.Some? then [StartsAt(startDate.value)] else [];
    var fe := if endDate.Some? then [EndsAt(endDate.value)] else [];
    assert Clauses(fp) == p;
    assert Clauses(fp + fs) == p + st by {
      if startDate.Some? {
        assert (fp + fs)[..|fp|] == fp;
      } else {
        assert fp + fs == fp;
      }
    }
    assert Clauses(fp + fs + fe) == p + st + en by {
      if endDate.Some? {
        assert (fp + fs + fe)[..|fp + fs|] == fp + fs;
      } else {
        assert fp + fs + fe == fp + fs;
      }
    }
    assert ActiveFilters(modelProvider, startDate, endDate) == fp + fs + fe;
    AppendAssoc(SelectAll, p, st);
    AppendAssoc(SelectAll, p + st, en);
    AppendAssoc(SelectAll + p, st, en);
  }

  /** The parameters are one per active filter in order, then `limit` and `offset`. */
  lemma FilterParamsAppend(a: seq<Filter>, b: seq<Filter>)
    ensures FilterParams(a + b) == FilterParams(a) + FilterParams(b)
  {
    var l, r := FilterParams(a + b), FilterParams(a) + FilterParams(b);
    assert |l| == |r|;
    forall i | 0 <= i < |l|
      ensures l[i] == r[i]
    {
      if i < |a| {
        assert (a + b)[i] == a[i];
      } else {
        assert (a + b)[i] == b[i - |a|];
      }
    }
  }

  lemma QueryParamsAreFilters(limit: int, offset: int, modelProvider: Option<string>, startDate: Option<string>, endDate: Option<string>)
    ensures QueryParams(limit, offset, modelProvider, startDate, endDate)
      == FilterParams(ActiveFilters(modelProvider, startDate, endDate)) + [IntParam(limit), IntParam(offset)]
  {
    var fp := if Truthy(modelProvider) then [ProviderIs(modelProvider.value)] else [];
    var fs := if startDate.Some? then [StartsAt(startDate.value)] else [];
    var fe := if endDate.Some? then [EndsAt(endDate.value)] else [];
    assert FilterParams(fp + fs + fe) == ProviderParam(modelProvider) + DateParam(startDate) + DateParam(endDate) by {
      FilterParamsAppend(fp, fs);
      FilterParamsAppend(fp + fs, fe);
      assert FilterParams(fp) == ProviderParam(modelProvider);
      assert FilterParams(fs) == DateParam(startDate);
      assert FilterParams(fe) == DateParam(endDate);
    }
    assert ActiveFilters(modelProvider, startDate, endDate) == fp + fs + fe;
  }

  /**
   * What `get_experiments` promises of its query: the unfiltered select
   * first, the ordering and paging last, `limit` and `offset` bound last,
   * and exactly one bound parameter per placeholder.
   */
  lemma QueryWellFormed(limit: int, offset: int, modelProvider: Option<string>, startDate: Option<string>, endDate: Option<string>)
    ensures var query := QueryText(modelProvider, startDate, endDate);
      var params := QueryParams(limit, offset, modelProvider, startDate, endDate);
      && Count(query, '?') == |params|
      && StartsWith(query, SelectAll) && EndsWith(query, OrderAndPage)
      && |params| >= 2 && params[|params| - 2..] == [IntParam(limit), IntParam(offset)]
  {
    var fs := ActiveFilters(modelProvider, startDate, endDate);
    var query := QueryText(modelProvider, startDate, endDate);
    QueryTextIsClauses(modelProvider, startDate, endDate);
    QueryParamsAreFilters(limit, offset, modelProvider, startDate, endDate);
    QueryMarksMatchParams(fs, limit, offset);
    StartsWithAppend(SelectAll, Clauses(fs) + OrderAndPage);
    AppendAssoc(SelectAll, Clauses(fs), OrderAndPage);
    assert query[|query| - |OrderAndPage|..] == OrderAndPage;
  }

  /** `get_experiments`' query and parameters, grown clause by clause. */
  method BuildExperimentsQuery(limit: int, offset: int, modelProvider: Option<string>, startDate: Option<string>, endDate: Option<string>)
    returns (query: string, params: seq<Param>)
    ensures query == QueryText(modelProvider, startDate, endDate)
    ensures params == QueryParams(limit, offset, modelProvider, startDate, endDate)
  {
    query := SelectAll;
    params := [];

    if modelProvider.Some? && modelProvider.value != "" {
      query := query + ProviderClause;
      params := params + [StrParam(modelProvider.value)];
    } else {
      AppendNothing(query);
    }

    if startDate.Some? {
      query := query + StartClause;
      params := params + [StrParam(startDate.value)];
    } else {
      AppendNothing(query);
      AppendNothing(params);
    }

    if endDate.Some? {
      query := query + EndClause;
      params := params + [StrParam(endDate.value)];
    } else {
      AppendNothing(query);
      AppendNothing(params);
    }

    query := query + OrderAndPage;
    params := params + [IntParam(limit), IntParam(offset)];
  }

  // ---------------------------------------------------------------------
  // Stored rows and their flattening
  // ---------------------------------------------------------------------

  /** A decoded JSON or SQLite value. */
  datatype Cell = Null | Str(s: string) | Int(i: int) | Real(r: real)

  function OptionalInt(x: Option<int>): Cell {
    if x.Some? then Int(x.value) else Null
  }

  function OptionalReal(x: Option<real>): Cell {
    if x.Some? then Real(x.value) else Null
  }

  function OptionalStr(x: Option<string>): Cell {
    if x.Some? then Str(x.value) else Null
  }

  /** A row of the `experiments` table with its JSON columns decoded. */
  datatype ExperimentRow = ExperimentRow(
    id: string,
    prompt: string,
    modelProvider: string,
    modelName: string,
    modelConfig: map<string, Cell>,
    response: string,
    metrics: map<string, Cell>,
    timestamp: int,
    userRating: Option<int>,
    notes: Option<string>,
    experimentGroup: Option<string>)

  /** `model_configuration.dict()` as stored in the `model_config` column. */
  function ConfigCells(c: ModelConfig): map<string, Cell> {
    map[
      "provider" := Str(ProviderValue(c.provider)),
      "model_name" := Str(c.modelName),
      "temperature" := Real(c.temperature),
      "max_tokens" := OptionalInt(c.maxTokens),
      "top_p" := OptionalReal(c.topP),
      "frequency_penalty" := OptionalReal(c.frequencyPenalty),
      "presence_penalty" := OptionalReal(c.presencePenalty)]
  }

  /** The metrics dict as stored in the `metrics` column. */
  function MetricsCells(m: MetricsData): map<string, Cell> {
    map[
      "response_length" := Int(m.responseLength),
      "token_count" := Int(m.tokenCount),
      "latency_ms" := Real(m.latencyMs),
      "cost_estimate" := Real(m.costEstimate),
      "sentiment_score" := OptionalReal(m.sentimentScore),
      "readability_score" := OptionalReal(m.readabilityScore),
      "coherence_score" := OptionalReal(m.coherenceScore)]
  }

  /** The nine columns copied unchanged into a flattened row. */
  function BaseFields(e: ExperimentRow): (b: map<string, Cell>)
    ensures b.Keys == BaseKeys()
  {
    map[
      "id" := Str(e.id),
      "prompt" := Str(e.prompt),
      "model_provider" := Str(e.modelProvider),
      "model_name" := Str(e.modelName),
      "response" := Str(e.response),
      "timestamp" := Int(e.timestamp),
      "user_rating" := OptionalInt(e.userRating),
      "notes" := OptionalStr(e.notes),
      "experiment_group" := OptionalStr(e.experimentGroup)]
  }

  function BaseKeys(): set<string> {
    {"id", "prompt", "model_provider", "model_name", "response", "timestamp", "user_rating", "notes", "experiment_group"}
  }

  const ConfigPrefix := "config_"
  const MetricPrefix := "metric_"

  /** `{f'{prefix}{k}': v for k, v in m.items()}` */
  function Prefixed(prefix: string, m: map<string, Cell>): (r: map<string, Cell>)
    ensures forall k :: k in m ==> prefix + k in r && r[prefix + k] == m[k]
    ensures forall key :: key in r ==> StartsWith(key, prefix) && key[|prefix|..] in m
  {
    map key | key in (set k | k in m :: prefix + k) :: m[key[|prefix|..]]
  }

  /** No base column name starts with either prefix. */
  lemma BaseKeysUnprefixed(key: string)
    requires key in BaseKeys()
    ensures !StartsWith(key, ConfigPrefix) && !StartsWith(key, MetricPrefix)
  {
    if |key| >= 7 {
      assert key[0] != 'c';
      assert key[0] == 'm' ==> key[1] != 'e';
    }
  }

  /** `flat_exp` for one stored row: base columns, then `config_…`, then `metric_…`. */
  function FlatRow(e: ExperimentRow): map<string, Cell> {
    BaseFields(e) + Prefixed(ConfigPrefix, e.modelConfig) + Prefixed(MetricPrefix, e.metrics)
  }

  /**
   * Flattening keeps every base column unchanged, adds `config_k` and
   * `metric_k` for every key of the two JSON columns, and adds nothing else.
   */
  lemma FlatRowKeepsAndAdds(e: ExperimentRow)
    ensures var r := FlatRow(e);
      && (forall b :: b in BaseKeys() ==> b in r && r[b] == BaseFields(e)[b])
      && (forall k :: k in e.modelConfig ==> ConfigPrefix + k in r && r[ConfigPrefix + k] == e.modelConfig[k])
      && (forall k :: k in e.metrics ==> MetricPrefix + k in r && r[MetricPrefix + k] == e.metrics[k])
      && (forall key :: key in r ==>
           (|| key in BaseKeys()
            || (StartsWith(key, ConfigPrefix) && key[|ConfigPrefix|..] in e.modelConfig)
            || (StartsWith(key, MetricPrefix) && key[|MetricPrefix|..] in e.metrics)))
  {
    var config := Prefixed(ConfigPrefix, e.modelConfig);
    var metrics := Prefixed(MetricPrefix, e.metrics);
    forall b | b in BaseKeys()
      ensures b !in config && b !in metrics
    {
      BaseKeysUnprefixed(b);
    }
    forall k | k in e.modelConfig
      ensures ConfigPrefix + k !in metrics
    {
      assert (ConfigPrefix + k)[0] == 'c';
    }
  }

  /** `get_experiments_dataframe`'s loop: one flattened row per experiment, none for none. */
  method FlattenExperiments(experiments: seq<ExperimentRow>) returns (rows: seq<map<string, Cell>>)
    ensures |rows| == |experiments|
    ensures forall i :: 0 <= i < |rows| ==> rows[i] == FlatRow(experiments[i])
  {
    rows := [];
    if |experiments| == 0 {
      return;
    }
    var i := 0;
    while i < |experiments|
      invariant 0 <= i <= |experiments|
      invariant |rows| == i
      invariant forall j :: 0 <= j < i ==> rows[j] == FlatRow(experiments[j])
    {
      var e := experiments[i];
      var flat := BaseFields(e);
      flat := flat + Prefixed(ConfigPrefix, e.modelConfig);
      flat := flat + Prefixed(MetricPrefix, e.metrics);
      assert flat == FlatRow(experiments[i]);
      rows := rows + [flat];
      i := i + 1;
    }
  }

  // ---------------------------------------------------------------------
  // The tables
  // ---------------------------------------------------------------------

  /** A row of the `templates` table. */
  datatype TemplateRow = TemplateRow(
    id: string,
    name: string,
    description: string,
    template: string,
    category: string,
    variables: seq<string>,
    createdAt: int,
    updatedAt: int)

  /** The row `save_experiment` inserts for `r` under the primary key `id`. */
  function ExperimentRowOf(id: string, r: ExperimentResult): (row: ExperimentRow)
    ensures row.id == id && row.experimentGroup == Some(r.experimentId)
    ensures row.userRating.None? && row.notes.None?
  {
    ExperimentRow(
      id, r.prompt, ProviderValue(r.modelConfiguration.provider), r.modelConfiguration.modelName,
      ConfigCells(r.modelConfiguration), r.response, MetricsCells(r.metrics), r.timestamp,
      None, None, Some(r.experimentId))
  }

  /** The key `save_template` writes under: the template's own id when truthy, else a new uuid. */
  function TemplateKey(t: PromptTemplate, freshId: string): string {
    if t.id.Some? && t.id.value != "" then t.id.value else freshId
  }

  /**
   * The key is the template's own id or the fresh one, and an empty id is
   * falsy in Python: it gets a fresh key exactly as a missing one does.
   */
  lemma EmptyIdCountsAsMissing(t: PromptTemplate, freshId: string)
    ensures TemplateKey(t, freshId) == freshId || Some(TemplateKey(t, freshId)) == t.id
    ensures TemplateKey(t.(id := Some("")), freshId) == TemplateKey(t.(id := None), freshId) == freshId
  {
  }

  /** The database: both tables as maps from primary key to row. */
  class ExperimentStore {
    var experiments: map<string, ExperimentRow>
    var templates: map<string, TemplateRow>

    /** Every row sits under its own primary key. */
    ghost predicate Valid()
      reads this
    {
      && (forall id :: id in experiments ==> experiments[id].id == id)
      && (forall id :: id in templates ==> templates[id].id == id)
    }

    /** Every stored rating is absent or in 1..5, as `ExperimentLog` requires. */
    ghost predicate RatingsInRange()
      reads this
    {
      forall id :: id in experiments ==> ValidRating(experiments[id].userRating)
    }

    constructor ()
      ensures Valid() && RatingsInRange()
      ensures experiments == map[] && templates == map[]
    {
      experiments := map[];
      templates := map[];
    }

    /**
     * `save_experiment`: inserts under a new uuid and records the run's
     * experiment id as the group; an id already taken violates the primary
     * key, which the source re-raises (`None` here) with nothing written.
     */
    method SaveExperiment(r: ExperimentResult, freshId: string) returns (id: Option<string>)
      requires Valid()
      modifies this
      ensures Valid()
      ensures old(RatingsInRange()) ==> RatingsInRange()
      ensures freshId in old(experiments) ==> id.None? && experiments == old(experiments)
      ensures freshId !in old(experiments) ==> id == Some(freshId) && experiments == old(experiments)[freshId := ExperimentRowOf(freshId, r)]
      ensures templates == old(templates)
    {
      if freshId in experiments {
        return None;
      }
      experiments := experiments[freshId := ExperimentRowOf(freshId, r)];
      id := Some(freshId);
    }

    /**
     * `save_template`: an existing id gets its content and `updated_at`
     * rewritten and keeps `created_at`; a new id is inserted with both
     * timestamps set to `now`.
     */
    method SaveTemplate(t: PromptTemplate, freshId: string, now: int) returns (id: string)
      requires Valid()
      modifies this
      ensures Valid()
      ensures id == TemplateKey(t, freshId)
      ensures id in templates && templates.Keys == old(templates).Keys + {id}
      ensures forall other :: other in old(templates) && other != id ==> templates[other] == old(templates)[other]
      ensures templates[id].name == t.name && templates[id].description == t.description
      ensures templates[id].template == t.template && templates[id].category == CategoryValue(t.category)
      ensures templates[id].variables == t.variables && templates[id].updatedAt == now
      ensures templates[id].createdAt == if id in old(templates) then old(templates)[id].createdAt else now
      ensures experiments == old(experiments)
    {
      id := TemplateKey(t, freshId);
      var category := CategoryValue(t.category);
      if id in templates {
        var row := templates[id];
        templates := templates[id := row.(name := t.name, description := t.description, template := t.template,
                                          category := category, variables := t.variables, updatedAt := now)];
      } else {
        templates := templates[id := TemplateRow(id, t.name, t.description, t.template, category, t.variables, now, now)];
      }
    }

    /** `delete_template`: true exactly when the row existed; only that row goes. */
    method DeleteTemplate(id: string) returns (deleted: bool)
      requires Valid()
      modifies this
      ensures Valid()
      ensures deleted <==> id in old(templates)
      ensures templates == old(templates) - {id}
      ensures experiments == old(experiments)
    {
      deleted := id in templates;
      templates := templates - {id};
    }

    /**
     * `update_experiment_rating`: true exactly when the row exists; only its
     * rating and notes change. The store itself does not check the range.
     */
    method UpdateExperimentRating(id: string, rating: int, notes: Option<string>) returns (updated: bool)
      requires Valid()
      modifies this
      ensures Valid()
      ensures updated <==> id in old(experiments)
      ensures updated ==> experiments == old(experiments)[id := old(experiments)[id].(userRating := Some(rating), notes := notes)]
      ensures !updated ==> experiments == old(experiments)
      ensures old(RatingsInRange()) && 1 <= rating <= 5 ==> RatingsInRange()
      ensures templates == old(templates)
    {
      updated := id in experiments;
      if updated {
        experiments := experiments[id := experiments[id].(userRating := Some(rating), notes := notes)];
      }
    }
  }
}
