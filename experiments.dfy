/**
 * The experiment endpoints of backend/main.py: `run_experiment`'s loop over
 * configurations and runs with its per-run records and enqueued saves,
 * `calculate_aggregate_metrics`, and the rating and template-deletion
 * endpoints' mapping of store results and guards to HTTP statuses.
 *
 * What `generate_response` did for each (configuration, run) slot is an
 * input: `outcomes[c][r]`, with `clock[c][r]` the `datetime.now()` read for
 * that slot's saved result.
 */
module Experiments {
  import opened Text
  import opened Models
  import opened Dispatch
  import opened Store

  // ---------------------------------------------------------------------
  // Records and saves of one experiment
  // ---------------------------------------------------------------------

  /** An entry of `all_responses`: a success record, or an error record carrying no metrics. */
  datatype ResponseRecord =
    | Answered(modelConfig: ModelConfig, response: string, metrics: MetricsData, tokenUsage: map<string, real>, runNumber: int)
    | Failed(modelConfig: ModelConfig, error: string, runNumber: int)

  /** `len(range(num_runs))` */
  function RunCount(numRuns: int): nat {
    if numRuns < 0 then 0 else numRuns
  }

  /** The record appended for run `run` (0-based) of `config` when `generate_response` ended with `o`. */
  function RecordFor(config: ModelConfig, run: nat, o: Outcome): (rec: ResponseRecord)
    ensures rec.modelConfig == config && rec.runNumber == run + 1
    ensures rec.Answered? <==> o.Returned?
    ensures o.Returned? ==> rec.response == o.generated.response && rec.metrics == o.generated.metrics
                            && rec.tokenUsage == o.generated.tokenUsage
    ensures o.Propagated? ==> rec.error == o.message
  {
    match o
    case Returned(g) => Answered(config, g.response, g.metrics, g.tokenUsage, run + 1)
    case Propagated(message) => Failed(config, message, run + 1)
  }

  /** The records of the inner loop for one configuration. */
  function RunRecords(config: ModelConfig, outs: seq<Outcome>): (rs: seq<ResponseRecord>)
    ensures |rs| == |outs|
    ensures forall r :: 0 <= r < |outs| ==> rs[r] == RecordFor(config, r, outs[r])
  {
    if |outs| == 0 then [] else RunRecords(config, outs[..|outs| - 1]) + [RecordFor(config, |outs| - 1, outs[|outs| - 1])]
  }

  /** `all_responses`: the configurations' records one after the other. */
  function AllRecords(configs: seq<ModelConfig>, outcomes: seq<seq<Outcome>>): seq<ResponseRecord>
    requires |outcomes| == |configs|
  {
    if |configs| == 0 then []
    else AllRecords(configs[..|configs| - 1], outcomes[..|configs| - 1]) + RunRecords(configs[|configs| - 1], outcomes[|configs| - 1])
  }

  /** One outcome per configuration and run. */
  predicate Shaped<T>(xss: seq<seq<T>>, configs: nat, runs: nat) {
    |xss| == configs && forall c :: 0 <= c < |xss| ==> |xss[c]| == runs
  }

  /** There is one record per configuration and run. */
  lemma {:induction false} RecordCount(configs: seq<ModelConfig>, outcomes: seq<seq<Outcome>>, runs: nat)
    requires Shaped(outcomes, |configs|, runs)
    ensures |AllRecords(configs, outcomes)| == |configs| * runs
  {
    if |configs| > 0 {
      var n := |configs|;
      RecordCount(configs[..n - 1], outcomes[..n - 1], runs);
      assert (n - 1) * runs + runs == n * runs;
    }
  }

  /**
   * Records are configuration-major: slot `c * runs + r` holds run `r + 1`
   * of configuration `c`, a success exactly when that run returned.
   */
  lemma {:induction false} RecordAtSlot(configs: seq<ModelConfig>, outcomes: seq<seq<Outcome>>, runs: nat, c: nat, r: nat)
    requires Shaped(outcomes, |configs|, runs)
    requires c < |configs| && r < runs
    ensures c * runs + r < |AllRecords(configs, outcomes)|
    ensures AllRecords(configs, outcomes)[c * runs + r] == RecordFor(configs[c], r, outcomes[c][r])
  {
    var n := |configs|;
    RecordCount(configs[..n - 1], outcomes[..n - 1], runs);
    RecordCount(configs, outcomes, runs);
    if c < n - 1 {
      RecordAtSlot(configs[..n - 1], outcomes[..n - 1], runs, c, r);
      assert c * runs + r < (n - 1) * runs by {
        assert c * runs + runs <= (n - 1) * runs;
      }
    } else {
      assert c * runs + r == (n - 1) * runs + r;
    }
  }

  /** The result enqueued for saving after a successful record, with the slot's clock reading. */
  function SaveOf(experimentId: string, prompt: string, rec: ResponseRecord, time: int): seq<ExperimentResult> {
    if rec.Answered? then [ExperimentResult(experimentId, prompt, rec.modelConfig, rec.response, rec.metrics, time, rec.runNumber)]
    else []
  }

  /** The background saves enqueued while producing `records`, in order. */
  function Saves(experimentId: string, prompt: string, records: seq<ResponseRecord>, times: seq<int>): seq<ExperimentResult>
    requires |times| == |records|
  {
    if |records| == 0 then []
    else
      var n := |records|;
      Saves(experimentId, prompt, records[..n - 1], times[..n - 1]) + SaveOf(experimentId, prompt, records[n - 1], times[n - 1])
  }

  /** Saving two stretches of records one after the other enqueues the saves of each in turn. */
  lemma {:induction false} SavesAppend(experimentId: string, prompt: string, a: seq<ResponseRecord>, ta: seq<int>, b: seq<ResponseRecord>, tb: seq<int>)
    requires |ta| == |a| && |tb| == |b|
    ensures Saves(experimentId, prompt, a + b, ta + tb) == Saves(experimentId, prompt, a, ta) + Saves(experimentId, prompt, b, tb)
    decreases |b|
  {
    if |b| == 0 {
      assert a + b == a;
      assert ta + tb == ta;
    } else {
      var n := |b|;
      SavesAppend(experimentId, prompt, a, ta, b[..n - 1], tb[..n - 1]);
      assert (a + b)[..|a + b| - 1] == a + b[..n - 1];
      assert (ta + tb)[..|ta + tb| - 1] == ta + tb[..n - 1];
    }
  }

  /** `[r for r in all_responses if "error" not in r]` */
  function Successes(records: seq<ResponseRecord>): (ok: seq<ResponseRecord>)
    ensures |ok| <= |records|
    ensures forall rec :: rec in ok ==> rec.Answered? && rec in records
  {
    if |records| == 0 then []
    else Successes(records[..|records| - 1]) + (if records[|records| - 1].Answered? then [records[|records| - 1]] else [])
  }

  /** The filter keeps exactly the success records: every one of them, and nothing else. */
  lemma {:induction false} SuccessesExactly(records: seq<ResponseRecord>, rec: ResponseRecord)
    ensures rec in Successes(records) <==> rec in records && rec.Answered?
  {
    if |records| > 0 {
      var init := records[..|records| - 1];
      SuccessesExactly(init, rec);
      assert records == init + [records[|records| - 1]];
    }
  }

  /**
   * One save per success record, in the same order, all under the
   * experiment's id and prompt and carrying the record's configuration,
   * response, metrics and run number.
   */
  lemma {:induction false} SavesMirrorSuccesses(experimentId: string, prompt: string, records: seq<ResponseRecord>, times: seq<int>)
    requires |times| == |records|
    ensures var saves := Saves(experimentId, prompt, records, times);
      var ok := Successes(records);
      && |saves| == |ok|
      && forall k :: 0 <= k < |saves| ==>
           && saves[k].experimentId == experimentId && saves[k].prompt == prompt
           && saves[k].modelConfiguration == ok[k].modelConfig && saves[k].response == ok[k].response
           && saves[k].metrics == ok[k].metrics && saves[k].runNumber == ok[k].runNumber
  {
    if |records| > 0 {
      SavesMirrorSuccesses(experimentId, prompt, records[..|records| - 1], times[..|records| - 1]);
    }
  }

  /** `flat` for nested clock readings. */
  function Flat<T>(xss: seq<seq<T>>): seq<T> {
    if |xss| == 0 then [] else Flat(xss[..|xss| - 1]) + xss[|xss| - 1]
  }

  // ---------------------------------------------------------------------
  // Aggregate metrics
  // ---------------------------------------------------------------------

  /** The four entries of `metrics_keys`, in order. */
  datatype MetricKey = ResponseLengthKey | TokenCountKey | LatencyMsKey | CostEstimateKey

  const MetricKeys := [ResponseLengthKey, TokenCountKey, LatencyMsKey, CostEstimateKey]

  /** The keys of the aggregate dict: `avg_k`, `min_k`, `max_k`, `total_responses`, `success_rate`. */
  datatype AggKey = AvgOf(metric: MetricKey) | MinOf(metric: MetricKey) | MaxOf(metric: MetricKey) | TotalResponses | SuccessRate

  function MetricName(k: MetricKey): string {
    match k
    case ResponseLengthKey => "response_length"
    case TokenCountKey => "token_count"
    case LatencyMsKey => "latency_ms"
    case CostEstimateKey => "cost_estimate"
  }

  /** The aggregate dict's key string. */
  function AggKeyName(k: AggKey): string {
    match k
    case AvgOf(m) => "avg_" + MetricName(m)
    case MinOf(m) => "min_" + MetricName(m)
    case MaxOf(m) => "max_" + MetricName(m)
    case TotalResponses => "total_responses"
    case SuccessRate => "success_rate"
  }

  /** `r["metrics"].get(key, 0)`; the metrics dict always holds the four keys. */
  function MetricValue(m: MetricsData, key: MetricKey): real {
    match key
    case ResponseLengthKey => m.responseLength as real
    case TokenCountKey => m.tokenCount as real
    case LatencyMsKey => m.latencyMs
    case CostEstimateKey => m.costEstimate
  }

  /** `[r["metrics"].get(key, 0) for r in responses if "metrics" in r]` */
  function MetricValues(records: seq<ResponseRecord>, key: MetricKey): (vs: seq<real>)
    ensures |vs| == |Successes(records)|
  {
    if |records| == 0 then []
    else
      var last := records[|records| - 1];
      MetricValues(records[..|records| - 1], key) + (if last.Answered? then [MetricValue(last.metrics, key)] else [])
  }

  /** The k-th value is the metric `key` of the k-th success record. */
  lemma {:induction false} MetricValuesPointwise(records: seq<ResponseRecord>, key: MetricKey, k: nat)
    requires k < |Successes(records)|
    ensures MetricValues(records, key)[k] == MetricValue(Successes(records)[k].metrics, key)
  {
    if |records| > 0 && k < |Successes(records[..|records| - 1])| {
      MetricValuesPointwise(records[..|records| - 1], key, k);
    }
  }

  /** `sum(values)` */
  function SumOf(xs: seq<real>): real {
    if |xs| == 0 then 0.0 else SumOf(xs[..|xs| - 1]) + xs[|xs| - 1]
  }

  /** `min(values)` */
  function Minimum(xs: seq<real>): (m: real)
    requires |xs| > 0
    ensures m in xs && forall x :: x in xs ==> m <= x
  {
    if |xs| == 1 then xs[0]
    else
      var rest := Minimum(xs[..|xs| - 1]);
      assert forall x :: x in xs ==> x in xs[..|xs| - 1] || x == xs[|xs| - 1];
      if xs[|xs| - 1] < rest then xs[|xs| - 1] else rest
  }

  /** `max(values)` */
  function Maximum(xs: seq<real>): (m: real)
    requires |xs| > 0
    ensures m in xs && forall x :: x in xs ==> x <= m
  {
    if |xs| == 1 then xs[0]
    else
      var rest := Maximum(xs[..|xs| - 1]);
      assert forall x :: x in xs ==> x in xs[..|xs| - 1] || x == xs[|xs| - 1];
      if xs[|xs| - 1] > rest then xs[|xs| - 1] else rest
  }

  /** A sum of values between `lo` and `hi` lies between `n * lo` and `n * hi`. */
  lemma {:induction false} SumBetween(xs: seq<real>, lo: real, hi: real)
    requires forall x :: x in xs ==> lo <= x <= hi
    ensures |xs| as real * lo <= SumOf(xs) <= |xs| as real * hi
  {
    if |xs| > 0 {
      var init := xs[..|xs| - 1];
      assert forall x :: x in init ==> x in xs;
      SumBetween(init, lo, hi);
      assert xs[|xs| - 1] in xs;
      var m := |init| as real;
      assert |xs| as real * lo == m * lo + lo;
      assert |xs| as real * hi == m * hi + hi;
    }
  }

  /** Dividing bounds `n * lo <= s <= n * hi` by a positive `n`. */
  lemma DivideBounds(s: real, n: real, lo: real, hi: real)
    requires n > 0.0 && n * lo <= s <= n * hi
    ensures lo <= s / n <= hi
  {
    assert s / n - lo == (s - n * lo) / n;
    assert hi - s / n == (n * hi - s) / n;
  }

  lemma DivideBelow(s: real, n: real, hi: real)
    requires n > 0.0 && s < n * hi
    ensures s / n < hi
  {
    assert hi - s / n == (n * hi - s) / n;
  }

  /** The average of values between `lo` and `hi` lies between them. */
  lemma MeanWithin(xs: seq<real>, lo: real, hi: real)
    requires |xs| > 0
    requires forall x :: x in xs ==> lo <= x <= hi
    ensures lo <= SumOf(xs) / |xs| as real <= hi
  {
    SumBetween(xs, lo, hi);
    DivideBounds(SumOf(xs), |xs| as real, lo, hi);
  }

  /** The average of a non-empty list lies between its minimum and its maximum. */
  lemma MeanBetween(xs: seq<real>)
    requires |xs| > 0
    ensures Minimum(xs) <= SumOf(xs) / |xs| as real <= Maximum(xs)
  {
    var lo, hi := Minimum(xs), Maximum(xs);
    MeanWithin(xs, lo, hi);
  }

  /** The avg/min/max entries the `for key in metrics_keys` loop has added after `keys`. */
  function KeyAggregates(records: seq<ResponseRecord>, keys: seq<MetricKey>): map<AggKey, real> {
    if |keys| == 0 then map[]
    else
      var before := KeyAggregates(records, keys[..|keys| - 1]);
      var key := keys[|keys| - 1];
      var values := MetricValues(records, key);
      if |values| > 0 then
        before[AvgOf(key) := SumOf(values) / |values| as real][MinOf(key) := Minimum(values)][MaxOf(key) := Maximum(values)]
      else before
  }

  /** `sum(1 for r in responses if "error" in r)` */
  function FailureCount(records: seq<ResponseRecord>): (n: nat)
    ensures n + |Successes(records)| == |records|
  {
    if |records| == 0 then 0
    else FailureCount(records[..|records| - 1]) + (if records[|records| - 1].Failed? then 1 else 0)
  }

  /** The two counters `calculate_aggregate_metrics` adds after its loop over `n` entries, `failures` of them errors. */
  function WithCounters(agg: map<AggKey, real>, n: nat, failures: nat): map<AggKey, real>
    requires n > 0
  {
    agg[TotalResponses := n as real][SuccessRate := Rate(n, failures)]
  }

  /** `n / (n + failures)` */
  function Rate(n: nat, failures: nat): real
    requires n > 0
  {
    n as real / (n + failures) as real
  }

  /** The dict `calculate_aggregate_metrics` returns. */
  function Aggregate(records: seq<ResponseRecord>): map<AggKey, real> {
    if |records| == 0 then map[]
    else WithCounters(KeyAggregates(records, MetricKeys), |records|, FailureCount(records))
  }

  /** The loop over the metric keys sets neither counter. */
  lemma {:induction false} KeyAggregatesCounters(records: seq<ResponseRecord>, keys: seq<MetricKey>)
    ensures TotalResponses !in KeyAggregates(records, keys) && SuccessRate !in KeyAggregates(records, keys)
  {
    if |keys| > 0 {
      KeyAggregatesCounters(records, keys[..|keys| - 1]);
    }
  }

  /** A metric has its three entries exactly when it is among the keys and has values. */
  lemma {:induction false} KeyAggregatesPresence(records: seq<ResponseRecord>, keys: seq<MetricKey>, key: MetricKey)
    ensures var agg := KeyAggregates(records, keys);
      var present := key in keys && |MetricValues(records, key)| > 0;
      && (AvgOf(key) in agg <==> present)
      && (MinOf(key) in agg <==> present)
      && (MaxOf(key) in agg <==> present)
  {
    if |keys| > 0 {
      KeyAggregatesPresence(records, keys[..|keys| - 1], key);
      assert key in keys <==> key in keys[..|keys| - 1] || key == keys[|keys| - 1];
    }
  }

  /** A metric's entries are the average, minimum and maximum of its values. */
  lemma {:induction false} KeyAggregatesValues(records: seq<ResponseRecord>, keys: seq<MetricKey>, key: MetricKey)
    requires AvgOf(key) in KeyAggregates(records, keys)
    ensures var agg := KeyAggregates(records, keys);
      var values := MetricValues(records, key);
      && |values| > 0
      && MinOf(key) in agg && MaxOf(key) in agg
      && agg[AvgOf(key)] == SumOf(values) / |values| as real
      && agg[MinOf(key)] == Minimum(values) && agg[MaxOf(key)] == Maximum(values)
  {
    KeyAggregatesPresence(records, keys, key);
    var init := keys[..|keys| - 1];
    if keys[|keys| - 1] != key {
      KeyAggregatesPresence(records, init, key);
      KeyAggregatesValues(records, init, key);
    }
  }

  /**
   * No records give an empty dict; otherwise every metric has its average,
   * minimum and maximum exactly when some record is a success, the average
   * lies between the minimum and the maximum, and the two counters are set.
   */
  lemma AggregateShape(records: seq<ResponseRecord>, key: MetricKey)
    ensures |records| == 0 <==> Aggregate(records) == map[]
    ensures var agg := Aggregate(records);
      && (|records| > 0 ==> TotalResponses in agg && agg[TotalResponses] == |records| as real && SuccessRate in agg)
      && (AvgOf(key) in agg <==> |Successes(records)| > 0)
      && (AvgOf(key) in agg ==>
            && MinOf(key) in agg && MaxOf(key) in agg
            && agg[MinOf(key)] <= agg[AvgOf(key)] <= agg[MaxOf(key)])
  {
    if |records| > 0 {
      var base := KeyAggregates(records, MetricKeys);
      CountersOf(base, |records|, FailureCount(records));
      KeyAggregatesPresence(records, MetricKeys, key);
      if AvgOf(key) in base {
        KeyAggregatesValues(records, MetricKeys, key);
        MeanBetween(MetricValues(records, key));
      }
    }
  }

  /**
   * `success_rate` is `n / (n + errors)` over the list it is given: one
   * exactly when no entry is an error record, and never below one half.
   */
  lemma SuccessRateRange(records: seq<ResponseRecord>)
    requires |records| > 0
    ensures SuccessRate in Aggregate(records)
    ensures var rate := Aggregate(records)[SuccessRate];
      && rate == Rate(|records|, FailureCount(records))
      && 0.5 <= rate <= 1.0
      && (rate == 1.0 <==> FailureCount(records) == 0)
  {
    CountersOf(KeyAggregates(records, MetricKeys), |records|, FailureCount(records));
    RateBounds(|records|, FailureCount(records));
  }

  /** The counters are added beside the metric entries, which stay as they were. */
  lemma CountersOf(agg: map<AggKey, real>, n: nat, f: nat)
    requires n > 0
    ensures var w := WithCounters(agg, n, f);
      && TotalResponses in w && w[TotalResponses] == n as real
      && SuccessRate in w && w[SuccessRate] == Rate(n, f)
      && forall k :: k != TotalResponses && k != SuccessRate ==> (k in w <==> k in agg) && (k in agg ==> w[k] == agg[k])
  {
  }

  /** `n / (n + f)` for `0 <= f <= n`, `n > 0`. */
  lemma RateBounds(n: nat, f: nat)
    requires 0 < n && f <= n
    ensures var rate := Rate(n, f);
      && 0.5 <= rate <= 1.0
      && (rate == 1.0 <==> f == 0)
  {
    var s := n as real;
    var d := (n + f) as real;
    DivideBounds(s, d, 0.5, 1.0);
    if f > 0 {
      DivideBelow(s, d, 1.0);
    } else {
      assert d == s;
      DivideBounds(s, d, 1.0, 1.0);
    }
  }

  /** A list holding only success records has no error records. */
  lemma {:induction false} NoFailuresAmongSuccesses(records: seq<ResponseRecord>)
    requires forall rec :: rec in records ==> rec.Answered?
    ensures FailureCount(records) == 0
  {
    if |records| > 0 {
      var init := records[..|records| - 1];
      assert forall rec :: rec in init ==> rec in records;
      NoFailuresAmongSuccesses(init);
      assert records[|records| - 1] in records;
    }
  }

  /**
   * What `run_experiment` reports: the aggregate of the successes alone, so
   * its `success_rate` is 1 whenever any run succeeded, and the dict is
   * empty when every run failed.
   */
  lemma RunSuccessRate(records: seq<ResponseRecord>)
    ensures |Successes(records)| > 0 ==>
      SuccessRate in Aggregate(Successes(records)) && Aggregate(Successes(records))[SuccessRate] == 1.0
    ensures |Successes(records)| == 0 ==> Aggregate(Successes(records)) == map[]
  {
    if |Successes(records)| > 0 {
      NoFailuresAmongSuccesses(Successes(records));
      SuccessRateRange(Successes(records));
    }
  }

  /** A run with one success and one failure reports a success rate of 1, not 1/2. */
  lemma OneOfTwoRunsReportsFullSuccess(ok: ResponseRecord, failed: ResponseRecord)
    requires ok.Answered? && failed.Failed?
    ensures SuccessRate in Aggregate(Successes([ok, failed]))
    ensures Aggregate(Successes([ok, failed]))[SuccessRate] == 1.0
  {
    assert [ok, failed][..1] == [ok];
    assert Successes([ok]) == [ok] by {
      assert [ok][..0] == [];
    }
    RunSuccessRate([ok, failed]);
  }

  /** `calculate_aggregate_metrics` */
  method CalculateAggregateMetrics(responses: seq<ResponseRecord>) returns (aggregates: map<AggKey, real>)
    ensures aggregates == Aggregate(responses)
  {
    if |responses| == 0 {
      return map[];
    }
    aggregates := map[];
    var k := 0;
    while k < |MetricKeys|
      invariant 0 <= k <= |MetricKeys|
      invariant aggregates == KeyAggregates(responses, MetricKeys[..k])
    {
      var key := MetricKeys[k];
      var values := MetricValues(responses, key);
      if |values| > 0 {
        aggregates := aggregates[AvgOf(key) := SumOf(values) / |values| as real];
        aggregates := aggregates[MinOf(key) := Minimum(values)];
        aggregates := aggregates[MaxOf(key) := Maximum(values)];
      }
      assert MetricKeys[..k + 1][..k] == MetricKeys[..k];
      k := k + 1;
    }
    assert MetricKeys[..4] == MetricKeys;
    var n := |responses|;
    aggregates := aggregates[TotalResponses := n as real];
    aggregates := aggregates[SuccessRate := Rate(n, FailureCount(responses))];
  }

  // ---------------------------------------------------------------------
  // run_experiment
  // ---------------------------------------------------------------------

  /**
   * The inner `for run in range(request.num_runs)` loop for one
   * configuration: one record per run, and a save enqueued for each success.
   */
  method RunConfiguration(experimentId: string, prompt: string, config: ModelConfig, outs: seq<Outcome>, times: seq<int>)
    returns (records: seq<ResponseRecord>, saves: seq<ExperimentResult>)
    requires |times| == |outs|
    ensures records == RunRecords(config, outs)
    ensures saves == Saves(experimentId, prompt, records, times)
  {
    records := [];
    saves := [];
    var r := 0;
    while r < |outs|
      invariant 0 <= r <= |outs|
      invariant records == RunRecords(config, outs[..r])
      invariant saves == Saves(experimentId, prompt, records, times[..r])
    {
      var o := outs[r];
      if o.Returned? {
        saves := saves + [ExperimentResult(experimentId, prompt, config, o.generated.response, o.generated.metrics, times[r], r + 1)];
      }
      assert outs[..r + 1][..r] == outs[..r];
      assert times[..r + 1][..r] == times[..r];
      records := records + [RecordFor(config, r, o)];
      r := r + 1;
    }
    assert outs[..r] == outs;
    assert times[..r] == times;
  }

  /** Taking one more configuration appends its records and its clock readings. */
  lemma PrefixStep(configs: seq<ModelConfig>, outcomes: seq<seq<Outcome>>, clock: seq<seq<int>>, c: nat)
    requires |outcomes| == |configs| == |clock| && c < |configs|
    ensures AllRecords(configs[..c + 1], outcomes[..c + 1])
         == AllRecords(configs[..c], outcomes[..c]) + RunRecords(configs[c], outcomes[c])
    ensures Flat(clock[..c + 1]) == Flat(clock[..c]) + clock[c]
  {
    assert configs[..c + 1][..c] == configs[..c];
    assert outcomes[..c + 1][..c] == outcomes[..c];
    assert clock[..c + 1][..c] == clock[..c];
  }

  /**
   * The outer `for config in request.model_configs` loop: the records of
   * every configuration in turn, and a save enqueued for every success.
   * A failed run does not stop the ones after it.
   */
  method RunConfigurations(experimentId: string, prompt: string, configs: seq<ModelConfig>, runs: nat,
                           outcomes: seq<seq<Outcome>>, clock: seq<seq<int>>)
    returns (records: seq<ResponseRecord>, saves: seq<ExperimentResult>)
    requires Shaped(outcomes, |configs|, runs) && Shaped(clock, |configs|, runs)
    ensures records == AllRecords(configs, outcomes)
    ensures |Flat(clock)| == |records|
    ensures saves == Saves(experimentId, prompt, records, Flat(clock))
  {
    records := [];
    saves := [];
    ghost var times: seq<int> := [];
    var c := 0;
    while c < |configs|
      invariant 0 <= c <= |configs|
      invariant records == AllRecords(configs[..c], outcomes[..c])
      invariant times == Flat(clock[..c]) && |times| == |records|
      invariant saves == Saves(experimentId, prompt, records, times)
    {
      var runRecords, runSaves := RunConfiguration(experimentId, prompt, configs[c], outcomes[c], clock[c]);
      SavesAppend(experimentId, prompt, records, times, runRecords, clock[c]);
      PrefixStep(configs, outcomes, clock, c);
      records := records + runRecords;
      saves := saves + runSaves;
      times := times + clock[c];
      c := c + 1;
    }
    assert configs[..c] == configs;
    assert outcomes[..c] == outcomes;
    assert clock[..c] == clock;
  }

  /** `run_experiment`: every configuration and run, then the aggregate over the successes. */
  method RunExperiment(request: ExperimentRequest, experimentId: string, outcomes: seq<seq<Outcome>>, clock: seq<seq<int>>)
    returns (records: seq<ResponseRecord>, saves: seq<ExperimentResult>, aggregate: map<AggKey, real>)
    requires Shaped(outcomes, |request.modelConfigs|, RunCount(request.numRuns))
    requires Shaped(clock, |request.modelConfigs|, RunCount(request.numRuns))
    ensures records == AllRecords(request.modelConfigs, outcomes)
    ensures |Flat(clock)| == |records|
    ensures saves == Saves(experimentId, request.prompt, records, Flat(clock))
    ensures aggregate == Aggregate(Successes(records))
  {
    records, saves := RunConfigurations(experimentId, request.prompt, request.modelConfigs, RunCount(request.numRuns), outcomes, clock);
    aggregate := CalculateAggregateMetrics(Successes(records));
  }

  // ---------------------------------------------------------------------
  // Status mapping of the rating and template-deletion endpoints
  // ---------------------------------------------------------------------

  /** What the body of an endpoint's `try` ended with. */
  datatype Raised = Completed | HttpError(status: int)

  /** The `except Exception` around every endpoint body: anything raised, `HTTPException` included, becomes 500. */
  function CatchAll(r: Raised): (status: int)
    ensures status == 200 <==> r.Completed?
    ensures status != 200 ==> status == 500
  {
    if r.Completed? then 200 else 500
  }

  /** The rating guard and the not-found check inside the `try`. */
  function RatingChecks(rating: int, found: bool): Raised {
    if !(1 <= rating <= 5) then HttpError(400)
    else if !found then HttpError(404)
    else Completed
  }

  /** The client sees 200 for an accepted update and 500 otherwise; the 400 and 404 never reach it. */
  lemma RatingStatuses(rating: int, found: bool)
    ensures CatchAll(RatingChecks(rating, found)) == 200 <==> 1 <= rating <= 5 && found
    ensures CatchAll(RatingChecks(rating, found)) !in {400, 404}
  {
  }

  /**
   * `update_experiment_rating`: an out-of-range rating never reaches the
   * store, so every stored rating stays in 1..5.
   */
  method UpdateRatingEndpoint(store: ExperimentStore, experimentId: string, rating: int, notes: Option<string>) returns (status: int)
    requires store.Valid()
    modifies store
    ensures store.Valid()
    ensures status == CatchAll(RatingChecks(rating, experimentId in old(store.experiments)))
    ensures !(1 <= rating <= 5) || experimentId !in old(store.experiments) ==> store.experiments == old(store.experiments)
    ensures 1 <= rating <= 5 && experimentId in old(store.experiments) ==>
      store.experiments == old(store.experiments)[experimentId := old(store.experiments)[experimentId].(userRating := Some(rating), notes := notes)]
    ensures old(store.RatingsInRange()) ==> store.RatingsInRange()
    ensures store.templates == old(store.templates)
  {
    if !(1 <= rating <= 5) {
      return CatchAll(HttpError(400));
    }
    var success := store.UpdateExperimentRating(experimentId, rating, notes);
    if !success {
      return CatchAll(HttpError(404));
    }
    status := CatchAll(Completed);
  }

  /** `delete_template`: 200 when the template existed, 500 (from the caught 404) when not. */
  method DeleteTemplateEndpoint(store: ExperimentStore, templateId: string) returns (status: int)
    requires store.Valid()
    modifies store
    ensures store.Valid()
    ensures status == 200 <==> templateId in old(store.templates)
    ensures status == 200 || status == 500
    ensures store.templates == old(store.templates) - {templateId}
    ensures store.experiments == old(store.experiments)
  {
    var success := store.DeleteTemplate(templateId);
    if !success {
      return CatchAll(HttpError(404));
    }
    status := CatchAll(Completed);
  }
}
