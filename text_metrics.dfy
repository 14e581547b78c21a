/**
 * The metric helpers of `LLMService` (`_calculate_metrics`, `_estimate_cost`,
 * `_calculate_sentiment`, `_calculate_readability`, `_count_syllables`,
 * `_calculate_coherence`). backend/llm_service_fixed.py and
 * backend/llm_service_backup.py hold the same code (the backup file twice
 * over), so it is modelled once. Scores are `real`.
 */
module TextMetrics {
  import opened Text
  import opened Models

  // ---------------------------------------------------------------------
  // Maximal runs of characters of one class (vowel groups, `[.!?]+` matches)
  // ---------------------------------------------------------------------

  /** Position `i` of `s` begins a maximal run of characters satisfying `p`. */
  predicate RunStartsAt(s: string, i: nat, p: char -> bool)
    requires i < |s|
  {
    p(s[i]) && (i == 0 || !p(s[i - 1]))
  }

  /** The number of maximal runs of `p`-characters in `s`. */
  function Runs(s: string, p: char -> bool): nat {
    if |s| == 0 then 0
    else Runs(s[..|s| - 1], p) + (if RunStartsAt(s, |s| - 1, p) then 1 else 0)
  }

  /** There is no run at all exactly when no character is in the class. */
  lemma {:induction false} NoRunsIff(s: string, p: char -> bool)
    ensures Runs(s, p) == 0 <==> forall i :: 0 <= i < |s| ==> !p(s[i])
  {
    if |s| > 0 {
      var init := s[..|s| - 1];
      NoRunsIff(init, p);
      assert forall i :: 0 <= i < |init| ==> init[i] == s[i];
    }
  }

  /** There are never more runs than characters. */
  lemma {:induction false} RunsAtMostLength(s: string, p: char -> bool)
    ensures Runs(s, p) <= |s|
  {
    if |s| > 0 {
      RunsAtMostLength(s[..|s| - 1], p);
    }
  }

  // ---------------------------------------------------------------------
  // _count_syllables
  // ---------------------------------------------------------------------

  predicate IsVowel(c: char) { c in "aeiouy" }

  /**
   * The syllable estimate of one word: the vowel groups of the lower-cased
   * word, one fewer when it ends in 'e', and never less than one.
   */
  function Syllables(word: string): (n: int)
    ensures n >= 1
  {
    var w := Lower(word);
    var count := Runs(w, IsVowel) - (if EndsWith(w, "e") then 1 else 0);
    if count < 1 then 1 else count
  }

  /** A word without vowels, such as "rhythm" without 'y' or "123", still counts one syllable. */
  lemma VowelFreeWordHasOneSyllable(word: string)
    requires forall i :: 0 <= i < |word| ==> !IsVowel(LowerChar(word[i]))
    ensures Syllables(word) == 1
  {
    NoRunsIff(Lower(word), IsVowel);
  }

  /** A non-empty word never gets more syllables than it has characters. */
  lemma SyllablesAtMostLength(word: string)
    requires |word| > 0
    ensures Syllables(word) <= |word|
  {
    RunsAtMostLength(Lower(word), IsVowel);
  }

  /** The loop of `_count_syllables`: one pass with a "previous was vowel" flag. */
  method CountSyllables(word: string) returns (syllableCount: int)
    ensures syllableCount == Syllables(word)
  {
    var w := Lower(word);
    syllableCount := 0;
    var previousWasVowel := false;
    var i := 0;
    while i < |w|
      invariant 0 <= i <= |w|
      invariant syllableCount == Runs(w[..i], IsVowel)
      invariant previousWasVowel == (i > 0 && IsVowel(w[i - 1]))
    {
      var isVowel := IsVowel(w[i]);
      if isVowel && !previousWasVowel {
        syllableCount := syllableCount + 1;
      }
      previousWasVowel := isVowel;
      assert w[..i + 1][..i] == w[..i];
      i := i + 1;
    }
    assert w[..|w|] == w;
    if EndsWith(w, "e") {
      syllableCount := syllableCount - 1;
    }
    if syllableCount < 1 {
      syllableCount := 1;
    }
  }

  /** `sum(_count_syllables(w) for w in words)` */
  function TotalSyllables(words: seq<string>): (n: int)
    ensures n >= |words|
  {
    if |words| == 0 then 0 else Syllables(words[0]) + TotalSyllables(words[1..])
  }

  // ---------------------------------------------------------------------
  // _calculate_sentiment
  // ---------------------------------------------------------------------

  const PositiveWords: seq<string> := ["good", "great", "excellent", "amazing", "wonderful", "fantastic"]
  const NegativeWords: seq<string> := ["bad", "terrible", "awful", "horrible", "poor", "disappointing"]

  /** `sum(1 for w in words if w in listed)` */
  function CountListed(words: seq<string>, listed: seq<string>): (n: nat)
    ensures n <= |words|
  {
    if |words| == 0 then 0
    else (if words[0] in listed then 1 else 0) + CountListed(words[1..], listed)
  }

  /** No word of the list occurs: the count is zero. */
  lemma {:induction false} CountListedZero(words: seq<string>, listed: seq<string>)
    requires forall w :: w in words ==> w !in listed
    ensures CountListed(words, listed) == 0
  {
    if |words| > 0 {
      CountListedZero(words[1..], listed);
    }
  }

  /** `(positive - negative) / (positive + negative)` for a non-zero total. */
  function Balance(positive: nat, negative: nat): (r: real)
    requires positive + negative > 0
    ensures -1.0 <= r <= 1.0
    ensures r > 0.0 <==> positive > negative
    ensures r < 0.0 <==> positive < negative
    ensures r == 1.0 <==> negative == 0
    ensures r == -1.0 <==> positive == 0
  {
    var d := (positive + negative) as real;
    var r := (positive - negative) as real / d;
    assert r * d == (positive - negative) as real;
    r
  }

  /** Keyword sentiment: (#positive - #negative) / (#positive + #negative) over the lower-cased words. */
  function Sentiment(text: string): (r: real)
    ensures -1.0 <= r <= 1.0
  {
    var words := Words(Lower(text));
    var positive := CountListed(words, PositiveWords);
    var negative := CountListed(words, NegativeWords);
    if positive + negative == 0 then 0.0
    else Balance(positive, negative)
  }

  /** The sign of the score is the sign of (#positive - #negative); no listed word gives 0. */
  lemma SentimentSign(text: string)
    ensures var words := Words(Lower(text));
            var positive := CountListed(words, PositiveWords);
            var negative := CountListed(words, NegativeWords);
            && (Sentiment(text) > 0.0 <==> positive > negative)
            && (Sentiment(text) < 0.0 <==> positive < negative)
            && (Sentiment(text) == 1.0 <==> positive > 0 && negative == 0)
  {
  }

  /** A text none of whose lower-cased words is listed scores exactly 0. */
  lemma NeutralTextScoresZero(text: string)
    requires forall w :: w in Words(Lower(text)) ==> w !in PositiveWords && w !in NegativeWords
    ensures Sentiment(text) == 0.0
  {
    var words := Words(Lower(text));
    CountListedZero(words, PositiveWords);
    CountListedZero(words, NegativeWords);
  }

  // ---------------------------------------------------------------------
  // _calculate_readability
  // ---------------------------------------------------------------------

  predicate IsSentenceEnd(c: char) { c == '.' || c == '!' || c == '?' }

  /** `len(re.split(r'[.!?]+', text))`: one more than the number of `[.!?]+` matches. */
  function SentenceCount(text: string): (n: nat)
    ensures n >= 1
  {
    Runs(text, IsSentenceEnd) + 1
  }

  /** `max(lo, min(hi, x))` */
  function Clamp(x: real, lo: real, hi: real): (r: real)
    requires lo <= hi
    ensures lo <= r <= hi
    ensures lo <= x <= hi ==> r == x
  {
    if x < lo then lo else if x > hi then hi else x
  }

  /** The simplified Flesch Reading Ease score, clamped to [0, 100] and scaled to [0, 1]. */
  function Readability(text: string): (r: real)
    ensures 0.0 <= r <= 1.0
    ensures |Words(text)| == 0 ==> r == 0.0
  {
    var sentences := SentenceCount(text);
    var words := Words(text);
    var syllables := TotalSyllables(words);
    if sentences == 0 || |words| == 0 then 0.0
    else Clamp(FleschScore(|words|, sentences, syllables), 0.0, 100.0) / 100.0
  }

  /** `206.835 - 1.015 * (words / sentences) - 84.6 * (syllables / words)` */
  function FleschScore(words: nat, sentences: nat, syllables: int): real
    requires words > 0 && sentences > 0
  {
    206.835 - 1.015 * (words as real / sentences as real) - 84.6 * (syllables as real / words as real)
  }

  /** Long words push the score down: with at least 2.5 syllables a word, the score is 0. */
  lemma PolysyllabicTextScoresZero(text: string)
    requires 2 * TotalSyllables(Words(text)) >= 5 * |Words(text)| > 0
    ensures Readability(text) == 0.0
  {
    FleschNegative(|Words(text)|, SentenceCount(text), TotalSyllables(Words(text)));
  }

  lemma FleschNegative(words: nat, sentences: nat, syllables: int)
    requires 2 * syllables >= 5 * words > 0 && sentences > 0
    ensures FleschScore(words, sentences, syllables) < 0.0
  {
    QuotientAtLeast(syllables as real, words as real, 2.5);
    QuotientAtLeast(words as real, sentences as real, 0.0);
  }

  lemma QuotientAtLeast(a: real, b: real, c: real)
    requires b > 0.0 && a >= c * b
    ensures a / b >= c
  {
    var q := a / b;
    assert q * b == a;
    if q < c {
      assert (c - q) * b > 0.0;
    }
  }

  // ---------------------------------------------------------------------
  // _calculate_coherence
  // ---------------------------------------------------------------------

  /** `[len(p.split()) for p in pieces if p.strip()]` */
  function NonBlankLengths(pieces: seq<string>): (lengths: seq<nat>)
    ensures |lengths| <= |pieces|
  {
    if |pieces| == 0 then []
    else (if Strip(pieces[0]) != [] then [|Words(pieces[0])|] else []) + NonBlankLengths(pieces[1..])
  }

  function Sum(xs: seq<nat>): nat {
    if |xs| == 0 then 0 else xs[0] + Sum(xs[1..])
  }

  /** `sum((x - mean) ** 2 for x in xs)` */
  function SquaredDeviations(xs: seq<nat>, mean: real): (r: real)
    ensures r >= 0.0
  {
    if |xs| == 0 then 0.0
    else (xs[0] as real - mean) * (xs[0] as real - mean) + SquaredDeviations(xs[1..], mean)
  }

  /** When every sentence has the mean length, there is no deviation. */
  lemma {:induction false} UniformHasNoDeviation(xs: seq<nat>, k: nat)
    requires forall i :: 0 <= i < |xs| ==> xs[i] == k
    ensures SquaredDeviations(xs, k as real) == 0.0
  {
    if |xs| > 0 {
      UniformHasNoDeviation(xs[1..], k);
    }
  }

  /** Sentences all of the same length score exactly 1. */
  lemma UniformLengthsScoreOne(lengths: seq<nat>, k: nat)
    requires |lengths| > 0 && forall i :: 0 <= i < |lengths| ==> lengths[i] == k
    ensures LengthConsistency(lengths) == 1.0
  {
    UniformSum(lengths, k);
    var n := |lengths| as real;
    assert (|lengths| * k) as real == n * k as real;
    assert Sum(lengths) as real / n == k as real;
    UniformHasNoDeviation(lengths, k);
  }

  lemma {:induction false} UniformSum(xs: seq<nat>, k: nat)
    requires forall i :: 0 <= i < |xs| ==> xs[i] == k
    ensures Sum(xs) == |xs| * k
  {
    if |xs| > 0 {
      UniformSum(xs[1..], k);
    }
  }

  /** Sentence-length consistency: 1 / (1 + variance / max(mean, 1)) over the '.'-separated pieces. */
  function Coherence(text: string): (r: real)
    ensures 0.0 <= r <= 1.0
    ensures '.' !in text ==> r == 1.0
  {
    var sentences := SplitOn(text, '.');
    CountZeroIff(text, '.');
    if |sentences| < 2 then 1.0
    else
      LengthConsistency(NonBlankLengths(sentences))
  }

  /** The score of the non-blank sentence lengths; no such sentence scores 0. */
  function LengthConsistency(lengths: seq<nat>): (r: real)
    ensures 0.0 <= r <= 1.0
    ensures |lengths| > 0 ==> r > 0.0
  {
    if |lengths| == 0 then 0.0
    else
      var avg := Sum(lengths) as real / |lengths| as real;
      var variance := SquaredDeviations(lengths, avg) / |lengths| as real;
      var denominator := if avg > 1.0 then avg else 1.0;
      Reciprocal(variance, denominator)
  }

  /** `1.0 / (1.0 + variance / denominator)` */
  function Reciprocal(variance: real, denominator: real): (r: real)
    requires variance >= 0.0 && denominator >= 1.0
    ensures 0.0 < r <= 1.0
    ensures r == 1.0 <==> variance == 0.0
  {
    var q := variance / denominator;
    assert q * denominator == variance;
    var r := 1.0 / (1.0 + q);
    assert r * (1.0 + q) == 1.0;
    r
  }

  /** A text with at least one '.' has several pieces and so takes the variance branch. */
  lemma PeriodSplitsText(text: string)
    requires '.' in text
    ensures |SplitOn(text, '.')| >= 2
  {
    CountZeroIff(text, '.');
  }

  // ---------------------------------------------------------------------
  // _estimate_cost
  // ---------------------------------------------------------------------

  /** `cost_per_1k_tokens` */
  const CostPer1kTokens: map<string, real> := map[
    "gpt-4" := 0.03,
    "gpt-3.5-turbo" := 0.002,
    "claude-3-opus" := 0.015,
    "claude-3-sonnet" := 0.003]

  const DefaultCostPer1kTokens: real := 0.001

  function CostRate(modelName: string): (rate: real)
    ensures rate > 0.0
    ensures modelName !in CostPer1kTokens ==> rate == DefaultCostPer1kTokens
  {
    if modelName in CostPer1kTokens then CostPer1kTokens[modelName] else DefaultCostPer1kTokens
  }

  /** `(token_count / 1000) * rate` */
  function EstimateCost(tokenCount: nat, modelName: string): (cost: real)
    ensures cost >= 0.0
    ensures tokenCount == 0 <==> cost == 0.0
  {
    (tokenCount as real / 1000.0) * CostRate(modelName)
  }

  /** More tokens never cost less, for the same model. */
  lemma CostMonotone(t1: nat, t2: nat, modelName: string)
    requires t1 <= t2
    ensures EstimateCost(t1, modelName) <= EstimateCost(t2, modelName)
  {
    var rate := CostRate(modelName);
    assert (t2 as real / 1000.0) - (t1 as real / 1000.0) >= 0.0;
    assert (t2 as real / 1000.0) * rate - (t1 as real / 1000.0) * rate
        == ((t2 as real / 1000.0) - (t1 as real / 1000.0)) * rate;
  }

  // ---------------------------------------------------------------------
  // _calculate_metrics
  // ---------------------------------------------------------------------

  /**
   * The metrics of a provider reply. The token count is the whitespace word
   * count of the reply, whatever the provider reported as usage.
   */
  function CalculateMetrics(response: string, latencyMs: real, config: ModelConfig): (m: MetricsData)
    ensures m.responseLength == |response|
    ensures m.tokenCount == |Words(response)|
    ensures m.latencyMs == latencyMs
    ensures m.costEstimate == EstimateCost(|Words(response)|, config.modelName) >= 0.0
    ensures m.sentimentScore.Some? && -1.0 <= m.sentimentScore.value <= 1.0
    ensures m.readabilityScore.Some? && 0.0 <= m.readabilityScore.value <= 1.0
    ensures m.coherenceScore.Some? && 0.0 <= m.coherenceScore.value <= 1.0
  {
    var tokenCount := |Words(response)|;
    MetricsData(
      |response|,
      tokenCount,
      latencyMs,
      EstimateCost(tokenCount, config.modelName),
      Some(Sentiment(response)),
      Some(Readability(response)),
      Some(Coherence(response)))
  }
}
