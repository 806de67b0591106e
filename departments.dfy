/**
 * The department decision (classifiers/department_classifier.py): per-department
 * pattern scores multiplied by the booster once for every context word present, an
 * optional +2 from a confident zero-shot answer, and the winner chosen by the first
 * maximum in table order with a confidence read off the gap between the two best
 * scores.
 *
 * Nothing in this decision raises with well-typed inputs: malformed rules are skipped,
 * a failing model call gives no answer, a short answer is ignored, and the confidence
 * divides only by a positive best score. The keyword fallback is modelled on its own.
 */
module Departments {
  import opened Wrappers
  import opened Text
  import opened ConfigModels
  import opened Patterns
  import opened CoreModels
  import opened Ranking

  type DeptScores = map<Department, real>

  /** Every department has a score. */
  predicate Complete(s: DeptScores) {
    forall d: Department :: d in s
  }

  function Min(a: real, b: real): real { if b < a then b else a }

  /** `f"{subject} {text} {sender}".lower()` */
  function DepartmentText(subject: string, text: string, sender: string): string {
    Lower(subject + " " + text + " " + sender)
  }

  /** How many of `words` occur in `fullText`. */
  function Hits(fullText: string, words: seq<string>): (n: nat)
    ensures n <= |words|
    ensures n == 0 <==> forall i :: 0 <= i < |words| ==> !Contains(fullText, words[i])
    decreases |words|
  {
    if words == [] then 0
    else
      var init := words[..|words| - 1];
      assert forall i :: 0 <= i < |init| ==> init[i] == words[i];
      Hits(fullText, init) + (if Contains(fullText, words[|words| - 1]) then 1 else 0)
  }

  function Power(b: real, k: nat): real {
    if k == 0 then 1.0 else Power(b, k - 1) * b
  }

  /** The booster loop over the first words: `score *= boost` for each word present. */
  function Boosted(score: real, fullText: string, words: seq<string>, boost: real): real
    decreases |words|
  {
    if words == [] then score
    else
      var prior := Boosted(score, fullText, words[..|words| - 1], boost);
      if Contains(fullText, words[|words| - 1]) then prior * boost else prior
  }

  /** The boosted score is the pattern score times the booster raised to the number of
      context words present. */
  lemma {:induction false} BoostedIsPower(score: real, fullText: string, words: seq<string>, boost: real)
    ensures Boosted(score, fullText, words, boost) == score * Power(boost, Hits(fullText, words))
    decreases |words|
  {
    if words != [] {
      var init := words[..|words| - 1];
      BoostedIsPower(score, fullText, init, boost);
      if Contains(fullText, words[|words| - 1]) {
        var p := Power(boost, Hits(fullText, init));
        assert (score * p) * boost == score * (p * boost);
      }
    }
  }

  /** The booster loop of `classify`. */
  method ApplyBoosters(base: real, fullText: string, words: seq<string>, boost: real) returns (score: real)
    ensures score == Boosted(base, fullText, words, boost)
    ensures score == base * Power(boost, Hits(fullText, words))
  {
    score := base;
    for j := 0 to |words|
      invariant score == Boosted(base, fullText, words[..j], boost)
    {
      assert words[..j + 1][..j] == words[..j];
      if Contains(fullText, words[j]) {
        score := score * boost;
      }
    }
    assert words[..|words|] == words;
    BoostedIsPower(base, fullText, words, boost);
  }

  /** One department's score: pattern matches times the department signal weight,
      boosted by its context words. */
  function DepartmentScore(pm: PatternManager, w: PatternWeights, fullText: string, d: Department): (r: real)
    requires pm.Valid()
  {
    var rules := pm.departmentPatterns[d];
    Boosted(PatternScore(pm.regex, fullText, rules.patterns, w.departmentSignalWeight),
            fullText, rules.contextWords, rules.confidenceBoost)
  }

  /** Boosting nothing leaves nothing. */
  lemma {:induction false} BoostedZero(fullText: string, words: seq<string>, boost: real)
    ensures Boosted(0.0, fullText, words, boost) == 0.0
    decreases |words|
  {
    if words != [] {
      BoostedZero(fullText, words[..|words| - 1], boost);
    }
  }

  /** A department none of whose rules matches scores 0, whatever its context words. */
  lemma NoMatchesScoreZero(pm: PatternManager, w: PatternWeights, fullText: string, d: Department)
    requires pm.Valid() && TotalMatches(pm.regex, fullText, pm.departmentPatterns[d].patterns) == 0
    ensures DepartmentScore(pm, w, fullText, d) == 0.0
  {
    var rules := pm.departmentPatterns[d];
    PatternScoreIsTotalTimesWeight(pm.regex, fullText, rules.patterns, w.departmentSignalWeight);
    BoostedZero(fullText, rules.contextWords, rules.confidenceBoost);
  }

  /** The score table after the first `n` departments of the table order. */
  function ScoresUpTo(pm: PatternManager, w: PatternWeights, fullText: string, n: nat): (r: DeptScores)
    requires pm.Valid() && n <= |DepartmentOrder|
    ensures forall d :: d in r <==> DepartmentRank(d) < n
    ensures forall d :: d in r ==> r[d] == DepartmentScore(pm, w, fullText, d)
  {
    if n == 0 then map[]
    else
      var d := DepartmentOrder[n - 1];
      assert DepartmentRank(d) == n - 1;
      ScoresUpTo(pm, w, fullText, n - 1)[d := DepartmentScore(pm, w, fullText, d)]
  }

  /** The boosted pattern scores of all four departments. */
  function PatternScores(pm: PatternManager, w: PatternWeights, fullText: string): (r: DeptScores)
    requires pm.Valid()
    ensures Complete(r)
    ensures forall d :: d in r ==> r[d] == DepartmentScore(pm, w, fullText, d)
  {
    ScoresUpTo(pm, w, fullText, 4)
  }

  /** The zero-shot labels offered to the model, in the order of the mapping. */
  const CandidateLabels: seq<string> :=
    ["technical support", "billing payment", "sales business", "customer support"]

  /** `label_mapping.get(name, 'support')` */
  function MappedDepartment(name: string): (d: Department)
    ensures d == Technical <==> name == CandidateLabels[0]
    ensures d == Billing <==> name == CandidateLabels[1]
    ensures d == Sales <==> name == CandidateLabels[2]
  {
    if name == "technical support" then Technical
    else if name == "billing payment" then Billing
    else if name == "sales business" then Sales
    else Support
  }

  /** The zero-shot pipeline called with the four candidate labels. */
  function WithCandidates(bert: Option<ZeroShotPipeline>): (m: Option<string -> Option<ZeroShotOutput>>)
    ensures m.None? <==> bert.None?
    ensures m.Some? ==> forall s :: m.value(s) == bert.value(s, CandidateLabels)
  {
    match bert
    case None => None
    case Some(b) => Some(s => b(s, CandidateLabels))
  }

  /** The zero-shot answer counts when it has a first label and a first score above 0.7;
      a missing first label or score raises inside the `try` and is ignored. */
  predicate BertFires(answer: Option<ZeroShotOutput>) {
    answer.Some? && answer.value.labels != [] && answer.value.scores != [] && answer.value.scores[0] > 0.7
  }

  /** `_apply_bert_validation` on the model's answer. */
  function BertAdjusted(scores: DeptScores, answer: Option<ZeroShotOutput>): (r: DeptScores)
    requires Complete(scores)
    ensures Complete(r) && r.Keys == scores.Keys
    ensures !BertFires(answer) ==> r == scores
    ensures BertFires(answer) ==>
      var d := MappedDepartment(answer.value.labels[0]);
      r[d] == scores[d] + 2.0 && forall e :: e != d ==> r[e] == scores[e]
  {
    if BertFires(answer) then
      var d := MappedDepartment(answer.value.labels[0]);
      scores[d := scores[d] + 2.0]
    else scores
  }

  function Values(s: DeptScores): (v: seq<real>)
    requires Complete(s)
    ensures |v| == |DepartmentOrder| && forall k :: 0 <= k < |v| ==> v[k] == s[DepartmentOrder[k]]
  {
    [s[Technical], s[Billing], s[Sales], s[Support]]
  }

  predicate AllZero(s: DeptScores)
    requires Complete(s)
  {
    s[Technical] == 0.0 && s[Billing] == 0.0 && s[Sales] == 0.0 && s[Support] == 0.0
  }

  /** The best score. */
  function Top(s: DeptScores): real
    requires Complete(s)
  {
    var v := Values(s);
    v[FirstMaxIndex(v)]
  }

  /** The runner-up score: the best of the scores left once the winner is taken out. */
  function RunnerUp(s: DeptScores): real
    requires Complete(s)
  {
    var v := Values(s);
    var rest := Without(v, FirstMaxIndex(v));
    rest[FirstMaxIndex(rest)]
  }

  /** The confidence of a clear winner: `0.6 + margin * 0.35` with the margin relative to
      the best score when the runner-up is positive, else 0.85 or 0.75 by the best score;
      capped at 0.95. */
  function SeparationConfidence(top: real, second: real): real
    requires second > 0.0 ==> top >= second
  {
    if second > 0.0 then Min(0.95, 0.6 + (top - second) / top * 0.35)
    else Min(0.95, if top >= 3.0 then 0.85 else 0.75)
  }

  lemma MarginBounds(top: real, second: real)
    requires 0.0 < second <= top
    ensures 0.0 <= (top - second) / top <= 1.0
  {
    var m := (top - second) / top;
    assert m * top == top - second;
  }

  /** The separation confidence lies in [0.6, 0.95], and is 0.6 exactly on a tie. */
  lemma SeparationConfidenceBounds(top: real, second: real)
    requires second > 0.0 ==> top >= second
    ensures 0.6 <= SeparationConfidence(top, second) <= 0.95
    ensures second > 0.0 ==> (SeparationConfidence(top, second) == 0.6 <==> second == top)
  {
    if second > 0.0 {
      MarginBounds(top, second);
      if SeparationConfidence(top, second) == 0.6 {
        var m := (top - second) / top;
        assert m == 0.0;
        assert m * top == top - second;
      }
    }
  }

  /** `_determine_final_department`. */
  function DetermineFinalDepartment(s: DeptScores): (r: Decision<Department>)
    requires Complete(s)
    ensures AllZero(s) ==> r == Decision(Support, 0.7)
    ensures !AllZero(s) ==> forall d :: d in s ==> s[d] <= s[r.category]
    ensures !AllZero(s) ==>
      forall k :: 0 <= k < DepartmentRank(r.category) ==> s[DepartmentOrder[k]] < s[r.category]
    ensures !AllZero(s) ==> RunnerUp(s) <= Top(s) == s[r.category]
    ensures !AllZero(s) ==> r.confidence == SeparationConfidence(Top(s), RunnerUp(s))
  {
    if AllZero(s) then Decision(Support, 0.7)
    else
      var values := Values(s);
      var best := FirstMaxIndex(values);
      assert forall d :: d in s ==> s[d] == values[DepartmentRank(d)];
      assert DepartmentRank(DepartmentOrder[best]) == best;
      var (first, second) := TopTwo(values);
      Decision(DepartmentOrder[best], SeparationConfidence(first, second))
  }

  /** Every department confidence lies in [0.6, 0.95]. */
  lemma DepartmentConfidenceInRange(s: DeptScores)
    requires Complete(s)
    ensures 0.6 <= DetermineFinalDepartment(s).confidence <= 0.95
  {
    if !AllZero(s) {
      SeparationConfidenceBounds(Top(s), RunnerUp(s));
    }
  }

  /** Two departments sharing the best positive score give the minimum confidence 0.6,
      and the winner is the one first in table order. */
  lemma TieGivesMinimumConfidence(s: DeptScores, d1: Department, d2: Department)
    requires Complete(s) && d1 != d2 && s[d1] == s[d2] > 0.0
    requires forall d :: d in s ==> s[d] <= s[d1]
    ensures DetermineFinalDepartment(s).confidence == 0.6
    ensures var r := DetermineFinalDepartment(s).category;
      DepartmentRank(r) <= DepartmentRank(d1) && DepartmentRank(r) <= DepartmentRank(d2)
  {
    var v := Values(s);
    var best := FirstMaxIndex(v);
    var rest := Without(v, best);
    var k1, k2 := DepartmentRank(d1), DepartmentRank(d2);
    assert v[k1] == s[d1] && v[k2] == s[d2];
    var other := if k1 != best then k1 else k2;
    assert other != best && v[other] == s[d1];
    var pos := if other < best then other else other - 1;
    assert rest[pos] == v[other];
    assert RunnerUp(s) >= s[d1];
    SeparationConfidenceBounds(Top(s), RunnerUp(s));
  }

  /** A confident zero-shot answer naming a department that already had a best score
      makes that department the winner. */
  lemma BertConfirmsLeader(s: DeptScores, answer: Option<ZeroShotOutput>)
    requires Complete(s) && BertFires(answer)
    requires var d := MappedDepartment(answer.value.labels[0]);
      forall e :: e in s ==> s[e] <= s[d]
    ensures DetermineFinalDepartment(BertAdjusted(s, answer)).category
            == MappedDepartment(answer.value.labels[0])
  {
    var d := MappedDepartment(answer.value.labels[0]);
    var r := BertAdjusted(s, answer);
    var w := DetermineFinalDepartment(r).category;
    if AllZero(r) {
      assert false;
    }
  }

  /** `_fallback_department_classification`: keyword containment in the lower-cased
      body, checked in the order technical, billing, sales. */
  function FallbackDepartment(text: string): (d: Decision<Department>)
    ensures d.confidence == 0.7
    ensures d.category == Technical <==> AnyContained(Lower(text), TechnicalWords)
    ensures d.category == Billing <==>
      !AnyContained(Lower(text), TechnicalWords) && AnyContained(Lower(text), BillingWords)
    ensures d.category == Sales <==>
      !AnyContained(Lower(text), TechnicalWords) && !AnyContained(Lower(text), BillingWords)
      && AnyContained(Lower(text), SalesWords)
  {
    var lowered := Lower(text);
    if AnyContained(lowered, TechnicalWords) then Decision(Technical, 0.7)
    else if AnyContained(lowered, BillingWords) then Decision(Billing, 0.7)
    else if AnyContained(lowered, SalesWords) then Decision(Sales, 0.7)
    else Decision(Support, 0.7)
  }

  const TechnicalWords: seq<string> := ["server", "api", "bug", "error", "crash"]
  const BillingWords: seq<string> := ["payment", "billing", "invoice", "charge"]
  const SalesWords: seq<string> := ["demo", "trial", "pricing", "buy"]

  /** The fallback ignores letter case. */
  lemma FallbackIgnoresCase(text: string)
    ensures FallbackDepartment(Lower(text)) == FallbackDepartment(text)
  {
    LowerIdempotent(text);
  }

  /** What `classify` returns, given the zero-shot answer (None when the step is
      disabled or the model is absent or failed). */
  function DepartmentOf(pm: PatternManager, c: ClassifierConfig, subject: string, text: string, sender: string,
                        answer: Option<ZeroShotOutput>): (r: Decision<Department>)
    requires pm.Valid()
    ensures 0.6 <= r.confidence <= 0.95
  {
    var base := PatternScores(pm, c.weights, DepartmentText(subject, text, sender));
    var scores := if c.processing.enableBertModel then BertAdjusted(base, answer) else base;
    DepartmentConfidenceInRange(scores);
    DetermineFinalDepartment(scores)
  }

  /** The failure counters after `classify`: the zero-shot model is asked only when it
      is enabled, and only its counter can grow. */
  function DepartmentFailures(c: ClassifierConfig, bert: Option<ZeroShotPipeline>, maxTextLength: int, text: string,
                              failures: map<ModelName, nat>): (f: map<ModelName, nat>)
    requires Bert in failures
    ensures f.Keys == failures.Keys
    ensures forall m :: m in failures && m != Bert ==> f[m] == failures[m]
    ensures f[Bert] == failures[Bert]
      + (if c.processing.enableBertModel && CallFails(WithCandidates(bert), text, maxTextLength) then 1 else 0)
  {
    if c.processing.enableBertModel then CountedFailure(failures, Bert, WithCandidates(bert), text, maxTextLength)
    else failures
  }

  /** With no rule matching, no context word to boost and no confident zero-shot answer,
      the email goes to support with confidence 0.7. */
  lemma NoSignalGoesToSupport(pm: PatternManager, c: ClassifierConfig, subject: string, text: string, sender: string,
                              answer: Option<ZeroShotOutput>)
    requires pm.Valid() && !BertFires(answer)
    requires var fullText := DepartmentText(subject, text, sender);
      forall d: Department :: TotalMatches(pm.regex, fullText, pm.departmentPatterns[d].patterns) == 0
    ensures DepartmentOf(pm, c, subject, text, sender, answer) == Decision(Support, 0.7)
  {
    var fullText := DepartmentText(subject, text, sender);
    forall d: Department ensures DepartmentScore(pm, c.weights, fullText, d) == 0.0 {
      NoMatchesScoreZero(pm, c.weights, fullText, d);
    }
  }

  class DepartmentClassifier {
    const config: ClassifierConfig
    const patterns: PatternManager
    const models: ModelManager

    constructor (config: ClassifierConfig, patterns: PatternManager, models: ModelManager)
      ensures this.config == config && this.patterns == patterns && this.models == models
    {
      this.config := config;
      this.patterns := patterns;
      this.models := models;
    }

    /** The zero-shot answer `classify` works with. */
    function BertAnswer(text: string): Option<ZeroShotOutput>
      reads models`bertClassifier
    {
      if config.processing.enableBertModel
      then CallResult(WithCandidates(models.bertClassifier), text, models.config.models.maxTextLength)
      else None
    }

    /** The scoring loop of `classify`, with the booster loop inside it. */
    method ComputeScores(fullText: string) returns (scores: DeptScores)
      requires patterns.Valid()
      ensures scores == PatternScores(patterns, config.weights, fullText)
    {
      scores := map[];
      for i := 0 to |DepartmentOrder|
        invariant scores == ScoresUpTo(patterns, config.weights, fullText, i)
      {
        var dept := DepartmentOrder[i];
        var rules := patterns.departmentPatterns[dept];
        var base := patterns.CalculatePatternScore(fullText, rules.patterns, config.weights.departmentSignalWeight);
        var score := ApplyBoosters(base, fullText, rules.contextWords, rules.confidenceBoost);
        scores := scores[dept := score];
      }
    }

    /** `_apply_bert_validation`: asks the zero-shot model, then adds the bonus. */
    method ApplyBertValidation(text: string, scores: DeptScores) returns (r: DeptScores)
      requires Complete(scores) && models.Valid()
      modifies models`modelFailures
      ensures models.Valid()
      ensures r == BertAdjusted(scores, CallResult(WithCandidates(models.bertClassifier), text,
                                                   models.config.models.maxTextLength))
      ensures models.modelFailures == CountedFailure(old(models.modelFailures), Bert, WithCandidates(models.bertClassifier),
                                                     text, models.config.models.maxTextLength)
    {
      var answer := models.SafeModelCall(Bert, WithCandidates(models.bertClassifier), text);
      r := scores;
      if answer.Some? && answer.value.labels != [] && answer.value.scores != [] {
        var predicted := MappedDepartment(answer.value.labels[0]);
        if answer.value.scores[0] > 0.7 {
          r := r[predicted := r[predicted] + 2.0];
        }
      }
    }

    /** `classify`. */
    method Classify(text: string, subject: string, sender: string) returns (d: Decision<Department>)
      requires patterns.Valid() && models.Valid()
      modifies models`modelFailures
      ensures models.Valid()
      ensures d == DepartmentOf(patterns, config, subject, text, sender, old(BertAnswer(text)))
      ensures models.modelFailures == DepartmentFailures(config, models.bertClassifier, models.config.models.maxTextLength,
                                                         text, old(models.modelFailures))
    {
      var fullText := DepartmentText(subject, text, sender);
      var scores := ComputeScores(fullText);
      if config.processing.enableBertModel {
        scores := ApplyBertValidation(text, scores);
      }
      d := DetermineFinalDepartment(scores);
    }
  }
}
