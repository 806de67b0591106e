/**
 * The urgency decision (classifiers/urgency_classifier.py): clamped per-level
 * scores, the optional emotion rescaling, the priority-ordered threshold rule with
 * its argmax fallback, and the keyword fallback taken when any step raises.
 *
 * Two steps can raise with well-typed inputs: a division by a zero threshold or a
 * zero maximum score, and the positive-word regex reported as malformed by the
 * matcher. Both are None below and lead to the keyword fallback.
 */
module Urgency {
  import opened Wrappers
  import opened Text
  import opened ConfigModels
  import opened Patterns
  import opened CoreModels
  import opened Ranking

  type Scores = map<Level, real>

  /** Every level has a score. */
  predicate Complete(s: Scores) {
    forall l: Level :: l in s
  }

  /** Every level has an entry in the rule table. */
  predicate Covers(t: map<Level, LevelRules>) {
    forall l: Level :: l in t
  }

  function Max0(x: real): real { if x > 0.0 then x else 0.0 }
  function Min(a: real, b: real): real { if b < a then b else a }

  /** `f"{subject} {text}".lower()` */
  function UrgencyText(subject: string, text: string): string {
    Lower(subject + " " + text)
  }

  /** One level's score from its rules: the core score, the secondary score and the
      text feature, clamped at 0. */
  function ClampedScore(regex: Matcher, fullText: string, rules: LevelRules, w: PatternWeights, features: real): (s: real)
    ensures s >= 0.0
  {
    Max0(PatternScore(regex, fullText, rules.corePatterns, w.corePatternWeight)
         + PatternScore(regex, fullText, rules.secondaryPatterns, w.secondaryPatternWeight)
         + features)
  }

  /** The clamped score is the core match count times the core weight, plus the
      secondary match count times the secondary weight, plus the feature, or 0 if that
      sum is negative. */
  lemma ClampedScoreIsWeightedMatches(regex: Matcher, fullText: string, rules: LevelRules, w: PatternWeights, features: real)
    ensures var sum := TotalMatches(regex, fullText, rules.corePatterns) as real * w.corePatternWeight
                       + TotalMatches(regex, fullText, rules.secondaryPatterns) as real * w.secondaryPatternWeight
                       + features;
      ClampedScore(regex, fullText, rules, w, features) == if sum > 0.0 then sum else 0.0
  {
    PatternScoreIsTotalTimesWeight(regex, fullText, rules.corePatterns, w.corePatternWeight);
    PatternScoreIsTotalTimesWeight(regex, fullText, rules.secondaryPatterns, w.secondaryPatternWeight);
  }

  /** One level's score in `classify`: rules matched against the lower-cased subject and
      body, the feature read from the raw body; None when the feature raised. */
  function LevelScore(pm: PatternManager, w: PatternWeights, subject: string, text: string, level: Level): (r: Option<real>)
    requires pm.Valid()
    ensures r.None? <==> pm.ExtractTextFeatures(text, level).None?
    ensures r.Some? ==> r.value >= 0.0
    ensures r.Some? ==> r.value == ClampedScore(pm.regex, UrgencyText(subject, text), pm.urgencyPatterns[level], w,
                                                pm.ExtractTextFeatures(text, level).value)
  {
    var features :- pm.ExtractTextFeatures(text, level);
    Some(ClampedScore(pm.regex, UrgencyText(subject, text), pm.urgencyPatterns[level], w, features))
  }

  /** The score table after the first `n` levels of the table order; None as soon as one
      level's features raised. */
  function ScoresUpTo(pm: PatternManager, w: PatternWeights, subject: string, text: string, n: nat): (r: Option<Scores>)
    requires pm.Valid() && n <= |UrgencyOrder|
    ensures r.None? <==> exists j :: 0 <= j < n && LevelScore(pm, w, subject, text, UrgencyOrder[j]).None?
    ensures r.Some? ==> forall l :: l in r.value <==> LevelRank(l) < n
    ensures r.Some? ==> forall l :: l in r.value ==> Some(r.value[l]) == LevelScore(pm, w, subject, text, l)
  {
    if n == 0 then Some(map[])
    else
      var prior :- ScoresUpTo(pm, w, subject, text, n - 1);
      var score :- LevelScore(pm, w, subject, text, UrgencyOrder[n - 1]);
      assert LevelRank(UrgencyOrder[n - 1]) == n - 1;
      Some(prior[UrgencyOrder[n - 1] := score])
  }

  lemma ScoresUpToStep(pm: PatternManager, w: PatternWeights, subject: string, text: string, i: nat,
                       table: Scores, score: real)
    requires pm.Valid() && i < |UrgencyOrder|
    requires ScoresUpTo(pm, w, subject, text, i) == Some(table)
    requires LevelScore(pm, w, subject, text, UrgencyOrder[i]) == Some(score)
    ensures ScoresUpTo(pm, w, subject, text, i + 1) == Some(table[UrgencyOrder[i] := score])
  {
  }

  lemma BaseScoresNone(pm: PatternManager, w: PatternWeights, subject: string, text: string, i: nat)
    requires pm.Valid() && i < |UrgencyOrder|
    requires LevelScore(pm, w, subject, text, UrgencyOrder[i]).None?
    ensures BaseScores(pm, w, subject, text).None?
  {
    assert ScoresUpTo(pm, w, subject, text, 4).None?;
  }

  /** The clamped scores of all four levels; None exactly when the positive-word regex
      of the low level raised. */
  function BaseScores(pm: PatternManager, w: PatternWeights, subject: string, text: string): (r: Option<Scores>)
    requires pm.Valid()
    ensures r.None? <==> pm.regex(PositiveWordsPattern, Lower(text)).None?
    ensures r.Some? ==> Complete(r.value)
    ensures r.Some? ==> forall l :: l in r.value ==> r.value[l] >= 0.0
    ensures r.Some? ==> forall l :: l in r.value ==> Some(r.value[l]) == LevelScore(pm, w, subject, text, l)
  {
    var r := ScoresUpTo(pm, w, subject, text, 4);
    assert UrgencyOrder[3] == Low;
    r
  }

  /** `{e['label']: e['score'] for e in entries}`: a later entry for a label wins. */
  function EmotionTable(entries: seq<LabelScore>): (t: map<string, real>)
    ensures forall k :: k in t <==> exists i :: 0 <= i < |entries| && entries[i].labelName == k
    ensures entries != [] ==> t[entries[|entries| - 1].labelName] == entries[|entries| - 1].score
    decreases |entries|
  {
    if entries == [] then map[]
    else
      var prior := EmotionTable(entries[..|entries| - 1]);
      assert forall i :: 0 <= i < |entries| - 1 ==> entries[..|entries| - 1][i] == entries[i];
      prior[entries[|entries| - 1].labelName := entries[|entries| - 1].score]
  }

  /** `emotion_scores.get(label, 0)` */
  function EmotionOf(t: map<string, real>, name: string): real {
    if name in t then t[name] else 0.0
  }

  /** `scores[level] *= factor` */
  function Scale(scores: Scores, level: Level, factor: real): (r: Scores)
    requires Complete(scores)
    ensures Complete(r) && r.Keys == scores.Keys
    ensures forall l :: l != level ==> r[l] == scores[l]
  {
    scores[level := scores[level] * factor]
  }

  /** The joy rule: above 0.6, low is scaled up by `1 + joy` and critical down by
      `1 - joy / 2`. */
  function JoyAdjusted(scores: Scores, joy: real): (r: Scores)
    requires Complete(scores)
    ensures Complete(r) && r.Keys == scores.Keys
    ensures r[Medium] == scores[Medium] && r[High] == scores[High]
  {
    if joy > 0.6 then Scale(Scale(scores, Low, 1.0 + joy), Critical, 1.0 - joy * 0.5) else scores
  }

  /** The anger-or-fear rule: high is scaled by 1.3 and critical by 1.2. */
  function ArousalAdjusted(scores: Scores, aroused: bool): (r: Scores)
    requires Complete(scores)
    ensures Complete(r) && r.Keys == scores.Keys
    ensures r[Medium] == scores[Medium] && r[Low] == scores[Low]
  {
    if aroused then Scale(Scale(scores, High, 1.3), Critical, 1.2) else scores
  }

  /** `_apply_emotion_analysis` on the model's answer: a missing or empty answer changes
      nothing; otherwise joy above 0.6 scales low up and critical down, and then anger or
      fear above 0.5 scales high and critical up. Medium is never changed. */
  function EmotionAdjusted(scores: Scores, emotion: Option<seq<seq<LabelScore>>>): (r: Scores)
    requires Complete(scores)
    ensures Complete(r) && r.Keys == scores.Keys
    ensures r[Medium] == scores[Medium]
    ensures emotion.None? || emotion.value == [] ==> r == scores
  {
    if emotion.None? || emotion.value == [] then scores
    else
      var table := EmotionTable(emotion.value[0]);
      ArousalAdjusted(JoyAdjusted(scores, EmotionOf(table, "joy")),
                      EmotionOf(table, "anger") > 0.5 || EmotionOf(table, "fear") > 0.5)
  }

  /** The joy rule changes low and critical only. */
  lemma JoyRule(scores: Scores, joy: real)
    requires Complete(scores)
    ensures var r := JoyAdjusted(scores, joy);
      && r[Low] == (if joy > 0.6 then scores[Low] * (1.0 + joy) else scores[Low])
      && r[Critical] == (if joy > 0.6 then scores[Critical] * (1.0 - joy * 0.5) else scores[Critical])
  {
  }

  /** The anger-or-fear rule changes high and critical only. */
  lemma ArousalRule(scores: Scores, aroused: bool)
    requires Complete(scores)
    ensures var r := ArousalAdjusted(scores, aroused);
      && r[High] == (if aroused then scores[High] * 1.3 else scores[High])
      && r[Critical] == (if aroused then scores[Critical] * 1.2 else scores[Critical])
  {
  }

  /** The levels that reach their thresholds, the first of them in priority order wins. */
  predicate Reaches(t: map<Level, LevelRules>, scores: Scores, k: nat)
    requires Covers(t) && Complete(scores) && k < |UrgencyOrder|
  {
    scores[UrgencyOrder[k]] >= t[UrgencyOrder[k]].threshold
  }

  /** The confidence of a threshold win: `min(max_conf, 0.5 + score / (2 * threshold) * 0.4)`;
      None when the threshold is zero. */
  function ThresholdConfidence(t: map<Level, LevelRules>, level: Level, score: real): Option<real>
    requires Covers(t)
  {
    var threshold := t[level].threshold;
    if threshold * 2.0 == 0.0 then None
    else Some(Min(t[level].maxConfidence, 0.5 + (score / (threshold * 2.0)) * 0.4))
  }

  function ScoreSeq(scores: Scores): (s: seq<real>)
    requires Complete(scores)
    ensures |s| == |UrgencyOrder| && forall k :: 0 <= k < |s| ==> s[k] == scores[UrgencyOrder[k]]
  {
    [scores[Critical], scores[High], scores[Medium], scores[Low]]
  }

  /** The argmax step: the first maximal level, `min(0.85, 0.5 + s / max * 0.35)`;
      None when the maximum is zero. */
  function ArgmaxDecision(scores: Scores): (r: Option<Decision<Level>>)
    requires Complete(scores)
    ensures r.Some? ==> forall l :: l in scores ==> scores[l] <= scores[r.value.category]
    ensures r.Some? ==> forall k :: 0 <= k < LevelRank(r.value.category) ==> scores[UrgencyOrder[k]] < scores[r.value.category]
    ensures r.Some? ==> r.value.confidence == 0.85
    ensures r.None? <==> scores[UrgencyOrder[FirstMaxIndex(ScoreSeq(scores))]] == 0.0
  {
    var values := ScoreSeq(scores);
    var best := FirstMaxIndex(values);
    var maxScore := values[best];
    if maxScore == 0.0 then None
    else
      assert forall l :: l in scores ==> scores[l] == values[LevelRank(l)];
      assert LevelRank(UrgencyOrder[best]) == best;
      Some(Decision(UrgencyOrder[best], Min(0.85, 0.5 + (values[best] / maxScore) * 0.35)))
  }

  /** The priority loop from position `k` on. */
  function FromLevel(t: map<Level, LevelRules>, scores: Scores, k: nat): Option<Decision<Level>>
    requires Covers(t) && Complete(scores) && k <= |UrgencyOrder|
    decreases |UrgencyOrder| - k
  {
    if k == |UrgencyOrder| then ArgmaxDecision(scores)
    else if Reaches(t, scores, k) then
      var c :- ThresholdConfidence(t, UrgencyOrder[k], scores[UrgencyOrder[k]]);
      Some(Decision(UrgencyOrder[k], c))
    else FromLevel(t, scores, k + 1)
  }

  predicate AllZero(scores: Scores)
    requires Complete(scores)
  {
    scores[Critical] == 0.0 && scores[High] == 0.0 && scores[Medium] == 0.0 && scores[Low] == 0.0
  }

  /** `_determine_final_urgency`; None where the source divides by zero. */
  function DetermineFinalUrgency(t: map<Level, LevelRules>, scores: Scores): (r: Option<Decision<Level>>)
    requires Covers(t) && Complete(scores)
    ensures AllZero(scores) ==> r == Some(Decision(Medium, 0.6))
  {
    if AllZero(scores) then Some(Decision(Medium, 0.6)) else FromLevel(t, scores, 0)
  }

  lemma {:induction false} FromLevelFirstReached(t: map<Level, LevelRules>, scores: Scores, start: nat, k: nat)
    requires Covers(t) && Complete(scores) && start <= k < |UrgencyOrder|
    requires Reaches(t, scores, k)
    requires forall j :: start <= j < k ==> !Reaches(t, scores, j)
    ensures FromLevel(t, scores, start)
            == (match ThresholdConfidence(t, UrgencyOrder[k], scores[UrgencyOrder[k]])
                case None => None
                case Some(c) => Some(Decision(UrgencyOrder[k], c)))
    decreases k - start
  {
    if start < k {
      FromLevelFirstReached(t, scores, start + 1, k);
    }
  }

  lemma {:induction false} FromLevelNoneReached(t: map<Level, LevelRules>, scores: Scores, start: nat)
    requires Covers(t) && Complete(scores) && start <= |UrgencyOrder|
    requires forall j :: start <= j < |UrgencyOrder| ==> !Reaches(t, scores, j)
    ensures FromLevel(t, scores, start) == ArgmaxDecision(scores)
    decreases |UrgencyOrder| - start
  {
    if start < |UrgencyOrder| {
      FromLevelNoneReached(t, scores, start + 1);
    }
  }

  /** Priority, not maximum: the first level in the order critical, high, medium, low
      whose score reaches its threshold wins, whatever the later levels score. */
  lemma PriorityDecides(t: map<Level, LevelRules>, scores: Scores, k: nat)
    requires Covers(t) && Complete(scores) && !AllZero(scores) && k < |UrgencyOrder|
    requires Reaches(t, scores, k) && forall j :: 0 <= j < k ==> !Reaches(t, scores, j)
    ensures var level := UrgencyOrder[k];
      DetermineFinalUrgency(t, scores)
      == if t[level].threshold == 0.0 then None
         else Some(Decision(level, Min(t[level].maxConfidence, 0.5 + scores[level] / (t[level].threshold * 2.0) * 0.4)))
  {
    FromLevelFirstReached(t, scores, 0, k);
  }

  /** When no level reaches its threshold, the first maximal level wins with
      confidence 0.85, unless the maximum is zero. */
  lemma ArgmaxWhenNoThresholdMet(t: map<Level, LevelRules>, scores: Scores)
    requires Covers(t) && Complete(scores) && !AllZero(scores)
    requires forall j :: 0 <= j < |UrgencyOrder| ==> !Reaches(t, scores, j)
    ensures DetermineFinalUrgency(t, scores) == ArgmaxDecision(scores)
  {
    FromLevelNoneReached(t, scores, 0);
  }

  /** A threshold win with a positive threshold has a confidence between
      `min(ceiling, 0.7)` and the ceiling. */
  lemma ThresholdConfidenceBounds(t: map<Level, LevelRules>, level: Level, score: real)
    requires Covers(t) && t[level].threshold > 0.0 && score >= t[level].threshold
    ensures var c := ThresholdConfidence(t, level, score);
      && c.Some?
      && c.value <= t[level].maxConfidence
      && c.value >= Min(t[level].maxConfidence, 0.7)
  {
    var threshold := t[level].threshold;
    HalfOrMore(score, threshold * 2.0);
  }

  lemma HalfOrMore(score: real, d: real)
    requires d > 0.0 && score >= d / 2.0
    ensures score / d >= 0.5
  {
    var q := score / d;
    assert q * d == score;
  }

  /** `_fallback_urgency_classification`: keyword containment in the lower-cased body. */
  function FallbackUrgency(text: string): (d: Decision<Level>)
    ensures d.category != Critical
    ensures d.category == High <==> AnyContained(Lower(text), UrgentWords)
    ensures d.category == Low <==>
      !AnyContained(Lower(text), UrgentWords) && AnyContained(Lower(text), ThankfulWords)
    ensures d.confidence == if d.category == Medium then 0.6 else 0.7
  {
    var lowered := Lower(text);
    if AnyContained(lowered, UrgentWords) then Decision(High, 0.7)
    else if AnyContained(lowered, ThankfulWords) then Decision(Low, 0.7)
    else Decision(Medium, 0.6)
  }

  const UrgentWords: seq<string> := ["urgent", "critical", "emergency", "asap"]
  const ThankfulWords: seq<string> := ["thank", "thanks", "great", "excellent"]

  /** The fallback ignores letter case. */
  lemma FallbackIgnoresCase(text: string)
    ensures FallbackUrgency(Lower(text)) == FallbackUrgency(text)
  {
    LowerIdempotent(text);
  }

  /** What `classify` returns, given the emotion model's answer (None when the step is
      disabled or the model is absent or failed). */
  function UrgencyOf(pm: PatternManager, c: ClassifierConfig, subject: string, text: string,
                     emotion: Option<seq<seq<LabelScore>>>): (d: Decision<Level>)
    requires pm.Valid()
  {
    match BaseScores(pm, c.weights, subject, text)
    case None => FallbackUrgency(text)
    case Some(base) =>
      var scores := if c.processing.enableEmotionModel then EmotionAdjusted(base, emotion) else base;
      match DetermineFinalUrgency(pm.urgencyPatterns, scores)
      case None => FallbackUrgency(text)
      case Some(d) => d
  }

  /** The failure counters after `classify`: the emotion model is asked only when it is
      enabled and the base scores were computed, and only its counter can grow. */
  function UrgencyFailures(pm: PatternManager, c: ClassifierConfig, emotion: Option<LabelPipeline>, maxTextLength: int,
                           subject: string, text: string, failures: map<ModelName, nat>): (f: map<ModelName, nat>)
    requires pm.Valid() && Emotion in failures
    ensures f.Keys == failures.Keys
    ensures forall m :: m in failures && m != Emotion ==> f[m] == failures[m]
    ensures f[Emotion] == failures[Emotion]
      + (if c.processing.enableEmotionModel && BaseScores(pm, c.weights, subject, text).Some?
            && CallFails(emotion, text, maxTextLength) then 1 else 0)
  {
    if c.processing.enableEmotionModel && BaseScores(pm, c.weights, subject, text).Some?
    then CountedFailure(failures, Emotion, emotion, text, maxTextLength)
    else failures
  }

  predicate PositiveThresholds(t: map<Level, LevelRules>)
    requires Covers(t)
  {
    forall l: Level :: t[l].threshold > 0.0
  }

  predicate CeilingsWithin(t: map<Level, LevelRules>, lo: real, hi: real)
    requires Covers(t)
  {
    forall l: Level :: lo <= t[l].maxConfidence <= hi
  }

  /** With positive thresholds and ceilings in [0.6, 1], every decision of
      `_determine_final_urgency` has a confidence in [0.6, 1]. */
  lemma DecisionConfidenceInRange(t: map<Level, LevelRules>, scores: Scores)
    requires Covers(t) && Complete(scores)
    requires PositiveThresholds(t) && CeilingsWithin(t, 0.6, 1.0)
    ensures var r := DetermineFinalUrgency(t, scores);
      r.Some? ==> 0.6 <= r.value.confidence <= 1.0
  {
    if !AllZero(scores) {
      if k :| 0 <= k < |UrgencyOrder| && Reaches(t, scores, k) {
        var first := FirstReached(t, scores, k);
        PriorityDecides(t, scores, first);
        ThresholdConfidenceBounds(t, UrgencyOrder[first], scores[UrgencyOrder[first]]);
      } else {
        ArgmaxWhenNoThresholdMet(t, scores);
      }
    }
  }

  /** With positive thresholds and ceilings in [0.6, 1], as the default configuration
      has, every urgency confidence lies in [0.6, 1]. */
  lemma UrgencyConfidenceInRange(pm: PatternManager, c: ClassifierConfig, subject: string, text: string,
                                 emotion: Option<seq<seq<LabelScore>>>)
    requires pm.Valid()
    requires PositiveThresholds(pm.urgencyPatterns) && CeilingsWithin(pm.urgencyPatterns, 0.6, 1.0)
    ensures 0.6 <= UrgencyOf(pm, c, subject, text, emotion).confidence <= 1.0
  {
    var base := BaseScores(pm, c.weights, subject, text);
    if base.Some? {
      var scores := if c.processing.enableEmotionModel then EmotionAdjusted(base.value, emotion) else base.value;
      DecisionConfidenceInRange(pm.urgencyPatterns, scores);
    }
  }

  /** The default configuration meets the conditions of the range lemma. */
  lemma DefaultConfigInRange(regex: Matcher)
    ensures var t := NewPatternManager(Default(), regex).urgencyPatterns;
      Covers(t) && PositiveThresholds(t) && CeilingsWithin(t, 0.6, 1.0)
  {
    var u := Default().urgency;
    var t := BuildUrgencyPatterns(u);
    LevelsAreFour();
    forall l: Level
      ensures t[l].threshold > 0.0 && 0.6 <= t[l].maxConfidence <= 1.0
    {
      assert t[l].threshold == Threshold(u, l) && t[l].maxConfidence == MaxConfidence(u, l);
    }
  }

  /** The smallest position at or below `k` whose level reaches its threshold. */
  function FirstReached(t: map<Level, LevelRules>, scores: Scores, k: nat): (first: nat)
    requires Covers(t) && Complete(scores) && k < |UrgencyOrder| && Reaches(t, scores, k)
    ensures first <= k && Reaches(t, scores, first)
    ensures forall j :: 0 <= j < first ==> !Reaches(t, scores, j)
    decreases k
  {
    if k == 0 then 0
    else if Reaches(t, scores, 0) then 0
    else if Reaches(t, scores, 1) || k == 1 then 1
    else if Reaches(t, scores, 2) || k == 2 then 2
    else 3
  }

  class UrgencyClassifier {
    const config: ClassifierConfig
    const patterns: PatternManager
    const models: ModelManager

    constructor (config: ClassifierConfig, patterns: PatternManager, models: ModelManager)
      ensures this.config == config && this.patterns == patterns && this.models == models
    {
      this.config := config;
      this.patterns := patterns;
      this.models := models;
    }

    /** The emotion model's answer `classify` works with. */
    function EmotionAnswer(text: string): Option<seq<seq<LabelScore>>>
      reads models`emotionModel
    {
      if config.processing.enableEmotionModel then CallResult(models.emotionModel, text, models.config.models.maxTextLength)
      else None
    }

    /** The scoring loop of `classify`, level by level in table order. */
    method ComputeScores(subject: string, text: string) returns (scores: Option<Scores>)
      requires patterns.Valid()
      ensures scores == BaseScores(patterns, config.weights, subject, text)
    {
      var fullText := UrgencyText(subject, text);
      var table: Scores := map[];
      for i := 0 to |UrgencyOrder|
        invariant ScoresUpTo(patterns, config.weights, subject, text, i) == Some(table)
      {
        var level := UrgencyOrder[i];
        var rules := patterns.urgencyPatterns[level];
        var score := 0.0;
        var core := patterns.CalculatePatternScore(fullText, rules.corePatterns, config.weights.corePatternWeight);
        score := score + core;
        var secondary := patterns.CalculatePatternScore(fullText, rules.secondaryPatterns, config.weights.secondaryPatternWeight);
        score := score + secondary;
        var features := patterns.ExtractTextFeatures(text, level);
        if features.None? {
          BaseScoresNone(patterns, config.weights, subject, text, i);
          return None;
        }
        score := score + features.value;
        ScoresUpToStep(patterns, config.weights, subject, text, i, table, Max0(score));
        table := table[level := Max0(score)];
      }
      scores := Some(table);
    }

    /** `_apply_emotion_analysis`: asks the emotion model, then rescales. */
    method ApplyEmotionAnalysis(text: string, scores: Scores) returns (r: Scores)
      requires Complete(scores) && models.Valid()
      modifies models`modelFailures
      ensures models.Valid()
      ensures r == EmotionAdjusted(scores, CallResult(models.emotionModel, text, models.config.models.maxTextLength))
      ensures models.modelFailures
              == CountedFailure(old(models.modelFailures), Emotion, models.emotionModel, text, models.config.models.maxTextLength)
    {
      var emotion := models.SafeModelCall(Emotion, models.emotionModel, text);
      r := EmotionAdjusted(scores, emotion);
    }

    /** `classify`. */
    method Classify(text: string, subject: string) returns (d: Decision<Level>)
      requires patterns.Valid() && models.Valid()
      modifies models`modelFailures
      ensures models.Valid()
      ensures d == UrgencyOf(patterns, config, subject, text, old(EmotionAnswer(text)))
      ensures models.modelFailures == UrgencyFailures(patterns, config, models.emotionModel, models.config.models.maxTextLength,
                                                      subject, text, old(models.modelFailures))
    {
      var base := ComputeScores(subject, text);
      if base.None? {
        return FallbackUrgency(text);
      }
      var scores := base.value;
      if config.processing.enableEmotionModel {
        scores := ApplyEmotionAnalysis(text, scores);
      }
      var decision := DetermineFinalUrgency(patterns.urgencyPatterns, scores);
      if decision.None? {
        return FallbackUrgency(text);
      }
      d := decision.value;
    }
  }
}
