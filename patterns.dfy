/**
 * The pattern registry (core/patterns.py): the fixed rule tables for the four
 * urgency levels and the four departments, the weighted match-count score and
 * the structural text features.
 *
 * Regular-expression matching is not modelled: a `Matcher` is the regex engine
 * as an oracle. `regex(pattern, text)` is the number of matches
 * `len(re.findall(pattern, text, re.IGNORECASE))`, or None when the pattern is
 * malformed (`re.error`). Every property below holds for every matcher.
 */
module Patterns {
  import opened Wrappers
  import opened Text
  import opened ConfigModels

  datatype Level = Critical | High | Medium | Low
  datatype Department = Technical | Billing | Sales | Support

  /** A classifier's answer: the chosen category and its confidence. */
  datatype Decision<T> = Decision(category: T, confidence: real)

  /** Insertion order of the urgency table, which is also the priority order. */
  const UrgencyOrder: seq<Level> := [Critical, High, Medium, Low]
  /** Insertion order of the department table. */
  const DepartmentOrder: seq<Department> := [Technical, Billing, Sales, Support]

  const AllLevels: set<Level> := {Critical, High, Medium, Low}
  const AllDepartments: set<Department> := {Technical, Billing, Sales, Support}

  lemma LevelsAreFour()
    ensures forall l: Level :: l in AllLevels
  {
    forall l: Level
      ensures l in AllLevels
    {
      match l
      case Critical =>
      case High =>
      case Medium =>
      case Low =>
    }
  }

  lemma DepartmentsAreFour()
    ensures forall d: Department :: d in AllDepartments
  {
    forall d: Department
      ensures d in AllDepartments
    {
      match d
      case Technical =>
      case Billing =>
      case Sales =>
      case Support =>
    }
  }

  function LevelRank(l: Level): (k: nat)
    ensures k < |UrgencyOrder| && UrgencyOrder[k] == l
  {
    match l
    case Critical => 0
    case High => 1
    case Medium => 2
    case Low => 3
  }

  function DepartmentRank(d: Department): (k: nat)
    ensures k < |DepartmentOrder| && DepartmentOrder[k] == d
  {
    match d
    case Technical => 0
    case Billing => 1
    case Sales => 2
    case Support => 3
  }

  type Matcher = (string, string) -> Option<nat>

  datatype LevelRules = LevelRules(
    corePatterns: seq<string>,
    secondaryPatterns: seq<string>,
    threshold: real,
    maxConfidence: real)

  datatype DepartmentRules = DepartmentRules(
    patterns: seq<string>,
    contextWords: seq<string>,
    confidenceBoost: real)

  /** The positive-word lexicon `extract_text_features` looks for in the lower-cased text. */
  const PositiveWordsPattern: string := @"\b(thank|great|love|excellent|wonderful)\b"

  /** The number of matches of one rule, 0 for a malformed one. */
  function Matches(regex: Matcher, text: string, pattern: string): nat {
    match regex(pattern, text)
    case Some(n) => n
    case None => 0
  }

  /** `len(re.findall(pattern, text)) * weight`, or nothing when the rule is malformed. */
  function RuleScore(regex: Matcher, text: string, pattern: string, weight: real): real {
    Matches(regex, text, pattern) as real * weight
  }

  /** What the loop of `calculate_pattern_score` has accumulated after `patterns`. */
  function PatternScore(regex: Matcher, text: string, patterns: seq<string>, weight: real): real
    decreases |patterns|
  {
    if patterns == [] then 0.0
    else PatternScore(regex, text, patterns[..|patterns| - 1], weight)
         + RuleScore(regex, text, patterns[|patterns| - 1], weight)
  }

  /** Total number of matches of the well-formed rules. */
  function TotalMatches(regex: Matcher, text: string, patterns: seq<string>): nat
    decreases |patterns|
  {
    if patterns == [] then 0
    else TotalMatches(regex, text, patterns[..|patterns| - 1]) + Matches(regex, text, patterns[|patterns| - 1])
  }

  /** Scores add up over concatenated rule lists. */
  lemma {:induction false} PatternScoreAppend(regex: Matcher, text: string, a: seq<string>, b: seq<string>, weight: real)
    ensures PatternScore(regex, text, a + b, weight)
            == PatternScore(regex, text, a, weight) + PatternScore(regex, text, b, weight)
    decreases |b|
  {
    if b != [] {
      assert (a + b)[..|a + b| - 1] == a + b[..|b| - 1];
      PatternScoreAppend(regex, text, a, b[..|b| - 1], weight);
    } else {
      assert a + b == a;
    }
  }

  /** The score is the total match count times the weight. */
  lemma {:induction false} PatternScoreIsTotalTimesWeight(regex: Matcher, text: string, patterns: seq<string>, weight: real)
    ensures PatternScore(regex, text, patterns, weight) == TotalMatches(regex, text, patterns) as real * weight
    decreases |patterns|
  {
    if patterns != [] {
      var init, last := patterns[..|patterns| - 1], patterns[|patterns| - 1];
      PatternScoreIsTotalTimesWeight(regex, text, init, weight);
      ScaleStep(TotalMatches(regex, text, patterns), TotalMatches(regex, text, init), Matches(regex, text, last), weight,
                PatternScore(regex, text, patterns, weight), PatternScore(regex, text, init, weight),
                RuleScore(regex, text, last, weight));
    }
  }

  /** One step of the induction above, with the products kept apart. */
  lemma ScaleStep(total: nat, init: nat, last: nat, w: real, score: real, before: real, rule: real)
    requires total == init + last && score == before + rule
    requires before == init as real * w && rule == last as real * w
    ensures score == total as real * w
  {
  }

  /** A malformed rule contributes nothing, and the rules around it are still counted. */
  lemma MalformedRuleSkipped(regex: Matcher, text: string, before: seq<string>, bad: string, after: seq<string>, weight: real)
    requires regex(bad, text).None?
    ensures PatternScore(regex, text, before + [bad] + after, weight)
            == PatternScore(regex, text, before + after, weight)
  {
    PatternScoreAppend(regex, text, before + [bad], after, weight);
    PatternScoreAppend(regex, text, before, after, weight);
    assert (before + [bad])[..|before + [bad]| - 1] == before;
  }

  /** With a non-negative weight the score is non-negative. */
  lemma {:induction false} PatternScoreNonNegative(regex: Matcher, text: string, patterns: seq<string>, weight: real)
    requires weight >= 0.0
    ensures PatternScore(regex, text, patterns, weight) >= 0.0
    decreases |patterns|
  {
    if patterns != [] {
      PatternScoreNonNegative(regex, text, patterns[..|patterns| - 1], weight);
    }
  }

  /** `sum(1 for c in text if c.isupper()) / max(len(text), 1)` */
  function CapsRatio(text: string): (r: real)
    ensures 0.0 <= r <= 1.0
    ensures r == 0.0 <==> CountUpper(text) == 0
  {
    var n := if |text| > 1 then |text| else 1;
    CountUpper(text) as real / n as real
  }

  /** `_build_urgency_patterns`: one entry per level, with the literal rule lists and the
      threshold and ceiling of the configuration. */
  function BuildUrgencyPatterns(u: UrgencyThresholds): (t: map<Level, LevelRules>)
    ensures forall l: Level :: l in t
    ensures forall l: Level :: t[l] == LevelRules(CorePatterns(l), SecondaryPatterns(l), Threshold(u, l), MaxConfidence(u, l))
  {
    LevelsAreFour();
    map l | l in AllLevels :: LevelRules(CorePatterns(l), SecondaryPatterns(l), Threshold(u, l), MaxConfidence(u, l))
  }

  /** The literal rules, context words and booster of each department. */
  function DepartmentTable(dept: Department): DepartmentRules {
    DepartmentRules(DepartmentPatterns(dept), ContextWords(dept), BoostOf(dept))
  }

  /** The literal rules of each department. */
  function DepartmentPatterns(dept: Department): seq<string> {
    match dept
    case Technical =>
      [@"\b(server|database|api|code|sql|git)\b",
       @"\b(bug|error|crash|timeout|502|404|500)\b",
       @"\b(integration|deployment|infrastructure|ssl)\b",
       @"\b(performance|loading|speed|responsive)\b"]
    case Billing =>
      [@"\b(invoice|payment|billing|subscription)\b",
       @"\b(charge|refund|credit|debit|receipt)\b",
       @"\b(price|cost|fee|tax|financial)\b",
       @"\b(card|paypal|stripe|transaction)\b"]
    case Sales =>
      [@"\b(demo|trial|pricing|quote|proposal)\b",
       @"\b(purchase|buy|interested|evaluate)\b",
       @"\b(meeting|call|presentation|opportunity)\b",
       @"\b(partnership|collaboration|deal)\b"]
    case Support =>
      [@"\b(help|support|assistance|tutorial)\b",
       @"\b(how to|documentation|manual|guide)\b",
       @"\b(training|onboarding|setup)\b",
       @"\b(feature|functionality|usage)\b"]
  }

  /** The context words of each department. */
  function ContextWords(dept: Department): seq<string> {
    match dept
    case Technical => ["technical", "dev", "engineering", "IT"]
    case Billing => ["finance", "accounting", "billing"]
    case Sales => ["sales", "business", "commercial"]
    case Support => ["support", "help", "customer"]
  }

  /** `_build_department_patterns`: one entry per department. */
  function BuildDepartmentPatterns(): (t: map<Department, DepartmentRules>)
    ensures forall d: Department :: d in t && t[d] == DepartmentTable(d)
  {
    DepartmentsAreFour();
    map d | d in AllDepartments :: DepartmentTable(d)
  }

  /** `PatternManager(config)`: both tables are built from the configuration. */
  function NewPatternManager(config: ClassifierConfig, regex: Matcher): (pm: PatternManager)
    ensures pm.Valid() && pm.config == config && pm.regex == regex
    ensures pm.urgencyPatterns == BuildUrgencyPatterns(config.urgency)
    ensures pm.departmentPatterns == BuildDepartmentPatterns()
  {
    PatternManager(config, regex, BuildUrgencyPatterns(config.urgency), BuildDepartmentPatterns())
  }

  /** The registry of one configuration, with the regex engine it matches with. */
  datatype PatternManager = PatternManager(
    config: ClassifierConfig,
    regex: Matcher,
    urgencyPatterns: map<Level, LevelRules>,
    departmentPatterns: map<Department, DepartmentRules>)
  {
    /** Every level and department has an entry; each level's threshold and ceiling are
        the configuration's, and each department's booster is the table's. */
    predicate Valid() {
      && (forall l: Level :: l in urgencyPatterns)
      && (forall l: Level :: urgencyPatterns[l].threshold == Threshold(config.urgency, l))
      && (forall l: Level :: urgencyPatterns[l].maxConfidence == MaxConfidence(config.urgency, l))
      && (forall d: Department :: d in departmentPatterns)
      && (forall d: Department :: departmentPatterns[d].confidenceBoost == BoostOf(d))
    }

    /** `calculate_pattern_score`: the loop over the rules, skipping malformed ones. */
    method CalculatePatternScore(text: string, patterns: seq<string>, weight: real) returns (score: real)
      ensures score == PatternScore(regex, text, patterns, weight)
    {
      score := 0.0;
      for i := 0 to |patterns|
        invariant score == PatternScore(regex, text, patterns[..i], weight)
      {
        assert patterns[..i + 1][..i] == patterns[..i];
        match regex(patterns[i], text) {
          case Some(matches) =>
            score := score + matches as real * weight;
          case None =>
        }
      }
      assert patterns[..|patterns|] == patterns;
    }

    /** `extract_text_features`; None when the positive-word regex raises. Critical reads
        the raw text, low the positive words of the lower-cased text, and the other two
        levels contribute nothing. */
    function ExtractTextFeatures(text: string, level: Level): (r: Option<real>)
      ensures r.None? <==> level.Low? && regex(PositiveWordsPattern, Lower(text)).None?
      ensures level.Critical? ==> r == Some(CriticalFeatures(text, config.weights))
      ensures level.High? || level.Medium? ==> r == Some(0.0)
      ensures level.Low? && r.Some? ==>
        r.value == regex(PositiveWordsPattern, Lower(text)).value as real * config.weights.positiveWordsWeight
      ensures NonNegativeWeights(config.weights) && r.Some? ==> r.value >= 0.0
    {
      match level
      case Critical => Some(CriticalFeatures(text, config.weights))
      case Low =>
        (match regex(PositiveWordsPattern, Lower(text))
         case Some(positiveWords) => Some(positiveWords as real * config.weights.positiveWordsWeight)
         case None => None)
      case _ => Some(0.0)
    }
  }

  predicate NonNegativeWeights(w: PatternWeights) {
    w.corePatternWeight >= 0.0 && w.secondaryPatternWeight >= 0.0 && w.capsRatioWeight >= 0.0
    && w.exclamationWeight >= 0.0 && w.positiveWordsWeight >= 0.0
  }

  /** The critical-level features: the share of upper-case characters times the caps
      weight plus the number of `!` times the exclamation weight. The caps part never
      exceeds its weight, and a text with neither feature scores 0. */
  function CriticalFeatures(text: string, w: PatternWeights): (s: real)
    ensures NonNegativeWeights(w) ==>
      0.0 <= s <= w.capsRatioWeight + CountChar(text, '!') as real * w.exclamationWeight
    ensures CountUpper(text) == 0 && CountChar(text, '!') == 0 ==> s == 0.0
  {
    var capsRatio := CapsRatio(text);
    var exclamationCount := CountChar(text, '!') as real;
    CriticalFeaturesBounds(capsRatio, exclamationCount, w);
    capsRatio * w.capsRatioWeight + exclamationCount * w.exclamationWeight
  }

  lemma CriticalFeaturesBounds(capsRatio: real, exclamationCount: real, w: PatternWeights)
    requires 0.0 <= capsRatio <= 1.0 && exclamationCount >= 0.0
    ensures NonNegativeWeights(w) ==>
      0.0 <= capsRatio * w.capsRatioWeight + exclamationCount * w.exclamationWeight
          <= w.capsRatioWeight + exclamationCount * w.exclamationWeight
    ensures capsRatio == 0.0 && exclamationCount == 0.0 ==>
      capsRatio * w.capsRatioWeight + exclamationCount * w.exclamationWeight == 0.0
  {
    if NonNegativeWeights(w) {
      MulBounded(capsRatio, w.capsRatioWeight);
      assert exclamationCount * w.exclamationWeight >= 0.0;
    }
  }

  lemma MulBounded(x: real, y: real)
    requires 0.0 <= x <= 1.0 && y >= 0.0
    ensures 0.0 <= x * y <= y
  {
    assert (1.0 - x) * y >= 0.0;
  }

  /** The literal core rules of each urgency level. */
  function CorePatterns(level: Level): seq<string> {
    match level
    case Critical =>
      [@"\b(production|live|server|database|api).*\b(down|crashed?|dead|failed?)\b",
       @"\b(emergency|critical).*\b(alert|issue|problem)\b",
       @"\b(revenue|money|sales).*\b(impact|loss|losing|lost)\b",
       @"\b(customers?|clients?).*\b(cannot|can\'t|unable).*\b(access|login|pay|order)\b"]
    case High =>
      [@"\b(urgent|asap|immediately|soon)\b",
       @"\b(problem|issue|error|bug).*\b(major|significant|important)\b",
       @"\b(not working|broken|malfunctioning|failing)\b",
       @"\b(customers?|clients?).*\b(complaining|reporting|angry)\b",
       @"\b(payment|billing).*\b(issue|problem|error|wrong)\b"]
    case Medium =>
      [@"\b(question|inquiry|request|ask)\b",
       @"\b(help|support|assistance|guidance)\b",
       @"\b(meeting|schedule|call|discuss)\b",
       @"\b(demo|trial|evaluation|proposal)\b",
       @"\b(improve|enhance|optimize|update)\b"]
    case Low =>
      [@"\b(thank|thanks|appreciate|grateful)\b",
       @"\b(info|information|fyi|notification|update)\b",
       @"\b(newsletter|announcement|welcome)\b",
       @"\b(feedback|suggestion|recommendation)\b"]
  }

  /** The literal secondary rules of each urgency level. */
  function SecondaryPatterns(level: Level): seq<string> {
    match level
    case Critical =>
      [@"\$\d+.*\b(loss|impact|hour)\b",
       @"\b(all|entire|complete|whole).*\b(down|broken|failed?|stopped?)\b",
       @"\b(security|breach|hack|attack)\b"]
    case High =>
      [@"\b(affecting|impacting|blocking).*\b(business|operations|workflow)\b",
       @"\b(multiple|many|several).*\b(customers?|users?|clients?)\b"]
    case Medium =>
      [@"\b(next week|next month|future|planning)\b",
       @"\b(opportunity|deal|potential)\b",
       @"\b(feature|enhancement|improvement)\b"]
    case Low =>
      [@"\b(great|excellent|wonderful|amazing|love|happy)\b",
       @"\b(congratulations|success|achievement)\b",
       @"\b(no rush|whenever|future reference)\b"]
  }

  function Threshold(u: UrgencyThresholds, level: Level): real {
    match level
    case Critical => u.criticalThreshold
    case High => u.highThreshold
    case Medium => u.mediumThreshold
    case Low => u.lowThreshold
  }

  function MaxConfidence(u: UrgencyThresholds, level: Level): real {
    match level
    case Critical => u.criticalMaxConfidence
    case High => u.highMaxConfidence
    case Medium => u.mediumMaxConfidence
    case Low => u.lowMaxConfidence
  }

  /** The booster multipliers of the department table. */
  function BoostOf(dept: Department): real {
    match dept
    case Technical => 1.2
    case Billing => 1.3
    case Sales => 1.2
    case Support => 1.1
  }

  /** The technical context word "IT" is upper-case, so it never occurs in the
      lower-cased text the department classifier searches. */
  lemma ContextWordITNeverFires(s: string)
    ensures "IT" in BuildDepartmentPatterns()[Technical].contextWords
    ensures !Contains(Lower(s), "IT")
  {
    assert DepartmentTable(Technical).contextWords[3] == "IT";
    UpperNeverInLower(s, "IT", 0);
  }
}
