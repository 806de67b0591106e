/**
 * The orchestrator (email_classifier.py): one classifier object owning the
 * configuration, the pattern registry, the model manager, the validator and the two
 * decision classifiers, plus a processed counter and the list of processing times.
 *
 * `classify_email` validates a copy of the record, asks both classifiers, applies the
 * cross-validation rule and averages the two confidences; when the input is not a
 * dictionary it returns the universal fallback record instead. Wall-clock time enters
 * as the elapsed-time argument, and reading a configuration file as a function from
 * paths to `ConfigSource`.
 */
module EmailClassification {
  import opened Wrappers
  import opened Text
  import opened ConfigModels
  import opened Patterns
  import opened Validators
  import opened CoreModels
  import Urgency
  import Departments

  const Version: string := "modular_v3.0"

  /** What `classify_email` is handed: a dictionary of string fields, or anything else,
      on which `email_data.copy()` or the validator raises with the message `reason`. */
  datatype EmailInput = Record(fields: map<string, string>) | NotARecord(reason: string)

  /** The dictionary `classify_email` returns. `modelHealth` is None and `error` is set
      on the fallback record. */
  datatype ClassificationResult = ClassificationResult(
    urgency: Level,
    urgencyConfidence: real,
    department: Department,
    departmentConfidence: real,
    overallConfidence: real,
    processingTime: real,
    modelHealth: Option<ModelHealth>,
    error: Option<string>,
    configVersion: string,
    version: string)

  /** The model manager's pipelines as the classifiers call them, with its own limit on
      the text length (the model manager keeps the configuration it was built with). */
  datatype Oracles = Oracles(emotion: Option<LabelPipeline>, bert: Option<ZeroShotPipeline>, maxTextLength: int)

  function EmotionAnswer(c: ClassifierConfig, o: Oracles, text: string): Option<seq<seq<LabelScore>>> {
    if c.processing.enableEmotionModel then CallResult(o.emotion, text, o.maxTextLength) else None
  }

  function BertAnswer(c: ClassifierConfig, o: Oracles, text: string): Option<ZeroShotOutput> {
    if c.processing.enableBertModel then CallResult(Departments.WithCandidates(o.bert), text, o.maxTextLength)
    else None
  }

  const CriticalKeywords: seq<string> := ["down", "crashed", "dead", "failed"]

  /** The cross-validation rule fires: a technical email of high urgency whose body
      mentions one of the crash words, in any letter case. */
  predicate Promotes(u: Decision<Level>, dept: Department, content: string) {
    dept == Technical && u.category == High && AnyContained(Lower(content), CriticalKeywords)
  }

  function Min(a: real, b: real): real { if b < a then b else a }

  /** The cross-validation rule: promote to critical with ten more points of
      confidence, capped at 0.95; otherwise leave the urgency alone. */
  function CrossValidate(u: Decision<Level>, dept: Department, content: string): (r: Decision<Level>)
    ensures Promotes(u, dept, content) ==> r.category == Critical && r.confidence == Min(0.95, u.confidence + 0.1)
    ensures !Promotes(u, dept, content) ==> r == u
  {
    if dept == Technical && (u.category == High || u.category == Critical) then
      if u.category == High && AnyContained(Lower(content), CriticalKeywords) then
        Decision(Critical, Min(0.95, u.confidence + 0.1))
      else u
    else u
  }

  /** Cross-validation never lowers the urgency and applies at most once. */
  lemma CrossValidateIdempotent(u: Decision<Level>, dept: Department, content: string)
    ensures var r := CrossValidate(u, dept, content);
      && LevelRank(r.category) <= LevelRank(u.category)
      && CrossValidate(r, dept, content) == r
  {
  }

  /** The crash words are matched as substrings, so "download" triggers the rule. */
  lemma DownloadPromotes(c: real)
    ensures CrossValidate(Decision(High, c), Technical, "Please fix the download page").category == Critical
  {
    var t := Lower("Please fix the download page");
    assert OccursAt(t, "down", 15);
    ContainsIffOccurs(t, "down");
    assert Contains(t, CriticalKeywords[0]);
  }

  /** A promoted confidence stays in [0.6, 0.95] when it started in [0.6, 1]. */
  lemma PromotedConfidenceInRange(u: Decision<Level>, dept: Department, content: string)
    requires 0.6 <= u.confidence <= 1.0
    ensures 0.6 <= CrossValidate(u, dept, content).confidence <= 1.0
  {
  }

  /** The universal fallback record. */
  function FailureResult(configVersion: string, elapsed: real, reason: string): (r: ClassificationResult)
    ensures r.urgency == Medium && r.department == Support
    ensures r.urgencyConfidence == 0.5 && r.departmentConfidence == 0.5 && r.overallConfidence == 0.5
    ensures r.error == Some(reason) && r.modelHealth.None?
    ensures r.configVersion == configVersion && r.version == Version
  {
    ClassificationResult(Medium, 0.5, Support, 0.5, 0.5, elapsed, None, Some(reason), configVersion, Version)
  }

  /** The sender of a validated record, empty when absent. */
  function SenderOf(v: map<string, string>): string {
    if SenderKey in v then v[SenderKey] else ""
  }

  /** The two decisions for a dictionary input, before cross-validation. */
  function Decisions(c: ClassifierConfig, pm: PatternManager, o: Oracles, fields: map<string, string>)
    : (Decision<Level>, Decision<Department>)
    requires pm.Valid()
  {
    var v := Validated(c.processing, fields);
    var subject, content := v[SubjectKey], v[BodyKey];
    (Urgency.UrgencyOf(pm, c, subject, content, EmotionAnswer(c, o, content)),
     Departments.DepartmentOf(pm, c, subject, content, SenderOf(v), BertAnswer(c, o, content)))
  }

  /** The record `classify_email` assembles from the two decisions: the urgency is
      cross-validated against the department, and the overall confidence is the mean
      of the two confidences. */
  function Assembled(c: ClassifierConfig, u: Decision<Level>, d: Decision<Department>, content: string,
                     elapsed: real, health: ModelHealth): (r: ClassificationResult)
    ensures r.department == d.category && r.departmentConfidence == d.confidence
    ensures r.urgency == CrossValidate(u, d.category, content).category
    ensures r.overallConfidence == (r.urgencyConfidence + r.departmentConfidence) / 2.0
    ensures r.urgencyConfidence == CrossValidate(u, d.category, content).confidence
    ensures r.overallConfidence == (CrossValidate(u, d.category, content).confidence + d.confidence) / 2.0
    ensures r.modelHealth == Some(health) && r.error.None? && r.processingTime == elapsed
    ensures r.configVersion == c.version && r.version == Version
  {
    var urgency := CrossValidate(u, d.category, content);
    ClassificationResult(urgency.category, urgency.confidence, d.category, d.confidence,
                         (urgency.confidence + d.confidence) / 2.0, elapsed, Some(health), None, c.version, Version)
  }

  /** What `classify_email` returns for an input, given the elapsed time and the model
      health at the end of the call. */
  function EmailOutcome(c: ClassifierConfig, pm: PatternManager, o: Oracles, input: EmailInput,
                        elapsed: real, health: ModelHealth): (r: ClassificationResult)
    requires pm.Valid()
  {
    match input
    case NotARecord(reason) => FailureResult(c.version, elapsed, reason)
    case Record(fields) =>
      var ud := Decisions(c, pm, o, fields);
      Assembled(c, ud.0, ud.1, Validated(c.processing, fields)[BodyKey], elapsed, health)
  }

  /** The failure counters after `classify_email` on a dictionary: the urgency
      classifier may count one emotion failure, then the department classifier one
      zero-shot failure; the sentiment counter never moves. */
  function RecordFailures(c: ClassifierConfig, pm: PatternManager, o: Oracles, fields: map<string, string>,
                          failures: map<ModelName, nat>): (f: map<ModelName, nat>)
    requires pm.Valid() && AllModels <= failures.Keys
    ensures f.Keys == failures.Keys && f[Sentiment] == failures[Sentiment]
    ensures failures[Emotion] <= f[Emotion] <= failures[Emotion] + 1
    ensures failures[Bert] <= f[Bert] <= failures[Bert] + 1
  {
    var v := Validated(c.processing, fields);
    Departments.DepartmentFailures(c, o.bert, o.maxTextLength, v[BodyKey],
      Urgency.UrgencyFailures(pm, c, o.emotion, o.maxTextLength, v[SubjectKey], v[BodyKey], failures))
  }

  /** The failure counters after `classify_email` on any input: an input that is not a
      dictionary reaches no model. */
  function FailuresAfter(c: ClassifierConfig, pm: PatternManager, o: Oracles, input: EmailInput,
                         failures: map<ModelName, nat>): (f: map<ModelName, nat>)
    requires pm.Valid() && AllModels <= failures.Keys
    ensures f.Keys == failures.Keys
  {
    match input
    case NotARecord(_) => failures
    case Record(fields) => RecordFailures(c, pm, o, fields, failures)
  }

  /** The failure counters after classifying `inputs` one after the other. */
  function BatchFailures(c: ClassifierConfig, pm: PatternManager, o: Oracles, inputs: seq<EmailInput>,
                         failures: map<ModelName, nat>): (f: map<ModelName, nat>)
    requires pm.Valid() && AllModels <= failures.Keys
    ensures f.Keys == failures.Keys
  {
    if inputs == [] then failures
    else
      var n := |inputs| - 1;
      FailuresAfter(c, pm, o, inputs[n], BatchFailures(c, pm, o, inputs[..n], failures))
  }

  /** A batch never touches the sentiment counter, and each dictionary in it adds at
      most one failure to the emotion and to the zero-shot counter. */
  lemma {:induction false} BatchFailuresBounds(c: ClassifierConfig, pm: PatternManager, o: Oracles,
                                               inputs: seq<EmailInput>, failures: map<ModelName, nat>)
    requires pm.Valid() && AllModels <= failures.Keys
    ensures var f := BatchFailures(c, pm, o, inputs, failures);
      && f[Sentiment] == failures[Sentiment]
      && failures[Emotion] <= f[Emotion] <= failures[Emotion] + CountRecords(inputs)
      && failures[Bert] <= f[Bert] <= failures[Bert] + CountRecords(inputs)
    decreases |inputs|
  {
    if inputs != [] {
      BatchFailuresBounds(c, pm, o, inputs[..|inputs| - 1], failures);
    }
  }

  lemma BatchFailuresStep(c: ClassifierConfig, pm: PatternManager, o: Oracles, inputs: seq<EmailInput>,
                          failures: map<ModelName, nat>, i: nat)
    requires pm.Valid() && AllModels <= failures.Keys && i < |inputs|
    ensures BatchFailures(c, pm, o, inputs[..i + 1], failures)
         == FailuresAfter(c, pm, o, inputs[i], BatchFailures(c, pm, o, inputs[..i], failures))
  {
    assert inputs[..i + 1][..i] == inputs[..i];
  }

  /** The model health reported with the given working flags and failure counters. */
  function HealthWith(workingModels: map<ModelName, bool>, failures: map<ModelName, nat>): ModelHealth
    requires AllModels <= workingModels.Keys
  {
    ModelHealth(workingModels, failures, CountWorking(workingModels))
  }

  /** The model healths a batch reports, one per input: each carries the failure
      counters as they stand once that input is classified. */
  function BatchHealths(c: ClassifierConfig, pm: PatternManager, o: Oracles, workingModels: map<ModelName, bool>,
                        inputs: seq<EmailInput>, failures: map<ModelName, nat>): (hs: seq<ModelHealth>)
    requires pm.Valid() && AllModels <= failures.Keys && AllModels <= workingModels.Keys
    ensures |hs| == |inputs|
  {
    if inputs == [] then []
    else
      BatchHealths(c, pm, o, workingModels, inputs[..|inputs| - 1], failures)
      + [HealthWith(workingModels, BatchFailures(c, pm, o, inputs, failures))]
  }

  /** The k-th health of a batch is the one reported after its first k + 1 inputs. */
  lemma {:induction false} BatchHealthsAt(c: ClassifierConfig, pm: PatternManager, o: Oracles,
                                          workingModels: map<ModelName, bool>, inputs: seq<EmailInput>,
                                          failures: map<ModelName, nat>, k: nat)
    requires pm.Valid() && AllModels <= failures.Keys && AllModels <= workingModels.Keys && k < |inputs|
    ensures BatchHealths(c, pm, o, workingModels, inputs, failures)[k]
         == HealthWith(workingModels, BatchFailures(c, pm, o, inputs[..k + 1], failures))
    decreases |inputs|
  {
    var n := |inputs| - 1;
    if k == n {
      assert inputs[..k + 1] == inputs;
    } else {
      BatchHealthsAt(c, pm, o, workingModels, inputs[..n], failures, k);
      assert inputs[..n][..k + 1] == inputs[..k + 1];
    }
  }

  lemma BatchHealthsStep(c: ClassifierConfig, pm: PatternManager, o: Oracles, workingModels: map<ModelName, bool>,
                         inputs: seq<EmailInput>, failures: map<ModelName, nat>, i: nat)
    requires pm.Valid() && AllModels <= failures.Keys && AllModels <= workingModels.Keys && i < |inputs|
    ensures BatchHealths(c, pm, o, workingModels, inputs[..i + 1], failures)
         == BatchHealths(c, pm, o, workingModels, inputs[..i], failures)
            + [HealthWith(workingModels, BatchFailures(c, pm, o, inputs[..i + 1], failures))]
  {
    assert inputs[..i + 1][..i] == inputs[..i];
  }

  /** `[f(x, t, h) for x, t, h in zip(xs, ts, hs)]` */
  function MapZip<A, B, C, R>(f: (A, B, C) --> R, xs: seq<A>, ts: seq<B>, hs: seq<C>): (rs: seq<R>)
    requires |ts| == |xs| == |hs| && forall k :: 0 <= k < |xs| ==> f.requires(xs[k], ts[k], hs[k])
    ensures |rs| == |xs|
  {
    if xs == [] then []
    else
      var n := |xs| - 1;
      MapZip(f, xs[..n], ts[..n], hs[..n]) + [f(xs[n], ts[n], hs[n])]
  }

  /** The k-th result is `f` of the k-th inputs. */
  lemma {:induction false} MapZipAt<A, B, C, R>(f: (A, B, C) --> R, xs: seq<A>, ts: seq<B>, hs: seq<C>, k: nat)
    requires |ts| == |xs| == |hs| && forall j :: 0 <= j < |xs| ==> f.requires(xs[j], ts[j], hs[j])
    requires k < |xs|
    ensures MapZip(f, xs, ts, hs)[k] == f(xs[k], ts[k], hs[k])
    decreases |xs|
  {
    var n := |xs| - 1;
    if k < n {
      MapZipAt(f, xs[..n], ts[..n], hs[..n], k);
    }
  }

  /** `classify_email`'s results for a sequence of inputs, given the health each reports. */
  function Outcomes(c: ClassifierConfig, pm: PatternManager, o: Oracles, inputs: seq<EmailInput>,
                    times: seq<real>, healths: seq<ModelHealth>): (rs: seq<ClassificationResult>)
    requires pm.Valid() && |times| == |inputs| == |healths|
    ensures |rs| == |inputs|
  {
    if inputs == [] then []
    else
      var n := |inputs| - 1;
      Outcomes(c, pm, o, inputs[..n], times[..n], healths[..n]) + [EmailOutcome(c, pm, o, inputs[n], times[n], healths[n])]
  }

  /** Classifying one more email extends the results by its outcome. */
  lemma OutcomesStep(c: ClassifierConfig, pm: PatternManager, o: Oracles, inputs: seq<EmailInput>,
                     times: seq<real>, healths: seq<ModelHealth>, h: ModelHealth, i: nat)
    requires pm.Valid() && |times| == |inputs| && i < |inputs| && |healths| == i
    ensures Outcomes(c, pm, o, inputs[..i + 1], times[..i + 1], healths + [h])
         == Outcomes(c, pm, o, inputs[..i], times[..i], healths) + [EmailOutcome(c, pm, o, inputs[i], times[i], h)]
  {
    assert inputs[..i + 1][..i] == inputs[..i];
    assert times[..i + 1][..i] == times[..i];
    assert (healths + [h])[..i] == healths;
  }

  /** `Outcomes` is `MapZip` of `EmailOutcome`. */
  lemma {:induction false} OutcomesAreMapZip(c: ClassifierConfig, pm: PatternManager, o: Oracles, inputs: seq<EmailInput>,
                                             times: seq<real>, healths: seq<ModelHealth>)
    requires pm.Valid() && |times| == |inputs| == |healths|
    ensures Outcomes(c, pm, o, inputs, times, healths)
         == MapZip((x, t, h) requires pm.Valid() => EmailOutcome(c, pm, o, x, t, h), inputs, times, healths)
    decreases |inputs|
  {
    if inputs != [] {
      var n := |inputs| - 1;
      OutcomesAreMapZip(c, pm, o, inputs[..n], times[..n], healths[..n]);
    }
  }

  /** The k-th result of a batch is the k-th email's outcome. */
  lemma OutcomeAt(c: ClassifierConfig, pm: PatternManager, o: Oracles, inputs: seq<EmailInput>,
                  times: seq<real>, healths: seq<ModelHealth>, k: nat)
    requires pm.Valid() && |times| == |inputs| == |healths| && k < |inputs|
    ensures Outcomes(c, pm, o, inputs, times, healths)[k] == EmailOutcome(c, pm, o, inputs[k], times[k], healths[k])
  {
    OutcomesAreMapZip(c, pm, o, inputs, times, healths);
    MapZipAt((x, t, h) requires pm.Valid() => EmailOutcome(c, pm, o, x, t, h), inputs, times, healths, k);
  }

  /** The batch outcomes, read position by position. */
  lemma EveryOutcome(c: ClassifierConfig, pm: PatternManager, o: Oracles, inputs: seq<EmailInput>,
                     times: seq<real>, healths: seq<ModelHealth>)
    requires pm.Valid() && |times| == |inputs| == |healths|
    ensures forall k :: 0 <= k < |inputs| ==>
      Outcomes(c, pm, o, inputs, times, healths)[k] == EmailOutcome(c, pm, o, inputs[k], times[k], healths[k])
  {
    forall k | 0 <= k < |inputs|
      ensures Outcomes(c, pm, o, inputs, times, healths)[k] == EmailOutcome(c, pm, o, inputs[k], times[k], healths[k])
    {
      OutcomeAt(c, pm, o, inputs, times, healths, k);
    }
  }

  /** With positive thresholds and urgency ceilings in [0.6, 1], every confidence of a
      successful classification lies in [0.6, 1]. */
  lemma OutcomeConfidenceInRange(c: ClassifierConfig, pm: PatternManager, o: Oracles, fields: map<string, string>,
                                 elapsed: real, health: ModelHealth)
    requires pm.Valid()
    requires Urgency.PositiveThresholds(pm.urgencyPatterns) && Urgency.CeilingsWithin(pm.urgencyPatterns, 0.6, 1.0)
    ensures var r := EmailOutcome(c, pm, o, Record(fields), elapsed, health);
      && 0.6 <= r.urgencyConfidence <= 1.0
      && 0.6 <= r.departmentConfidence <= 0.95
      && 0.6 <= r.overallConfidence <= 1.0
  {
    var v := Validated(c.processing, fields);
    var subject, content := v[SubjectKey], v[BodyKey];
    var u := Urgency.UrgencyOf(pm, c, subject, content, EmotionAnswer(c, o, content));
    Urgency.UrgencyConfidenceInRange(pm, c, subject, content, EmotionAnswer(c, o, content));
    var d := Departments.DepartmentOf(pm, c, subject, content, SenderOf(v), BertAnswer(c, o, content));
    PromotedConfidenceInRange(u, d.category, content);
  }

  /** The number of dictionary inputs. */
  function CountRecords(inputs: seq<EmailInput>): (n: nat)
    ensures n <= |inputs|
  {
    if inputs == [] then 0
    else CountRecords(inputs[..|inputs| - 1]) + (if inputs[|inputs| - 1].Record? then 1 else 0)
  }

  /** The elapsed times of the dictionary inputs, in input order. */
  function RecordTimes(inputs: seq<EmailInput>, times: seq<real>): (r: seq<real>)
    requires |times| == |inputs|
    ensures |r| == CountRecords(inputs)
  {
    if inputs == [] then []
    else
      RecordTimes(inputs[..|inputs| - 1], times[..|times| - 1])
      + (if inputs[|inputs| - 1].Record? then [times[|times| - 1]] else [])
  }

  lemma CountAndTimesStep(inputs: seq<EmailInput>, times: seq<real>, i: nat)
    requires |times| == |inputs| && i < |inputs|
    ensures inputs[i].Record? ==>
      && CountRecords(inputs[..i + 1]) == CountRecords(inputs[..i]) + 1
      && RecordTimes(inputs[..i + 1], times[..i + 1]) == RecordTimes(inputs[..i], times[..i]) + [times[i]]
    ensures inputs[i].NotARecord? ==>
      && CountRecords(inputs[..i + 1]) == CountRecords(inputs[..i])
      && RecordTimes(inputs[..i + 1], times[..i + 1]) == RecordTimes(inputs[..i], times[..i])
  {
    assert inputs[..i + 1][..i] == inputs[..i];
    assert times[..i + 1][..i] == times[..i];
  }

  function Sum(xs: seq<real>): real {
    if xs == [] then 0.0 else Sum(xs[..|xs| - 1]) + xs[|xs| - 1]
  }

  /** `sum(times) / max(len(times), 1)` */
  function Mean(xs: seq<real>): (m: real)
    ensures xs == [] ==> m == 0.0
  {
    Sum(xs) / (if |xs| >= 1 then |xs| else 1) as real
  }

  lemma {:induction false} SumBounds(xs: seq<real>, lo: real, hi: real)
    requires forall i :: 0 <= i < |xs| ==> lo <= xs[i] <= hi
    ensures |xs| as real * lo <= Sum(xs) <= |xs| as real * hi
    decreases |xs|
  {
    if xs != [] {
      SumBounds(xs[..|xs| - 1], lo, hi);
      assert |xs| as real * lo == (|xs| - 1) as real * lo + lo;
      assert |xs| as real * hi == (|xs| - 1) as real * hi + hi;
    }
  }

  /** The average processing time lies between the smallest and largest bound of the
      recorded times. */
  lemma MeanWithinBounds(xs: seq<real>, lo: real, hi: real)
    requires xs != [] && forall i :: 0 <= i < |xs| ==> lo <= xs[i] <= hi
    ensures lo <= Mean(xs) <= hi
  {
    SumBounds(xs, lo, hi);
    var n := |xs| as real;
    assert n == (if |xs| >= 1 then |xs| else 1) as real;
    var m := Sum(xs) / n;
    assert m * n == Sum(xs);
    DivideBounds(Sum(xs), n, lo, hi);
  }

  lemma DivideBounds(s: real, n: real, lo: real, hi: real)
    requires n >= 1.0 && n * lo <= s <= n * hi
    ensures lo <= s / n <= hi
  {
    var m := s / n;
    assert m * n == s;
  }

  /** What `get_performance_stats` returns. */
  datatype PerformanceStats = PerformanceStats(
    totalProcessed: nat,
    averageProcessingTime: real,
    modelHealth: ModelHealth,
    configVersion: string)

  /** The names for which `setLevel(getattr(logging, name))` succeeds in Python 3.12's
      `logging` module: `getattr` finds any module attribute and `setLevel` takes any
      `int`, so besides the level constants the module's boolean switches qualify too
      (`bool` is a subclass of `int`). Every other attribute is a string that names no
      level, or is not a number at all. */
  const LogLevels: set<string> := {"CRITICAL", "FATAL", "ERROR", "WARNING", "WARN", "INFO", "DEBUG", "NOTSET",
                                   "raiseExceptions", "logThreads", "logMultiprocessing", "logProcesses",
                                   "logAsyncioTasks"}

  /** `_load_config`: the given path, or else the discovered one; an empty or missing
      path means the defaults. */
  function LoadedConfig(configPath: Option<string>, discovered: Option<string>, read: string -> ConfigSource)
    : (c: ClassifierConfig)
    ensures configPath.None? && discovered.None? ==> c == Default()
    ensures configPath.Some? && configPath.value != "" ==> c == FromSource(read(configPath.value))
    ensures configPath == Some("") ==> c == Default()
    ensures configPath.None? && discovered.Some? ==>
      c == if discovered.value != "" then FromSource(read(discovered.value)) else Default()
  {
    var path := if configPath.None? then discovered else configPath;
    if path.Some? && path.value != "" then FromSource(read(path.value)) else Default()
  }

  class EmailClassifier {
    var config: ClassifierConfig
    const configPath: Option<string>
    const regex: Matcher
    var patternManager: PatternManager
    var modelManager: ModelManager
    var inputValidator: InputValidator
    var urgencyClassifier: Urgency.UrgencyClassifier
    var departmentClassifier: Departments.DepartmentClassifier
    var processed: nat
    var processingTimes: seq<real>

    /** Every component is built from the current configuration and shares the one
        pattern registry and model manager (whose own invariant is `modelManager.Valid()`). */
    ghost predicate Valid()
      reads this`config, this`patternManager, this`modelManager, this`inputValidator,
            this`urgencyClassifier, this`departmentClassifier
    {
      && patternManager.Valid() && patternManager.config == config && patternManager.regex == regex
      && inputValidator.config == config
      && urgencyClassifier.config == config && urgencyClassifier.patterns == patternManager
      && urgencyClassifier.models == modelManager
      && departmentClassifier.config == config && departmentClassifier.patterns == patternManager
      && departmentClassifier.models == modelManager
    }

    /** The pipelines the classifiers call now. */
    function CurrentOracles(): Oracles
      reads this`modelManager, modelManager`emotionModel, modelManager`bertClassifier
    {
      Oracles(modelManager.emotionModel, modelManager.bertClassifier, modelManager.config.models.maxTextLength)
    }

    /** `__init__` after the configuration was loaded and the log level set. */
    constructor (configPath: Option<string>, config: ClassifierConfig, regex: Matcher)
      ensures Valid() && modelManager.Valid() && fresh(modelManager) && patternManager == NewPatternManager(config, regex)
      ensures this.config == config && this.configPath == configPath && this.regex == regex
      ensures processed == 0 && processingTimes == []
    {
      this.config := config;
      this.configPath := configPath;
      this.regex := regex;
      var pm := NewPatternManager(config, regex);
      var mm := new ModelManager(config);
      patternManager := pm;
      modelManager := mm;
      inputValidator := new InputValidator(config);
      urgencyClassifier := new Urgency.UrgencyClassifier(config, pm, mm);
      departmentClassifier := new Departments.DepartmentClassifier(config, pm, mm);
      processed := 0;
      processingTimes := [];
    }

    /** `reload_config`: without a path nothing changes and the answer is False.
        Otherwise the configuration, the registry, the validator and both classifiers are
        replaced, the model manager is kept, and the answer says whether the new log
        level was accepted, which is checked only after the swap. */
    method ReloadConfig(read: string -> ConfigSource) returns (ok: bool)
      requires Valid()
      modifies this
      ensures Valid()
      ensures modelManager == old(modelManager)
      ensures processed == old(processed) && processingTimes == old(processingTimes)
      ensures configPath.None? || configPath.value == "" ==>
        !ok && config == old(config) && patternManager == old(patternManager)
        && inputValidator == old(inputValidator) && urgencyClassifier == old(urgencyClassifier)
        && departmentClassifier == old(departmentClassifier)
      ensures configPath.Some? && configPath.value != "" ==>
        && config == FromSource(read(configPath.value)) && patternManager == NewPatternManager(config, regex)
        && fresh(inputValidator) && fresh(urgencyClassifier) && fresh(departmentClassifier)
        && ok == (config.processing.logLevel in LogLevels)
    {
      if configPath.None? || configPath.value == "" {
        return false;
      }
      var newConfig := FromSource(read(configPath.value));
      config := newConfig;
      patternManager := NewPatternManager(newConfig, regex);
      inputValidator := new InputValidator(newConfig);
      urgencyClassifier := new Urgency.UrgencyClassifier(newConfig, patternManager, modelManager);
      departmentClassifier := new Departments.DepartmentClassifier(newConfig, patternManager, modelManager);
      ok := newConfig.processing.logLevel in LogLevels;
    }

    /** The body of `classify_email` for a dictionary: validate a copy, then ask the
        urgency and the department classifier. */
    method Decide(fields: map<string, string>) returns (u: Decision<Level>, d: Decision<Department>, content: string)
      requires Valid() && modelManager.Valid()
      modifies modelManager`modelFailures
      ensures modelManager.Valid()
      ensures (u, d) == Decisions(config, patternManager, old(CurrentOracles()), fields)
      ensures modelManager.modelFailures
              == RecordFailures(config, patternManager, old(CurrentOracles()), fields, old(modelManager.modelFailures))
      ensures content == Validated(config.processing, fields)[BodyKey]
    {
      ghost var oracles := CurrentOracles();
      var data := new EmailData(fields);
      inputValidator.ValidateEmailData(data);
      ghost var v := Validated(config.processing, fields);
      assert data.fields == v;
      var subject := data.fields[SubjectKey];
      content := data.fields[BodyKey];
      var sender := if SenderKey in data.fields then data.fields[SenderKey] else "";
      assert sender == SenderOf(v);
      ghost var emotion, bert := EmotionAnswer(config, oracles, content), BertAnswer(config, oracles, content);
      assert urgencyClassifier.EmotionAnswer(content) == emotion;
      assert departmentClassifier.BertAnswer(content) == bert;
      u := urgencyClassifier.Classify(content, subject);
      d := departmentClassifier.Classify(content, subject, sender);
    }

    /** `classify_email` for a dictionary input, given the pipelines at the start of the call. */
    method ClassifyRecord(input: EmailInput, elapsed: real, ghost oracles: Oracles) returns (r: ClassificationResult)
      requires Valid() && modelManager.Valid() && input.Record? && oracles == CurrentOracles()
      modifies modelManager`modelFailures
      ensures modelManager.Valid()
      ensures r == EmailOutcome(config, patternManager, oracles, input, elapsed, modelManager.GetModelHealth())
      ensures modelManager.modelFailures
              == RecordFailures(config, patternManager, oracles, input.fields, old(modelManager.modelFailures))
    {
      var first, department, content := Decide(input.fields);
      r := Assembled(config, first, department, content, elapsed, modelManager.GetModelHealth());
    }

    /** `classify_email`. */
    method ClassifyEmail(input: EmailInput, elapsed: real) returns (r: ClassificationResult)
      requires Valid() && modelManager.Valid()
      modifies this`processed, this`processingTimes, modelManager`modelFailures
      ensures modelManager.Valid()
      ensures r == EmailOutcome(config, patternManager, old(CurrentOracles()), input, elapsed, modelManager.GetModelHealth())
      ensures modelManager.modelFailures
              == FailuresAfter(config, patternManager, old(CurrentOracles()), input, old(modelManager.modelFailures))
      ensures input.Record? ==> processed == old(processed) + 1 && processingTimes == old(processingTimes) + [elapsed]
      ensures input.NotARecord? ==>
        processed == old(processed) && processingTimes == old(processingTimes)
        && modelManager.modelFailures == old(modelManager.modelFailures)
    {
      if input.NotARecord? {
        return FailureResult(config.version, elapsed, input.reason);
      }
      ghost var oracles := CurrentOracles();
      // As in `classify_email`, both decisions and the cross-validation come first, then
      // the counters, then the record; neither the decisions nor the record read the counters.
      r := ClassifyRecord(input, elapsed, oracles);
      processed := processed + 1;
      processingTimes := processingTimes + [elapsed];
    }

    /** One pass of `classify_batch`'s loop: classify the i-th input and append its
        result; `processed` and `processingTimes` grow from the given bases as the whole
        prefix up to and including the i-th input says. */
    method ClassifyNext(inputs: seq<EmailInput>, times: seq<real>, i: nat, results: seq<ClassificationResult>,
                        ghost healths: seq<ModelHealth>, ghost o: Oracles, ghost count: nat, ghost elapsed: seq<real>)
      returns (results': seq<ClassificationResult>, ghost healths': seq<ModelHealth>)
      requires Valid() && modelManager.Valid() && |times| == |inputs| && i < |inputs| && |healths| == i
      requires o == CurrentOracles()
      requires results == Outcomes(config, patternManager, o, inputs[..i], times[..i], healths)
      requires processed == count + CountRecords(inputs[..i])
      requires processingTimes == elapsed + RecordTimes(inputs[..i], times[..i])
      modifies this`processed, this`processingTimes, modelManager`modelFailures
      ensures modelManager.Valid() && |healths'| == i + 1
      ensures results' == Outcomes(config, patternManager, o, inputs[..i + 1], times[..i + 1], healths')
      ensures modelManager.modelFailures == FailuresAfter(config, patternManager, o, inputs[i], old(modelManager.modelFailures))
      ensures healths' == healths + [HealthWith(modelManager.workingModels, modelManager.modelFailures)]
      ensures processed == count + CountRecords(inputs[..i + 1])
      ensures processingTimes == elapsed + RecordTimes(inputs[..i + 1], times[..i + 1])
    {
      var result := ClassifyEmail(inputs[i], times[i]);
      ghost var health := modelManager.GetModelHealth();
      CountAndTimesStep(inputs, times, i);
      if inputs[i].Record? {
        assert (elapsed + RecordTimes(inputs[..i], times[..i])) + [times[i]]
            == elapsed + (RecordTimes(inputs[..i], times[..i]) + [times[i]]);
      }
      OutcomesStep(config, patternManager, o, inputs, times, healths, health, i);
      results' := results + [result];
      healths' := healths + [health];
    }

    /** `classify_batch`: one result per input, in input order; `healths` names the
        model health each record reports. */
    method ClassifyBatch(inputs: seq<EmailInput>, times: seq<real>)
      returns (results: seq<ClassificationResult>, ghost healths: seq<ModelHealth>)
      requires Valid() && modelManager.Valid() && |times| == |inputs|
      modifies this`processed, this`processingTimes, modelManager`modelFailures
      ensures modelManager.Valid()
      ensures |results| == |inputs| == |healths|
      ensures forall k :: 0 <= k < |inputs| ==>
        results[k] == EmailOutcome(config, patternManager, old(CurrentOracles()), inputs[k], times[k], healths[k])
      ensures processed == old(processed) + CountRecords(inputs)
      ensures processingTimes == old(processingTimes) + RecordTimes(inputs, times)
      ensures modelManager.modelFailures
              == BatchFailures(config, patternManager, old(CurrentOracles()), inputs, old(modelManager.modelFailures))
      ensures healths == BatchHealths(config, patternManager, old(CurrentOracles()), modelManager.workingModels, inputs,
                                      old(modelManager.modelFailures))
    {
      ghost var o := CurrentOracles();
      results, healths := [], [];
      for i := 0 to |inputs|
        invariant modelManager.Valid()
        invariant |results| == i == |healths|
        invariant results == Outcomes(config, patternManager, o, inputs[..i], times[..i], healths)
        invariant processed == old(processed) + CountRecords(inputs[..i])
        invariant processingTimes == old(processingTimes) + RecordTimes(inputs[..i], times[..i])
        invariant modelManager.modelFailures == BatchFailures(config, patternManager, o, inputs[..i], old(modelManager.modelFailures))
        invariant healths == BatchHealths(config, patternManager, o, modelManager.workingModels, inputs[..i],
                                          old(modelManager.modelFailures))
      {
        BatchFailuresStep(config, patternManager, o, inputs, old(modelManager.modelFailures), i);
        BatchHealthsStep(config, patternManager, o, modelManager.workingModels, inputs, old(modelManager.modelFailures), i);
        results, healths := ClassifyNext(inputs, times, i, results, healths, o, old(processed), old(processingTimes));
      }
      assert inputs[..|inputs|] == inputs && times[..|times|] == times;
      EveryOutcome(config, patternManager, o, inputs, times, healths);
    }

    /** `get_performance_stats`. */
    function GetPerformanceStats(): (s: PerformanceStats)
      requires modelManager.Valid()
      reads this, modelManager
      ensures s.totalProcessed == processed && s.configVersion == config.version
      ensures s.modelHealth == modelManager.GetModelHealth()
      ensures s.averageProcessingTime == Mean(processingTimes)
    {
      PerformanceStats(processed, Mean(processingTimes), modelManager.GetModelHealth(), config.version)
    }
  }

  /** `EmailClassifier(config_path)`: None when the configured log level makes
      `_load_config` raise. */
  method NewEmailClassifier(configPath: Option<string>, discovered: Option<string>,
                            read: string -> ConfigSource, regex: Matcher)
    returns (r: Option<EmailClassifier>)
    ensures var c := LoadedConfig(configPath, discovered, read);
      r.Some? <==> c.processing.logLevel in LogLevels
    ensures r.Some? ==>
      && fresh(r.value) && r.value.Valid() && r.value.modelManager.Valid() && r.value.processed == 0
      && r.value.config == LoadedConfig(configPath, discovered, read) && r.value.configPath == configPath
  {
    var config := LoadedConfig(configPath, discovered, read);
    if config.processing.logLevel !in LogLevels {
      return None;
    }
    var c := new EmailClassifier(configPath, config, regex);
    r := Some(c);
  }
}
