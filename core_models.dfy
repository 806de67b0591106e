/**
 * Model health bookkeeping (core/models.py): which of the three pipelines are
 * loaded and working, how often each has failed, and the guarded call that
 * truncates the text before handing it to a pipeline.
 *
 * A pipeline is a function value. A call that raises is a call returning None;
 * building a pipeline is an oracle too: the loader receives the built pipeline,
 * or None when `pipeline(...)` raised.
 */
module CoreModels {
  import opened Wrappers
  import opened Text
  import opened ConfigModels

  datatype ModelName = Sentiment | Emotion | Bert

  const AllModels: set<ModelName> := {Sentiment, Emotion, Bert}

  /** One entry of a `return_all_scores=True` classification output. */
  datatype LabelScore = LabelScore(labelName: string, score: real)

  /** What a zero-shot classifier returns: candidate labels ranked with their scores. */
  datatype ZeroShotOutput = ZeroShotOutput(labels: seq<string>, scores: seq<real>)

  /** A sentiment or emotion pipeline: one list of label scores per input. */
  type LabelPipeline = string -> Option<seq<seq<LabelScore>>>
  /** A zero-shot pipeline: text and candidate labels. */
  type ZeroShotPipeline = (string, seq<string>) -> Option<ZeroShotOutput>

  const SentimentProbe: string := "test message"
  const EmotionProbe: string := "test message"
  const BertProbe: string := "test"
  const BertProbeLabels: seq<string> := ["positive", "negative"]

  /** What `safe_model_call` returns: None for an absent model, otherwise the model's
      answer on the truncated text. */
  function CallResult<R>(model: Option<string -> Option<R>>, text: string, maxTextLength: int): (r: Option<R>)
    ensures model.None? ==> r.None?
    ensures model.Some? ==> r == model.value(PyPrefix(text, maxTextLength))
    ensures model.Some? ==> exists n :: 0 <= n <= |text| && r == model.value(text[..n])
  {
    match model
    case None => None
    case Some(m) =>
      var safeText := PyPrefix(text, maxTextLength);
      assert safeText == text[..|safeText|];
      m(safeText)
  }

  /** A guarded call fails: the model is present and does not answer on the truncated
      text. */
  predicate CallFails<R>(model: Option<string -> Option<R>>, text: string, maxTextLength: int) {
    model.Some? && CallResult(model, text, maxTextLength).None?
  }

  /** The failure counters after one guarded call: one more against `name` exactly when
      the call fails, every other counter unchanged. */
  function CountedFailure<R>(failures: map<ModelName, nat>, name: ModelName, model: Option<string -> Option<R>>,
                             text: string, maxTextLength: int): (f: map<ModelName, nat>)
    requires name in failures
    ensures f.Keys == failures.Keys
    ensures f[name] == failures[name] + (if CallFails(model, text, maxTextLength) then 1 else 0)
    ensures forall m :: m in failures && m != name ==> f[m] == failures[m]
  {
    if CallFails(model, text, maxTextLength) then failures[name := failures[name] + 1] else failures
  }

  datatype ModelHealth = ModelHealth(
    workingModels: map<ModelName, bool>,
    modelFailures: map<ModelName, nat>,
    modelsLoaded: nat)

  /** `sum(flags.values())` over the three models in declaration order. */
  function CountWorking(flags: map<ModelName, bool>): (n: nat)
    requires AllModels <= flags.Keys
    ensures n <= 3
    ensures n == 0 <==> !flags[Sentiment] && !flags[Emotion] && !flags[Bert]
    ensures n == 3 <==> flags[Sentiment] && flags[Emotion] && flags[Bert]
    ensures n == |WorkingSet(flags)|
  {
    WorkingSetSize(flags);
    (if flags[Sentiment] then 1 else 0) + (if flags[Emotion] then 1 else 0)
    + (if flags[Bert] then 1 else 0)
  }

  lemma WorkingSetSize(flags: map<ModelName, bool>)
    requires AllModels <= flags.Keys
    ensures |WorkingSet(flags)| == (if flags[Sentiment] then 1 else 0) + (if flags[Emotion] then 1 else 0)
                                   + (if flags[Bert] then 1 else 0)
  {
    var w := WorkingSet(flags);
    var s := if flags[Sentiment] then {Sentiment} else {};
    var e := if flags[Emotion] then {Emotion} else {};
    var b := if flags[Bert] then {Bert} else {};
    forall m ensures m in w <==> m in s + e + b {
      match m
      case Sentiment =>
      case Emotion =>
      case Bert =>
    }
    assert w == s + e + b;
    assert s !! e && (s + e) !! b;
    assert |s + e| == |s| + |e|;
  }

  /** The models whose flag is set. */
  function WorkingSet(flags: map<ModelName, bool>): set<ModelName>
    requires AllModels <= flags.Keys
  {
    set m | m in AllModels && flags[m]
  }

  class ModelManager {
    const config: ClassifierConfig
    var sentimentModel: Option<LabelPipeline>
    var emotionModel: Option<LabelPipeline>
    var bertClassifier: Option<ZeroShotPipeline>
    var workingModels: map<ModelName, bool>
    var modelFailures: map<ModelName, nat>

    /** Both dictionaries always hold an entry for each of the three models. */
    predicate Valid()
      reads this
    {
      workingModels.Keys == AllModels && modelFailures.Keys == AllModels
    }

    /** `__init__`: no model, every flag false, every counter 0. */
    constructor (config: ClassifierConfig)
      ensures Valid()
      ensures this.config == config
      ensures sentimentModel == None && emotionModel == None && bertClassifier == None
      ensures forall m :: m in AllModels ==> !workingModels[m] && modelFailures[m] == 0
    {
      this.config := config;
      sentimentModel := None;
      emotionModel := None;
      bertClassifier := None;
      workingModels := map[Sentiment := false, Emotion := false, Bert := false];
      modelFailures := map[Sentiment := 0, Emotion := 0, Bert := 0];
    }

    /** `load_models`: the sentiment model is required; when it fails nothing else is
        attempted. Each optional model is attempted only when the configuration enables it. */
    method LoadModels(sentiment: Option<LabelPipeline>, emotion: Option<LabelPipeline>, bert: Option<ZeroShotPipeline>)
      returns (ok: bool)
      requires Valid()
      modifies this
      ensures Valid()
      ensures ok <==> sentiment.Some? && sentiment.value(SentimentProbe).Some?
      ensures workingModels[Sentiment] == ok
      ensures sentimentModel == if sentiment.Some? then sentiment else old(sentimentModel)
      ensures modelFailures == old(modelFailures)
      ensures !ok || !config.processing.enableEmotionModel ==>
        emotionModel == old(emotionModel) && workingModels[Emotion] == old(workingModels[Emotion])
      ensures !ok || !config.processing.enableBertModel ==>
        bertClassifier == old(bertClassifier) && workingModels[Bert] == old(workingModels[Bert])
      ensures ok && config.processing.enableEmotionModel ==>
        workingModels[Emotion] == (emotion.Some? && emotion.value(EmotionProbe).Some?)
        && emotionModel == (if workingModels[Emotion] then emotion else None)
      ensures ok && config.processing.enableBertModel ==>
        workingModels[Bert] == (bert.Some? && bert.value(BertProbe, BertProbeLabels).Some?)
        && bertClassifier == (if workingModels[Bert] then bert else None)
    {
      ok := LoadSentimentModel(sentiment);
      if !ok {
        return;
      }
      if config.processing.enableEmotionModel {
        LoadEmotionModel(emotion);
      }
      if config.processing.enableBertModel {
        LoadBertModel(bert);
      }
    }

    /** `_load_sentiment_model`: a pipeline that builds stays assigned even when its
        probe call fails; only the flag records the failure. */
    method LoadSentimentModel(build: Option<LabelPipeline>) returns (ok: bool)
      requires Valid()
      modifies this`sentimentModel, this`workingModels
      ensures Valid()
      ensures ok <==> build.Some? && build.value(SentimentProbe).Some?
      ensures sentimentModel == if build.Some? then build else old(sentimentModel)
      ensures workingModels == old(workingModels)[Sentiment := ok]
    {
      match build {
        case None =>
          workingModels := workingModels[Sentiment := false];
          ok := false;
        case Some(model) =>
          sentimentModel := Some(model);
          var probe := model(SentimentProbe);
          ok := probe.Some?;
          workingModels := workingModels[Sentiment := ok];
      }
    }

    /** `_load_emotion_model`: any failure clears the model. */
    method LoadEmotionModel(build: Option<LabelPipeline>)
      requires Valid()
      modifies this`emotionModel, this`workingModels
      ensures Valid()
      ensures var works := build.Some? && build.value(EmotionProbe).Some?;
        && workingModels == old(workingModels)[Emotion := works]
        && emotionModel == if works then build else None
    {
      if build.Some? && build.value(EmotionProbe).Some? {
        emotionModel := build;
        workingModels := workingModels[Emotion := true];
      } else {
        emotionModel := None;
        workingModels := workingModels[Emotion := false];
      }
    }

    /** `_load_bert_model`: any failure clears the model. */
    method LoadBertModel(build: Option<ZeroShotPipeline>)
      requires Valid()
      modifies this`bertClassifier, this`workingModels
      ensures Valid()
      ensures var works := build.Some? && build.value(BertProbe, BertProbeLabels).Some?;
        && workingModels == old(workingModels)[Bert := works]
        && bertClassifier == if works then build else None
    {
      if build.Some? && build.value(BertProbe, BertProbeLabels).Some? {
        bertClassifier := build;
        workingModels := workingModels[Bert := true];
      } else {
        bertClassifier := None;
        workingModels := workingModels[Bert := false];
      }
    }

    /** `safe_model_call`: an absent model gives None and touches no counter; otherwise
        the model sees `text[:max_text_length]`, and a failing call counts one failure
        against `name` only. */
    method SafeModelCall<R>(name: ModelName, model: Option<string -> Option<R>>, text: string)
      returns (r: Option<R>)
      requires Valid()
      modifies this`modelFailures
      ensures Valid()
      ensures r == CallResult(model, text, config.models.maxTextLength)
      ensures modelFailures == if model.Some? && r.None? then old(modelFailures)[name := old(modelFailures)[name] + 1]
                               else old(modelFailures)
      ensures modelFailures == CountedFailure(old(modelFailures), name, model, text, config.models.maxTextLength)
      ensures forall m :: m in AllModels ==> modelFailures[m] >= old(modelFailures)[m]
    {
      if model.None? {
        return None;
      }
      var safeText := PyPrefix(text, config.models.maxTextLength);
      r := model.value(safeText);
      if r.None? {
        modelFailures := modelFailures[name := modelFailures[name] + 1];
      }
    }

    /** `get_model_health`: copies of both dictionaries and the number of working models. */
    function GetModelHealth(): (h: ModelHealth)
      requires Valid()
      reads this
      ensures h.workingModels == workingModels && h.modelFailures == modelFailures
      ensures h.modelsLoaded <= 3
      ensures h.modelsLoaded == 0 <==> forall m :: m in AllModels ==> !workingModels[m]
      ensures h.modelsLoaded == 3 <==> forall m :: m in AllModels ==> workingModels[m]
      ensures h.modelsLoaded == |WorkingSet(workingModels)|
    {
      ModelHealth(workingModels, modelFailures, CountWorking(workingModels))
    }
  }
}
