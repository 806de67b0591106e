/**
 * The four groups of tunables (config/models.py), their defaults, loading
 * from an already-parsed YAML document with fallback to the defaults,
 * the dictionary shape written by `save_to_file`, and the "production"
 * sample variant.
 */
module ConfigModels {
  import opened Wrappers

  datatype ModelConfig = ModelConfig(
    sentimentModel: string,
    emotionModel: string,
    bertModel: string,
    useGpu: bool,
    maxTextLength: int,
    modelTimeout: real)

  datatype UrgencyThresholds = UrgencyThresholds(
    criticalThreshold: real,
    highThreshold: real,
    mediumThreshold: real,
    lowThreshold: real,
    criticalMaxConfidence: real,
    highMaxConfidence: real,
    mediumMaxConfidence: real,
    lowMaxConfidence: real)

  datatype ProcessingConfig = ProcessingConfig(
    maxEmailLength: int,
    maxSubjectLength: int,
    batchSize: int,
    logLevel: string,
    enableEmotionModel: bool,
    enableBertModel: bool)

  datatype PatternWeights = PatternWeights(
    corePatternWeight: real,
    secondaryPatternWeight: real,
    capsRatioWeight: real,
    exclamationWeight: real,
    positiveWordsWeight: real,
    departmentSignalWeight: real)

  datatype ClassifierConfig = ClassifierConfig(
    models: ModelConfig,
    urgency: UrgencyThresholds,
    processing: ProcessingConfig,
    weights: PatternWeights,
    version: string)

  const DefaultVersion: string := "2.0"

  const DefaultModels: ModelConfig := ModelConfig(
    "cardiffnlp/twitter-roberta-base-sentiment-latest",
    "j-hartmann/emotion-english-distilroberta-base",
    "facebook/bart-large-mnli",
    true, 512, 30.0)

  const DefaultUrgency: UrgencyThresholds :=
    UrgencyThresholds(4.0, 2.0, 1.0, 0.5, 0.95, 0.90, 0.85, 0.80)

  const DefaultProcessing: ProcessingConfig :=
    ProcessingConfig(5000, 200, 32, "INFO", true, true)

  const DefaultWeights: PatternWeights :=
    PatternWeights(2.0, 1.5, 3.0, 0.8, 1.5, 3.0)

  /** `ClassifierConfig.default()`: thresholds strictly decrease from critical to low,
      and so do the confidence ceilings, which all lie in (0, 1]. */
  function Default(): (c: ClassifierConfig)
    ensures c.urgency.criticalThreshold > c.urgency.highThreshold
              > c.urgency.mediumThreshold > c.urgency.lowThreshold > 0.0
    ensures 1.0 >= c.urgency.criticalMaxConfidence > c.urgency.highMaxConfidence
              > c.urgency.mediumMaxConfidence > c.urgency.lowMaxConfidence > 0.0
    ensures c.urgency.criticalThreshold == 4.0 && c.urgency.highThreshold == 2.0
    ensures c.urgency.mediumThreshold == 1.0 && c.urgency.lowThreshold == 0.5
    ensures c.urgency.criticalMaxConfidence == 0.95 && c.urgency.highMaxConfidence == 0.90
    ensures c.urgency.mediumMaxConfidence == 0.85 && c.urgency.lowMaxConfidence == 0.80
    ensures c.weights.corePatternWeight == 2.0 && c.weights.secondaryPatternWeight == 1.5
    ensures c.weights.capsRatioWeight == 3.0 && c.weights.exclamationWeight == 0.8
    ensures c.weights.positiveWordsWeight == 1.5 && c.weights.departmentSignalWeight == 3.0
    ensures c.version == "2.0"
  {
    ClassifierConfig(DefaultModels, DefaultUrgency, DefaultProcessing, DefaultWeights, DefaultVersion)
  }

  // ---------------------------------------------------------------------------
  // Parsed YAML documents and loading

  /** A value produced by `yaml.safe_load`. */
  datatype Yaml =
    | YNull
    | YBool(b: bool)
    | YInt(i: int)
    | YFloat(f: real)
    | YStr(s: string)
    | YList(items: seq<Yaml>)
    | YMap(entries: map<string, Yaml>)

  /** What reading a configuration path gives: the file is absent, cannot be read or
      parsed, or parses to a document. */
  datatype ConfigSource = NotFound | Unreadable | Parsed(doc: Yaml)

  function AsReal(v: Yaml): Option<real> {
    match v
    case YFloat(f) => Some(f)
    case YInt(i) => Some(i as real)
    case _ => None
  }

  function AsInt(v: Yaml): Option<int> {
    match v
    case YInt(i) => Some(i)
    case _ => None
  }

  function AsBool(v: Yaml): Option<bool> {
    match v
    case YBool(b) => Some(b)
    case _ => None
  }

  function AsStr(v: Yaml): Option<string> {
    match v
    case YStr(s) => Some(s)
    case _ => None
  }

  /** A keyword argument of a dataclass constructor: the default when absent. */
  function RealField(g: map<string, Yaml>, key: string, default: real): Option<real> {
    if key in g then AsReal(g[key]) else Some(default)
  }

  function IntField(g: map<string, Yaml>, key: string, default: int): Option<int> {
    if key in g then AsInt(g[key]) else Some(default)
  }

  function BoolField(g: map<string, Yaml>, key: string, default: bool): Option<bool> {
    if key in g then AsBool(g[key]) else Some(default)
  }

  function StrField(g: map<string, Yaml>, key: string, default: string): Option<string> {
    if key in g then AsStr(g[key]) else Some(default)
  }

  const ModelKeys: set<string> :=
    {"sentiment_model", "emotion_model", "bert_model", "use_gpu", "max_text_length", "model_timeout"}
  const UrgencyKeys: set<string> :=
    {"critical_threshold", "high_threshold", "medium_threshold", "low_threshold",
     "critical_max_confidence", "high_max_confidence", "medium_max_confidence", "low_max_confidence"}
  const ProcessingKeys: set<string> :=
    {"max_email_length", "max_subject_length", "batch_size", "log_level",
     "enable_emotion_model", "enable_bert_model"}
  const WeightKeys: set<string> :=
    {"core_pattern_weight", "secondary_pattern_weight", "caps_ratio_weight",
     "exclamation_weight", "positive_words_weight", "department_signal_weight"}

  /** `ModelConfig(**g)`: an unknown keyword is a TypeError (None). */
  function DecodeModels(g: map<string, Yaml>): Option<ModelConfig> {
    if !(g.Keys <= ModelKeys) then None
    else
      var sentiment :- StrField(g, "sentiment_model", DefaultModels.sentimentModel);
      var emotion :- StrField(g, "emotion_model", DefaultModels.emotionModel);
      var bert :- StrField(g, "bert_model", DefaultModels.bertModel);
      var gpu :- BoolField(g, "use_gpu", DefaultModels.useGpu);
      var maxLen :- IntField(g, "max_text_length", DefaultModels.maxTextLength);
      var timeout :- RealField(g, "model_timeout", DefaultModels.modelTimeout);
      Some(ModelConfig(sentiment, emotion, bert, gpu, maxLen, timeout))
  }

  function DecodeUrgency(g: map<string, Yaml>): Option<UrgencyThresholds> {
    if !(g.Keys <= UrgencyKeys) then None
    else
      var ct :- RealField(g, "critical_threshold", DefaultUrgency.criticalThreshold);
      var ht :- RealField(g, "high_threshold", DefaultUrgency.highThreshold);
      var mt :- RealField(g, "medium_threshold", DefaultUrgency.mediumThreshold);
      var lt :- RealField(g, "low_threshold", DefaultUrgency.lowThreshold);
      var cc :- RealField(g, "critical_max_confidence", DefaultUrgency.criticalMaxConfidence);
      var hc :- RealField(g, "high_max_confidence", DefaultUrgency.highMaxConfidence);
      var mc :- RealField(g, "medium_max_confidence", DefaultUrgency.mediumMaxConfidence);
      var lc :- RealField(g, "low_max_confidence", DefaultUrgency.lowMaxConfidence);
      Some(UrgencyThresholds(ct, ht, mt, lt, cc, hc, mc, lc))
  }

  function DecodeProcessing(g: map<string, Yaml>): Option<ProcessingConfig> {
    if !(g.Keys <= ProcessingKeys) then None
    else
      var maxEmail :- IntField(g, "max_email_length", DefaultProcessing.maxEmailLength);
      var maxSubject :- IntField(g, "max_subject_length", DefaultProcessing.maxSubjectLength);
      var batch :- IntField(g, "batch_size", DefaultProcessing.batchSize);
      var level :- StrField(g, "log_level", DefaultProcessing.logLevel);
      var emotion :- BoolField(g, "enable_emotion_model", DefaultProcessing.enableEmotionModel);
      var bert :- BoolField(g, "enable_bert_model", DefaultProcessing.enableBertModel);
      Some(ProcessingConfig(maxEmail, maxSubject, batch, level, emotion, bert))
  }

  function DecodeWeights(g: map<string, Yaml>): Option<PatternWeights> {
    if !(g.Keys <= WeightKeys) then None
    else
      var core :- RealField(g, "core_pattern_weight", DefaultWeights.corePatternWeight);
      var secondary :- RealField(g, "secondary_pattern_weight", DefaultWeights.secondaryPatternWeight);
      var caps :- RealField(g, "caps_ratio_weight", DefaultWeights.capsRatioWeight);
      var excl :- RealField(g, "exclamation_weight", DefaultWeights.exclamationWeight);
      var positive :- RealField(g, "positive_words_weight", DefaultWeights.positiveWordsWeight);
      var dept :- RealField(g, "department_signal_weight", DefaultWeights.departmentSignalWeight);
      Some(PatternWeights(core, secondary, caps, excl, positive, dept))
  }

  /** `config_data.get(name, {})`, which must be a mapping for `**` to accept it. */
  function Group(doc: map<string, Yaml>, name: string): Option<map<string, Yaml>> {
    if name !in doc then Some(map[])
    else match doc[name]
      case YMap(g) => Some(g)
      case _ => None
  }

  /** The body of the `try` in `from_file`, on a parsed document; None is any exception. */
  function Decode(doc: Yaml): Option<ClassifierConfig> {
    match doc
    case YMap(d) =>
      var mg :- Group(d, "models");
      var m :- DecodeModels(mg);
      var ug :- Group(d, "urgency");
      var u :- DecodeUrgency(ug);
      var pg :- Group(d, "processing");
      var p :- DecodeProcessing(pg);
      var wg :- Group(d, "weights");
      var w :- DecodeWeights(wg);
      var v :- StrField(d, "version", DefaultVersion);
      Some(ClassifierConfig(m, u, p, w, v))
    case _ => None
  }

  /** `ClassifierConfig.from_file`: every failure falls back to `default()`. */
  function FromSource(src: ConfigSource): (c: ClassifierConfig)
    ensures src.NotFound? || src.Unreadable? ==> c == Default()
    ensures src.Parsed? && Decode(src.doc).None? ==> c == Default()
    ensures src.Parsed? && Decode(src.doc).Some? ==> c == Decode(src.doc).value
  {
    match src
    case Parsed(doc) => Decode(doc).GetOr(Default())
    case _ => Default()
  }

  /** A document that omits a group gets that group's defaults, and one that omits
      `version` gets "2.0"; every group it gives is taken as decoded. */
  lemma MissingGroupsDefault(d: map<string, Yaml>)
    requires Decode(YMap(d)).Some?
    ensures var c := FromSource(Parsed(YMap(d)));
      && ("models" !in d ==> c.models == DefaultModels)
      && ("urgency" !in d ==> c.urgency == DefaultUrgency)
      && ("processing" !in d ==> c.processing == DefaultProcessing)
      && ("weights" !in d ==> c.weights == DefaultWeights)
      && ("version" !in d ==> c.version == "2.0")
  {
  }

  /** A group with a key that is not a field of its dataclass makes the whole load
      fall back to `default()`. */
  lemma UnknownFieldGivesDefault(d: map<string, Yaml>, name: string, key: string)
    requires name in d && d[name].YMap?
    requires || (name == "models" && key !in ModelKeys)
             || (name == "urgency" && key !in UrgencyKeys)
             || (name == "processing" && key !in ProcessingKeys)
             || (name == "weights" && key !in WeightKeys)
    requires key in d[name].entries
    ensures FromSource(Parsed(YMap(d))) == Default()
  {
  }

  /** A document that is not a mapping (empty file, list, scalar) loads as `default()`. */
  lemma NonMapGivesDefault(doc: Yaml)
    requires !doc.YMap?
    ensures FromSource(Parsed(doc)) == Default()
  {
  }

  // ---------------------------------------------------------------------------
  // save_to_file

  function EncodeModels(m: ModelConfig): map<string, Yaml> {
    map["sentiment_model" := YStr(m.sentimentModel), "emotion_model" := YStr(m.emotionModel),
        "bert_model" := YStr(m.bertModel), "use_gpu" := YBool(m.useGpu),
        "max_text_length" := YInt(m.maxTextLength), "model_timeout" := YFloat(m.modelTimeout)]
  }

  function EncodeUrgency(u: UrgencyThresholds): map<string, Yaml> {
    map["critical_threshold" := YFloat(u.criticalThreshold), "high_threshold" := YFloat(u.highThreshold),
        "medium_threshold" := YFloat(u.mediumThreshold), "low_threshold" := YFloat(u.lowThreshold),
        "critical_max_confidence" := YFloat(u.criticalMaxConfidence),
        "high_max_confidence" := YFloat(u.highMaxConfidence),
        "medium_max_confidence" := YFloat(u.mediumMaxConfidence),
        "low_max_confidence" := YFloat(u.lowMaxConfidence)]
  }

  function EncodeProcessing(p: ProcessingConfig): map<string, Yaml> {
    map["max_email_length" := YInt(p.maxEmailLength), "max_subject_length" := YInt(p.maxSubjectLength),
        "batch_size" := YInt(p.batchSize), "log_level" := YStr(p.logLevel),
        "enable_emotion_model" := YBool(p.enableEmotionModel),
        "enable_bert_model" := YBool(p.enableBertModel)]
  }

  function EncodeWeights(w: PatternWeights): map<string, Yaml> {
    map["core_pattern_weight" := YFloat(w.corePatternWeight),
        "secondary_pattern_weight" := YFloat(w.secondaryPatternWeight),
        "caps_ratio_weight" := YFloat(w.capsRatioWeight),
        "exclamation_weight" := YFloat(w.exclamationWeight),
        "positive_words_weight" := YFloat(w.positiveWordsWeight),
        "department_signal_weight" := YFloat(w.departmentSignalWeight)]
  }

  /** The dictionary `save_to_file` dumps: the four groups and the version. */
  function Save(c: ClassifierConfig): Yaml {
    YMap(map["models" := YMap(EncodeModels(c.models)), "urgency" := YMap(EncodeUrgency(c.urgency)),
             "processing" := YMap(EncodeProcessing(c.processing)),
             "weights" := YMap(EncodeWeights(c.weights)), "version" := YStr(c.version)])
  }

  lemma ModelsRoundTrip(m: ModelConfig)
    ensures DecodeModels(EncodeModels(m)) == Some(m)
  {
    assert EncodeModels(m).Keys == ModelKeys;
  }

  lemma UrgencyRoundTrip(u: UrgencyThresholds)
    ensures DecodeUrgency(EncodeUrgency(u)) == Some(u)
  {
    assert EncodeUrgency(u).Keys == UrgencyKeys;
  }

  lemma ProcessingRoundTrip(p: ProcessingConfig)
    ensures DecodeProcessing(EncodeProcessing(p)) == Some(p)
  {
    assert EncodeProcessing(p).Keys == ProcessingKeys;
  }

  lemma WeightsRoundTrip(w: PatternWeights)
    ensures DecodeWeights(EncodeWeights(w)) == Some(w)
  {
    assert EncodeWeights(w).Keys == WeightKeys;
  }

  /** Saving a configuration and loading the saved document gives it back. */
  lemma SaveLoadRoundTrip(c: ClassifierConfig)
    ensures FromSource(Parsed(Save(c))) == c
  {
    var d := Save(c).entries;
    assert Group(d, "models") == Some(EncodeModels(c.models));
    assert Group(d, "urgency") == Some(EncodeUrgency(c.urgency));
    assert Group(d, "processing") == Some(EncodeProcessing(c.processing));
    assert Group(d, "weights") == Some(EncodeWeights(c.weights));
    assert StrField(d, "version", DefaultVersion) == Some(c.version);
    ModelsRoundTrip(c.models);
    UrgencyRoundTrip(c.urgency);
    ProcessingRoundTrip(c.processing);
    WeightsRoundTrip(c.weights);
  }

  // ---------------------------------------------------------------------------
  // create_sample_config

  /** The configuration written as `classifier_production.yaml`. */
  function ProductionConfig(): ClassifierConfig {
    var c := Default();
    c.(urgency := c.urgency.(criticalThreshold := 3.5, highThreshold := 1.8),
       processing := c.processing.(logLevel := "WARNING"),
       version := "2.0-production")
  }

  /** `create_sample_config`: saves the default, edits four fields of the same object
      in place and saves again. The first document loads back as the default; the second
      loads as a configuration that differs from the default in exactly those four fields. */
  method CreateSampleConfig() returns (standard: Yaml, production: Yaml)
    ensures FromSource(Parsed(standard)) == Default()
    ensures var p, d := FromSource(Parsed(production)), Default();
      && p.urgency.criticalThreshold == 3.5 && p.urgency.highThreshold == 1.8
      && p.processing.logLevel == "WARNING" && p.version == "2.0-production"
      && p.models == d.models && p.weights == d.weights
      && p.urgency.(criticalThreshold := d.urgency.criticalThreshold,
                    highThreshold := d.urgency.highThreshold) == d.urgency
      && p.processing.(logLevel := d.processing.logLevel) == d.processing
  {
    var config := Default();
    standard := Save(config);
    config := config.(urgency := config.urgency.(criticalThreshold := 3.5));
    config := config.(urgency := config.urgency.(highThreshold := 1.8));
    config := config.(processing := config.processing.(logLevel := "WARNING"));
    config := config.(version := "2.0-production");
    production := Save(config);
    SaveLoadRoundTrip(Default());
    SaveLoadRoundTrip(config);
  }
}
