# AI email classification — a Dafny model

This project models the decision engine of the AI email classification service. The engine classifies an email by **urgency** (critical, high, medium, low) and by **target department** (technical, billing, sales, support). The model covers:

- **Configuration.** The four groups of tunables (models, urgency thresholds, processing limits, pattern weights) and their defaults. Loading a parsed YAML document, where every failure falls back to the defaults. The document shape written on save. The production sample variant.
- **Pattern registry.** The fixed rule tables for the four levels and the four departments, the weighted match-count score and the structural text features (share of capitals, `!` count, positive words).
- **Input normaliser.** Defaulted subject and body, truncation to the configured lengths, and the lower-cased matching text.
- **Urgency decision.** Clamped per-level scores and the optional emotion rescaling. The first level in priority order that reaches its threshold wins; otherwise the argmax fallback applies. A keyword fallback runs when a step raises.
- **Department decision.** Pattern scores multiplied by a booster once per context word present, and an optional +2 from a confident zero-shot answer. The winner is the first maximal department, with a confidence read off the gap between the two best scores. A keyword fallback runs on error.
- **Orchestrator.** Validation, both decisions, the cross-validation rule (technical + high + a crash word gives critical), the averaged overall confidence, the universal failure record, the batch loop, the processing statistics and configuration reload.
- **Model manager.** The working flags and failure counters of the three pipelines, the loaders, and the guarded call that truncates its text.
- **Service layer.** The request check on subject and content, and the sliding-window rate limiter. The static API-key table, the statistics kept by the routes, and the arithmetic of the single and batch routes.
- **Gmail helpers.** Keyword extraction for an answered email, the Gmail search query built from the most frequent keywords of a category, and the grouping of the answers by urgency and by department.

External pieces are oracles, never interpreted:

- The regex engine is a `Matcher` from (pattern, text) to a match count, or None for a malformed pattern.
- Each ML pipeline is a function value returning `Option`, with None meaning the call raised.
- Reading a configuration file is a function from paths to `ConfigSource`.
- The clock and the classifier's answers become parameters.

Every property holds for every oracle. Text case and whitespace are ASCII: `Lower`, `IsSpace` and `IsWordChar` in `text.dfy`. Confidence arithmetic is over `real`.

Modules follow the source files:

| module | file |
|---|---|
| `ConfigModels` | config/models.py |
| `Patterns` | core/patterns.py |
| `Validators` | core/validators.py |
| `CoreModels` | core/models.py |
| `Urgency` | classifiers/urgency_classifier.py |
| `Departments` | classifiers/department_classifier.py |
| `EmailClassification` | email_classifier.py |
| `Api` | api.py |
| `GmailHelpers` | gmail_classifier.py |

`Text` and `Ranking` hold shared helpers:

- Python's `lower`, `strip`, `in`, `s[:n]` and `count`.
- A stable descending sort and the first-maximum `max`.

`Wrappers` holds `Option`.

Objects whose fields the source updates in place are classes: `Validators.EmailData`, `CoreModels.ModelManager`, `EmailClassification.EmailClassifier`, `Api.RateLimiter` and `Api.EmailClassifierApi`. Their methods are proved against functions of the old state. Loops that accumulate become methods with invariants tied to those functions:

- the rule loop of `calculate_pattern_score`;
- the level and department loops of both `classify` methods, and the booster loop;
- the batch loops;
- the keyword collection and counting loops;
- the grouping loop of the report.

Quirks of the code that the model reproduces:

- The context word `IT` of the technical department is upper-case. The department text is lower-cased, so `IT` never matches.
- `reload_config` swaps the configuration and the components before it sets the log level. An unknown log level therefore answers False after the swap.
- `getattr(logging, level)` finds any attribute of the `logging` module, and `setLevel` takes any `int`. The boolean switches such as `raiseExceptions` are `int`s, so those names are accepted as log levels too.
- `total_requests` of the service counts only successful requests, while `errors` counts failures. The error rate can therefore exceed 100 (see Findings).

## Model

| member | source | states |
|---|---|---|
| ConfigModels.Default | config/models.py:14-94 | exactly the documented defaults: thresholds 4.0, 2.0, 1.0, 0.5; ceilings 0.95, 0.90, 0.85, 0.80; weights 2.0, 1.5, 3.0, 0.8, 1.5, 3.0; version "2.0" |
| ConfigModels.FromSource | config/models.py:66-84 | a missing or unreadable file, or a document the constructor rejects, loads as exactly `default()`; otherwise the decoded configuration |
| ConfigModels.MissingGroupsDefault | config/models.py:72-77 | a document that omits a group gets that group's defaults, and one that omits `version` gets "2.0" |
| ConfigModels.UnknownFieldGivesDefault | config/models.py:72-84 | a key that is not a field of its dataclass makes the whole load fall back to `default()` |
| ConfigModels.NonMapGivesDefault | config/models.py:70-84 | a document that is not a mapping loads as `default()` |
| ConfigModels.ModelsRoundTrip | config/models.py:96-104 | decoding the saved `models` group gives the group back |
| ConfigModels.UrgencyRoundTrip | config/models.py:96-104 | decoding the saved `urgency` group gives the group back |
| ConfigModels.ProcessingRoundTrip | config/models.py:96-104 | decoding the saved `processing` group gives the group back |
| ConfigModels.WeightsRoundTrip | config/models.py:96-104 | decoding the saved `weights` group gives the group back |
| ConfigModels.SaveLoadRoundTrip | config/models.py:72-104 | loading the document `save_to_file` writes gives the saved configuration back |
| ConfigModels.CreateSampleConfig | config/models.py:112-127 | the standard file loads as the default; the production file loads as the default with exactly critical threshold 3.5, high threshold 1.8, log level "WARNING" and version "2.0-production" changed |
| Patterns.NewPatternManager | core/patterns.py:8-11 | the registry holds both tables built from the configuration, with an entry for every level and department |
| Patterns.BuildUrgencyPatterns | core/patterns.py:13-77 | exactly the four levels, each with its literal core and secondary rules and the configured threshold and ceiling |
| Patterns.BuildDepartmentPatterns | core/patterns.py:79-122 | exactly the four departments, each with its literal rules, context words and booster 1.2, 1.3, 1.2, 1.1 |
| Patterns.PatternManager.CalculatePatternScore | core/patterns.py:124-133 | the rule loop computes the rule-list score, skipping malformed rules |
| Patterns.PatternScoreIsTotalTimesWeight | core/patterns.py:124-133 | the score is the total match count of the well-formed rules times the weight (0 for no rules) |
| Patterns.PatternScoreAppend | core/patterns.py:126-133 | scores add up over concatenated rule lists |
| Patterns.MalformedRuleSkipped | core/patterns.py:128-132 | a malformed rule contributes nothing and the rules around it are still counted |
| Patterns.PatternScoreNonNegative | core/patterns.py:124-133 | with a non-negative weight the score is non-negative |
| Patterns.CapsRatio | core/patterns.py:140 | the share of capitals lies in [0, 1] and is 0 exactly when the text has no capital (an empty text included) |
| Patterns.CriticalFeatures | core/patterns.py:139-143 | with non-negative weights the critical feature lies between 0 and caps weight + `!` count × exclamation weight; 0 without capitals or `!` |
| Patterns.PatternManager.ExtractTextFeatures | core/patterns.py:135-149 | critical reads the raw text's capitals and `!`; low is positive-word matches of the lower-cased text × weight; high and medium give exactly 0; None only when the positive-word regex raises |
| Patterns.ContextWordITNeverFires | core/patterns.py:89 | the technical context word "IT" never occurs in any lower-cased text |
| Validators.DefaultedSubject | core/validators.py:16-18 | a missing or empty subject becomes "No Subject", any other is kept (a whitespace-only one too) |
| Validators.DefaultedBody | core/validators.py:21-23 | a missing or empty body becomes the defaulted subject, so the body is never empty before truncation |
| Validators.Truncate | core/validators.py:37-46 | the result is a prefix of the value, unchanged within the limit and of exactly the limit's length beyond it |
| Validators.Truncated | core/validators.py:34-48 | body and subject are cut to their limits; no key is added or removed and every other key is untouched |
| Validators.Validated | core/validators.py:13-32 | the validated record has subject and body defaulted then truncated, and every other key (the sender) untouched |
| Validators.ValidatedWithinLimits | core/validators.py:37-46 | after validation both fields are within their limits and are prefixes of their defaulted values |
| Validators.FieldsWithinLimitsUnchanged | core/validators.py:16-46 | a record whose fields are present, non-empty and within their limits comes back unchanged |
| Validators.ValidatedIdempotent | core/validators.py:13-48 | validating a validated record changes nothing |
| Validators.PrepareTextForClassification | core/validators.py:50-52 | the text is `(subject + " " + content + " " + sender).lower().strip()`: no capital, no whitespace at either end, and the lower-cased concatenation less only leading and trailing whitespace |
| Validators.PreparedTextIsNormal | core/validators.py:50-52 | the prepared text is already normal: lower-casing and stripping it again change nothing |
| Validators.InputValidator.ValidateEmailData | core/validators.py:13-32 | the record is overwritten in place with its validated form |
| Validators.InputValidator.TruncateFields | core/validators.py:34-48 | the record is overwritten in place with its truncated form |
| Urgency.ClampedScore | classifiers/urgency_classifier.py:25-45 | a level's score is never negative |
| Urgency.ClampedScoreIsWeightedMatches | classifiers/urgency_classifier.py:25-45 | a level's score is core matches × core weight + secondary matches × secondary weight + feature, or 0 if that is negative |
| Urgency.LevelScore | classifiers/urgency_classifier.py:20-45 | the rules match the lower-cased subject and body, the feature reads the raw body; None exactly when the feature raised |
| Urgency.BaseScores | classifiers/urgency_classifier.py:20-45 | all four levels get a clamped score; None exactly when the positive-word regex raised |
| Urgency.UrgencyClassifier.ComputeScores | classifiers/urgency_classifier.py:21-45 | the scoring loop computes the base scores |
| Urgency.EmotionTable | classifiers/urgency_classifier.py:64 | the table has exactly the labels of the entries, and a later entry for a label wins |
| Urgency.EmotionAdjusted | classifiers/urgency_classifier.py:58-82 | medium is never changed; a missing or empty answer changes nothing |
| Urgency.JoyAdjusted | classifiers/urgency_classifier.py:66-70 | medium and high are not changed by the joy rule |
| Urgency.ArousalAdjusted | classifiers/urgency_classifier.py:72-77 | medium and low are not changed by the anger-or-fear rule |
| Urgency.JoyRule | classifiers/urgency_classifier.py:66-70 | joy above 0.6 scales low by 1 + joy and critical by 1 − joy/2 |
| Urgency.ArousalRule | classifiers/urgency_classifier.py:72-77 | anger or fear above 0.5 scales high by 1.3 and critical by 1.2 |
| Urgency.UrgencyClassifier.ApplyEmotionAnalysis | classifiers/urgency_classifier.py:58-82 | the scores are rescaled by the emotion model's answer on the truncated text; the emotion counter grows by 1 exactly when that call fails, and no other counter changes |
| Urgency.DetermineFinalUrgency | classifiers/urgency_classifier.py:86-87 | all-zero scores give (medium, 0.6) |
| Urgency.PriorityDecides | classifiers/urgency_classifier.py:89-97 | the first level in order critical, high, medium, low whose score reaches its threshold wins with min(ceiling, 0.5 + score/(2·threshold)·0.4), whatever later levels score; None (the fallback) for a zero threshold |
| Urgency.ArgmaxDecision | classifiers/urgency_classifier.py:99-104 | the first maximal level in table order wins with confidence 0.85; None (the fallback) when the maximum is 0 |
| Urgency.ArgmaxWhenNoThresholdMet | classifiers/urgency_classifier.py:89-104 | when no level reaches its threshold the argmax decision is taken |
| Urgency.ThresholdConfidenceBounds | classifiers/urgency_classifier.py:94-97 | a threshold win with a positive threshold has a confidence between min(ceiling, 0.7) and the ceiling |
| Urgency.DecisionConfidenceInRange | classifiers/urgency_classifier.py:84-104 | with positive thresholds and ceilings in [0.6, 1] every decision's confidence is in [0.6, 1] |
| Urgency.UrgencyConfidenceInRange | classifiers/urgency_classifier.py:17-56 | under the same conditions every urgency confidence, fallback included, is in [0.6, 1] |
| Urgency.DefaultConfigInRange | config/models.py:27-34 | the default configuration meets those conditions |
| Urgency.FallbackUrgency | classifiers/urgency_classifier.py:106-115 | an urgent word in the lower-cased body gives (high, 0.7), else a thankful word gives (low, 0.7), else (medium, 0.6); never critical |
| Urgency.FallbackIgnoresCase | classifiers/urgency_classifier.py:108 | the fallback does not depend on letter case |
| Urgency.UrgencyClassifier.Classify | classifiers/urgency_classifier.py:17-56 | `classify` returns the urgency decision, or the fallback when a step raised; the emotion counter grows by 1 exactly when the model is enabled, the scores were computed and the emotion call failed, and no other counter changes |
| Urgency.UrgencyFailures | classifiers/urgency_classifier.py:47-49 | the counters after `classify`: one more emotion failure exactly when the enabled emotion call on computed scores fails, every other counter unchanged |
| Departments.Hits | classifiers/department_classifier.py:32-34 | the number of context words present is at most their number, and 0 exactly when none occurs |
| Departments.BoostedIsPower | classifiers/department_classifier.py:25-36 | the boosted score is the pattern score × booster^(number of context words present) |
| Departments.ApplyBoosters | classifiers/department_classifier.py:32-34 | the booster loop computes that power |
| Departments.NoMatchesScoreZero | classifiers/department_classifier.py:25-36 | a department none of whose rules match scores 0 whatever its context words |
| Departments.PatternScores | classifiers/department_classifier.py:20-36 | every department gets its boosted score |
| Departments.DepartmentClassifier.ComputeScores | classifiers/department_classifier.py:21-36 | the scoring loop computes those scores |
| Departments.MappedDepartment | classifiers/department_classifier.py:59-66 | the three named labels map to technical, billing and sales, anything else to support |
| Departments.WithCandidates | classifiers/department_classifier.py:50-55 | the zero-shot model is asked with the four candidate labels |
| Departments.BertAdjusted | classifiers/department_classifier.py:57-75 | a first score above 0.7 adds exactly 2 to the mapped department and changes no other; otherwise nothing changes |
| Departments.DepartmentClassifier.ApplyBertValidation | classifiers/department_classifier.py:48-75 | the scores are adjusted by the zero-shot answer on the truncated text; the zero-shot counter grows by 1 exactly when that call fails, and no other counter changes |
| Departments.DetermineFinalDepartment | classifiers/department_classifier.py:77-92 | all-zero scores give (support, 0.7); otherwise the first maximal department in table order wins with the separation confidence of the two best scores |
| Departments.SeparationConfidenceBounds | classifiers/department_classifier.py:85-92 | the separation confidence is in [0.6, 0.95], and is 0.6 exactly on a tie of the two best |
| Departments.DepartmentConfidenceInRange | classifiers/department_classifier.py:77-92 | every department confidence is in [0.6, 0.95] |
| Departments.TieGivesMinimumConfidence | classifiers/department_classifier.py:82-88 | two departments sharing the best positive score give confidence 0.6 and the earlier one in table order wins |
| Departments.BertConfirmsLeader | classifiers/department_classifier.py:69-70 | a confident zero-shot answer naming a department with a best score makes it the winner |
| Departments.FallbackDepartment | classifiers/department_classifier.py:94-105 | technical, billing and sales words are checked in that order in the lower-cased body, else support; always confidence 0.7 |
| Departments.FallbackIgnoresCase | classifiers/department_classifier.py:96 | the fallback does not depend on letter case |
| Departments.DepartmentOf | classifiers/department_classifier.py:17-42 | every department decision has a confidence in [0.6, 0.95] |
| Departments.NoSignalGoesToSupport | classifiers/department_classifier.py:20-42 | with no rule matching and no confident zero-shot answer the answer is (support, 0.7) |
| Departments.DepartmentClassifier.Classify | classifiers/department_classifier.py:17-42 | `classify` returns the department decision on the current zero-shot answer; the zero-shot counter grows by 1 exactly when the model is enabled and its call fails, and no other counter changes |
| Departments.DepartmentFailures | classifiers/department_classifier.py:38-40 | the counters after `classify`: one more zero-shot failure exactly when the enabled call fails, every other counter unchanged |
| CoreModels.CallResult | core/models.py:111-120 | an absent model gives None; otherwise the result is the model's answer on exactly `text[:max_text_length]`, a prefix of the text |
| CoreModels.CountedFailure | core/models.py:122-132 | the counters after one guarded call: the named counter grows by 1 exactly when the model is present and fails on the truncated text, all others unchanged |
| CoreModels.CountWorking | core/models.py:139 | the number of working models is the number of true flags: at most 3, 0 exactly when none works, 3 exactly when all do |
| CoreModels.ModelManager.constructor | core/models.py:12-28 | no model, every flag false and every counter 0 |
| CoreModels.ModelManager.LoadModels | core/models.py:30-57 | True exactly when the sentiment model builds and answers its probe; a built sentiment pipeline is assigned whatever its probe answers; then each optional model is attempted only when enabled; counters unchanged |
| CoreModels.ModelManager.LoadSentimentModel | core/models.py:53-72 | the flag records whether the probe succeeded; a built pipeline stays assigned |
| CoreModels.ModelManager.LoadEmotionModel | core/models.py:74-91 | the flag records success and a failure clears the model |
| CoreModels.ModelManager.LoadBertModel | core/models.py:93-109 | the flag records success and a failure clears the model |
| CoreModels.ModelManager.SafeModelCall | core/models.py:111-132 | the answer on the truncated text; an absent model touches no counter; a failing call adds exactly 1 to the named model's counter only; counters never decrease |
| CoreModels.ModelManager.GetModelHealth | core/models.py:134-140 | copies of both dictionaries and the number of models whose flag is true |
| EmailClassification.CrossValidate | email_classifier.py:131-137 | technical + high + a crash word in the lower-cased body gives critical with min(0.95, confidence + 0.1); otherwise the urgency is unchanged |
| EmailClassification.CrossValidateIdempotent | email_classifier.py:131-137 | the rule never makes the urgency less urgent, and applying it again changes nothing |
| EmailClassification.DownloadPromotes | email_classifier.py:135 | crash words match as substrings: "download" triggers the rule |
| EmailClassification.PromotedConfidenceInRange | email_classifier.py:137 | a confidence in [0.6, 1] stays in [0.6, 1] |
| EmailClassification.FailureResult | email_classifier.py:159-171 | the failure record is medium/0.5/support/0.5/0.5 with the error and the current configuration version |
| EmailClassification.Assembled | email_classifier.py:131-157 | the department and its confidence are kept, urgency and urgency confidence are the cross-validated decision, the overall confidence is their mean; the current configuration version, the package version, no error |
| EmailClassification.OutcomeConfidenceInRange | email_classifier.py:119-157 | with positive thresholds and ceilings in [0.6, 1] every confidence of a successful record is in [0.6, 1] |
| EmailClassification.MapZipAt | email_classifier.py:188-191 | the k-th result is the function of the k-th inputs |
| EmailClassification.OutcomesAreMapZip | email_classifier.py:188-191 | batch outcomes are the per-email outcomes in input order |
| EmailClassification.OutcomeAt | email_classifier.py:188-191 | the k-th result of a batch is the k-th email's outcome |
| EmailClassification.MeanWithinBounds | email_classifier.py:220 | the average processing time lies within any bounds of the recorded times |
| EmailClassification.Mean | email_classifier.py:220 | no recorded time gives average 0 |
| EmailClassification.LoadedConfig | email_classifier.py:42-50 | an explicit path wins over the discovered one; a non-empty path is loaded, an empty one or none at all gives the defaults |
| EmailClassification.EmailClassifier.constructor | email_classifier.py:21-39 | every component is built from the configuration and shares one registry and model manager; empty statistics |
| EmailClassification.NewEmailClassifier | email_classifier.py:21-55 | construction fails exactly when `setLevel(getattr(logging, level))` would raise: the level is neither a level constant nor one of the module's boolean switches |
| EmailClassification.EmailClassifier.ReloadConfig | email_classifier.py:78-105 | without a path: False and nothing changes; otherwise configuration, registry, validator and classifiers are replaced, the model manager kept, and the answer is True exactly for a level name `setLevel(getattr(logging, …))` accepts, the boolean switches included |
| EmailClassification.EmailClassifier.Decide | email_classifier.py:119-129 | the two decisions on the validated copy of the record; the failure counters become those of the two classifiers in turn |
| EmailClassification.RecordFailures | email_classifier.py:122-129 | the counters after one dictionary: the urgency then the department classifier's updates; sentiment untouched, emotion and zero-shot each grow by at most 1 |
| EmailClassification.FailuresAfter | email_classifier.py:107-171 | an input that is not a dictionary changes no counter; a dictionary changes them as above |
| EmailClassification.BatchFailuresBounds | email_classifier.py:188-198 | a batch never touches the sentiment counter, and raises the emotion and zero-shot counters by at most one per dictionary |
| EmailClassification.BatchHealthsAt | email_classifier.py:188-198 | the k-th health a batch reports carries the counters as they stand after its first k + 1 inputs |
| EmailClassification.EmailClassifier.ClassifyRecord | email_classifier.py:119-157 | the result record for a dictionary input; the failure counters as the two classifiers leave them |
| EmailClassification.EmailClassifier.ClassifyEmail | email_classifier.py:107-171 | the outcome record; a success adds exactly 1 to `processed` and appends its time, a failure changes neither; the failure counters as the classifiers leave them, unchanged for a non-dictionary |
| EmailClassification.EmailClassifier.ClassifyNext | email_classifier.py:188-198 | one pass of the batch loop extends results and statistics by one input, and the health it records carries the counters after that input |
| EmailClassification.EmailClassifier.ClassifyBatch | email_classifier.py:173-216 | one result per input, in input order, each the outcome of its input; statistics grow by the successes only; the final counters are those after every input in turn, and the reported healths are the batch healths, the k-th one after the first k + 1 inputs |
| EmailClassification.EmailClassifier.GetPerformanceStats | email_classifier.py:218-227 | processed count, mean of the recorded times, model health and configuration version |
| Api.NotEmpty | api.py:42-46 | an empty or whitespace-only value is rejected; otherwise the stripped value, which is non-empty |
| Api.NotEmptyIdempotent | api.py:42-46 | an accepted value passes the check again unchanged |
| Api.Recent | api.py:147-150 | every timestamp kept has now − t below the window, and every such timestamp is kept |
| Api.RecentAppend | api.py:147-150 | the filter works timestamp by timestamp: it distributes over concatenation and keeps a single timestamp exactly when it is recent, so the kept list is the recent subsequence in order |
| Api.RecentIdempotent | api.py:147-150 | dropping old timestamps a second time drops nothing more |
| Api.RateLimiter.constructor | api.py:136-140 | no client has a stored request |
| Api.RateLimiter.IsAllowed | api.py:142-158 | the request is admitted and recorded exactly when fewer than the maximum remain; no client ever exceeds the maximum; other clients are untouched |
| Api.ValidateKey | api.py:164-175 | exactly the two static keys give their user records |
| Api.Bump | api.py:519-521 | one more for the key, every other count unchanged |
| Api.LastWindow | api.py:524-526 | at most the last 1000 times, a suffix of the list |
| Api.WindowOfWindow | api.py:522-526 | trimming after every append keeps the last 1000 times, most recent last |
| Api.WindowOfAppends | api.py:522-526 | appending times one by one with trimming is trimming once |
| Api.Successes | api.py:449-451 | every result kept has no error, and every such result is kept |
| Api.SuccessesAppend | api.py:449-451 | the filter works result by result: it distributes over concatenation and keeps a single result exactly when it has no error, so the kept list is the successful subsequence in order |
| Api.UrgencyCountsAddUp | api.py:519-520 | the per-level counts add up to the number of successes |
| Api.ErrorRate | api.py:331-333 | the rate as written is non-negative and 0 exactly without errors |
| Api.ErrorRateExceedsHundred | api.py:331-333 | two failures after one success read as 200 per cent |
| Api.ErrorPercentage | api.py:331-333 | the corrected rate lies in [0, 100], is 0 exactly without errors and 100 when nothing succeeded |
| Api.EmailClassifierApi.constructor | api.py:184-214 | a limiter of 1000 requests per 3600 seconds and empty statistics |
| Api.EmailClassifierApi.UpdateStats | api.py:517-526 | one more request, one more for its urgency and department, and its time in the last 1000 |
| Api.EmailClassifierApi.ClassifyRoute | api.py:344-415 | rate-limited requests answer 429 and record nothing; an error counts one error and answers 500; otherwise the response is the classifier's result with the route's own processing time, and the statistics record that time |
| Api.EmailClassifierApi.ClassifyBatchRoute | api.py:417-489 | more than 50 emails are refused; otherwise the successes in order, their number, and the mean of their overall confidences (0 for none), with statistics for each success |
| GmailHelpers.SubjectWordsAreWholeWords | gmail_classifier.py:153 | a subject word is exactly a whole word of at least 4 word characters of the lower-cased subject, without capitals |
| GmailHelpers.LongRunsAppend | gmail_classifier.py:153 | the four-character filter distributes over concatenation and keeps a single word exactly when it has at least 4 characters, so the subject words are the long runs in order |
| GmailHelpers.ExtractKeywords | gmail_classifier.py:149-173 | no duplicates, at most 6, drawn from the collected words, all of them when there are at most 6 distinct ones, 6 otherwise; a non-text subject gives ["email", "message"] |
| GmailHelpers.KeywordFromSubject | gmail_classifier.py:153-154 | a keyword that is neither an urgency nor a department word is one of the first three subject words |
| GmailHelpers.CriticalTechnicalFillsSix | gmail_classifier.py:156-168 | a critical technical email always gets six keywords |
| GmailHelpers.PlainEmailKeywords | gmail_classifier.py:153-168 | medium or low support emails get exactly the first (at most three) subject words |
| GmailHelpers.AllKeywords | gmail_classifier.py:182-184 | the collected list is empty exactly when no email carries keywords |
| GmailHelpers.Occurrences | gmail_classifier.py:186-188 | a keyword is counted exactly when it occurs |
| GmailHelpers.Items | gmail_classifier.py:186-190 | every distinct keyword with its count, in first-seen order |
| GmailHelpers.TopTermsAreDistinctKeywords | gmail_classifier.py:190-191 | the query uses up to three distinct keywords of the category, each once |
| GmailHelpers.TopTermsAreMostFrequent | gmail_classifier.py:190-191 | no keyword left out of the query is more frequent than one in it |
| GmailHelpers.TopTermsTiesInFirstSeenOrder | gmail_classifier.py:190 | among equally frequent keywords the chosen ones are the first seen, in order |
| GmailHelpers.QueryIffKeywords | gmail_classifier.py:179-194 | a category gets a query exactly when some of its emails carry keywords |
| GmailHelpers.QueryMentionsTopTerms | gmail_classifier.py:193-194 | a query is parenthesised and mentions each of its top terms |
| GmailHelpers.CollectKeywords | gmail_classifier.py:182-184 | the collection loop concatenates all keywords in order |
| GmailHelpers.CountKeywords | gmail_classifier.py:186-188 | the counting loop counts every keyword exactly, with keys in first-seen order |
| GmailHelpers.BuildQuery | gmail_classifier.py:179-194 | the loop body computes one category's query |
| GmailHelpers.SearchQueries | gmail_classifier.py:175-196 | each category has a query exactly when its query exists, with that value, and no other keys |
| GmailHelpers.AnsweredMembers | gmail_classifier.py:213-214 | every answer kept is labelled, and every labelled answer is kept |
| GmailHelpers.AnsweredSnoc | gmail_classifier.py:213-214 | one more answer joins the end of the list exactly when it is labelled |
| GmailHelpers.AnsweredAppend | gmail_classifier.py:213-214 | the list of a concatenation is the concatenation of the lists, so the result is the labelled subsequence in order |
| GmailHelpers.InUrgencyMembers | gmail_classifier.py:213-217 | the bucket holds exactly the labelled answers of that urgency |
| GmailHelpers.InUrgencySnoc | gmail_classifier.py:213-217 | one more answer joins the end of the bucket exactly when it is labelled with that urgency |
| GmailHelpers.InUrgencyAppend | gmail_classifier.py:213-217 | the bucket of a concatenation is the concatenation of the buckets, so the bucket is that urgency's subsequence in order |
| GmailHelpers.InDepartmentMembers | gmail_classifier.py:213-218 | the bucket holds exactly the labelled answers of that department |
| GmailHelpers.InDepartmentSnoc | gmail_classifier.py:213-218 | one more answer joins the end of the bucket exactly when it is labelled with that department |
| GmailHelpers.InDepartmentAppend | gmail_classifier.py:213-218 | the bucket of a concatenation is the concatenation of the buckets, so the bucket is that department's subsequence in order |
| GmailHelpers.UrgencyBucketsPartition | gmail_classifier.py:213-217 | the sizes of the four urgency buckets add up to the number of answers, so with their membership they partition the answers |
| GmailHelpers.DepartmentBucketsPartition | gmail_classifier.py:213-218 | the sizes of the four department buckets add up to the number of answers, so with their membership they partition the answers |
| GmailHelpers.GroupResults | gmail_classifier.py:199-218 | the grouping loop fills each bucket with exactly its answers, in order |
| GmailHelpers.UrgencySearches | gmail_classifier.py:220 | the query of each urgency bucket |
| GmailHelpers.DepartmentSearches | gmail_classifier.py:221 | the query of each department bucket |
| GmailHelpers.ReportQueries | gmail_classifier.py:199-221 | the report's queries are those of the urgency and department buckets |
| Text.Lower | email_classifier.py:135 | `lower()` keeps the length and maps each character to its lower case |
| Text.Strip | core/validators.py:52 | the stripped text is the input less exactly its leading and trailing whitespace: the rest of the input is whitespace, and the result neither starts nor ends with whitespace |
| Text.StrippedIsFixed | core/validators.py:52 | a text that neither starts nor ends with whitespace strips to itself |
| Text.StripEmptyIffAllSpace | api.py:44 | stripping yields nothing exactly when every character is whitespace |
| Text.StripIdempotent | api.py:44-46 | a stripped value strips to itself |
| Text.UpperNeverInLower | core/patterns.py:89 | a word with a capital never occurs in a lower-cased text |
| GmailHelpers.Distinct | gmail_classifier.py:168 | `list(set(...))`: no duplicates and exactly the elements of the input |
| Text.PyPrefix | core/models.py:118 | `s[:n]` is a prefix of `s` of length n, clamped, counting from the end for negative n |
| Text.ContainsIffOccurs | email_classifier.py:135 | `w in t` is the existence of an occurrence |
| Ranking.FirstMaxIndex | classifiers/department_classifier.py:82 | the position of the first maximal value |
| Ranking.SortDescCorrect | gmail_classifier.py:190 | the sort is descending and a permutation of its input |
| Ranking.SortDescStable | gmail_classifier.py:190 | equal keys keep their input order |
| Ranking.TopTwo | classifiers/department_classifier.py:85 | the best score is the first maximum, the runner-up is the largest of the remaining scores and never exceeds it |

## Left out

- Regular expressions are an oracle (`Matcher`). `re.findall`, `\b`, `re.IGNORECASE` and `re.error` are not interpreted, so the rule tables are data. The four sample cases in `run_validation_suite` depend on the regex engine and are not modelled.
- Unicode: `lower()`, `isupper()`, `strip()` and `\w` are modelled on ASCII only.
- The ML pipelines (transformers, torch, CUDA, GPU out-of-memory recovery) are function values returning `Option`. A built pipeline is passed to the loaders, and the device choice is not modelled.
- YAML parsing and dumping, file I/O, `os.makedirs`, and the probing of standard paths in `_find_config_file`: these are parameters (`ConfigSource`, the discovered path).
- ConfigModels.FromSource: a field value of the wrong type (say, a string threshold) makes the load fall back to the defaults. Python's dataclasses would accept it and fail later.
- Logging and the global log-level mutation. Only whether `setLevel(getattr(logging, level))` succeeds is kept: a fixed set of names, the level constants and the boolean switches of Python 3.12's `logging` module.
- Wall-clock time is an argument: the elapsed time, `now` of the rate limiter, and the route's processing time. Uptime, `/health` and timestamps are not modelled.
- FastAPI routing, authentication headers, CORS, pydantic field limits and `BackgroundTasks`. `_update_stats` runs synchronously in the routes. The routes receive the classifier's result as a parameter. The md5 client id and the `/config/reload` and `/health` routes are not modelled.
- The threading lock of `RateLimiter`: the limiter is sequential.
- Api.EmailClassifierApi.ClassifyRoute: the exception path at api.py:409-415 has no counterpart, because the modelled classifier never raises. The response is the classifier's record with the route's processing time in place of its own. The `ClassificationResponse` field selection and its `timestamp` are not modelled.
- Api.EmailClassifierApi.ClassifyBatchRoute: the per-email `except` at api.py:474-476, which counts an error, has no counterpart either, for the same reason. The batch route sees only results the classifier returned.
- Gmail OAuth, `requests.post`, MIME decoding and the HTML and text report templating and file writes are not modelled. Only the keyword, query and grouping helpers are.
- Validators.Validated: record fields are strings, so the `str()` coercion at core/validators.py:26-27 is the identity, and only an absent key or `""` counts as falsy at lines 16 and 21. A non-string value such as `0`, `None`, `False`, `[]` or `123`, or a non-string sender formatted by the f-string, cannot be expressed. Every caller in api.py passes strings.
- GmailHelpers.ExtractKeywords: `list(set(keywords))` has a hash-dependent order. The model lists the set in first-occurrence order, so the contract promises membership, no duplicates and the count, but not which six. The subject is `Option`, with None standing for a subject that is not text.
- GmailHelpers.GroupResults: urgency and department are typed values. The `.get` defaults and the `KeyError` for an unknown label at gmail_classifier.py:215-217 are not modelled.
- EmailClassification.EmailClassifier.ClassifyBatch: the `except` branch at email_classifier.py:200-213 is unreachable, because the model's `classify_email` never raises. `classify_email` failures come from an input that is not a dictionary (`NotARecord`).
- Departments.FallbackDepartment: the department `classify` has no reachable exception path with well-typed inputs, so the fallback is modelled and proved on its own.
- `load_models` of the orchestrator only delegates, and is covered by CoreModels.ModelManager.LoadModels.
- Patterns.PatternManager.CalculatePatternScore: this contract states equality with the rule-list score. That the score is matches × weight is the separate lemma Patterns.PatternScoreIsTotalTimesWeight.
- Floating point: all confidence arithmetic is over `real`.

## Findings

| source | as written | input that shows it | evidently intended | confidence | as-written member | corrected member |
|---|---|---|---|---|---|---|
| api.py:331-333 | `errors / max(total_requests, 1) * 100`, where `total_requests` counts only successful requests (`_update_stats`) and `errors` the failed ones | one successful request, then two that fail: 2 / 1 × 100 = 200 | errors as a share of all requests that reached the classifier, at most 100 | not executed; likely | Api.ErrorRateExceedsHundred | Api.ErrorPercentage |
