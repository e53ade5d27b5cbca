# RoomMatch rules in Dafny

This project models the deterministic core of a room-matching assistant. The
assistant pairs residents ("inquilinos") who are looking for a shared flat.
Around its machine-learning calls sit small rules, and the model covers those:

- the compatibility engine's labelling rule, feature selection, score blend
  and clamp, model-loading decision, ethics summary and age banding;
- the ethics monitor: selection rates, bias flags and recommendations, the
  privacy check, the prediction distribution, the ethics score and the
  real-time spread alert;
- the explainer's post-processing: impact ranking, the favourable and
  unfavourable factor split, the text template, feature-name humanisation,
  the factor-matching score, global rank assignment and model insights;
- the resident schema with its validators, and the demo-record generator;
- the registration form: next identifier, label rule and payload;
- the chat assistant: the bounded message history, intent dispatch, search,
  the weighted fallback score, pair analysis, the recommendation shortlist,
  common and differing factors, profile summaries, advice and outlook;
- the cleaning script, which fills defaults into stored records and counts
  the changes.

Every result of a foreign library is a parameter of the model. These are
encoder and classifier outputs, cosine similarities, SHAP values, fairlearn
differences and feature importances. A `Foreign` or `Option` value stands for a
call that may raise.

**Data model.** A pandas frame is a `Common.Table`: its column names and one
cell map per record. A row read from the frame is a `Common.Row`. A column
that the record lacks reads as `NaN`, and `NaN` equals nothing (`Common.PyEq`).
A MongoDB document is a map from field names to values.

**Module layout.** Each source file is one module. `Common` holds values,
rows, string helpers and sequence helpers. `Sorting` holds the stable
descending insertion sort that stands for Python's `sort(reverse=True)`.

**Where the form is stateful or imperative.** The source updates state in
four places, and each is a class whose method is proved against a function of
the old state:

- the engine object, updated by `cargar_modelos`, and by the bias analysis and the ethics summary, whose data preparation installs a one-hot encoder when the engine has none;
- the SHAP explainer holder;
- the chat history;
- the cleaned collection.

Loops in the source are methods with loop invariants, also proved against a
specification function. Examples are the rule labels, `analyze_bias`,
`privacy_check`, the prediction distribution, the monitor, the explainer's
zips, the fallback score, the recommendation loop and the cleaning pass.

**Two behaviours of the code a reader might not expect:**

- The engine's pairwise score does not refuse two equal identifiers
  (`IaEngine.SelfPairScored`). Only the chat layer refuses them
  (`Chatbot.AnalizarPar`).
- The loader does not try the multi-file format "first" as a unit. A
  metadata file alone makes it report success, even without the model files
  (`IaEngine.MetadataAloneLoads`). The legacy file is consulted only when
  there is no metadata file.

## Model

| member | source | states |
|---|---|---|
| IaEngine.FeatureColumns | app/core/ia_engine.py:179-181 | a column is a feature exactly when it is an input column other than `_id`, `id_inquilino`, `nombre`, `created_at` |
| IaEngine.FeatureColumnsAppend | app/core/ia_engine.py:179-181 | the feature filter keeps the input order: it distributes over concatenation |
| IaEngine.CompatibleIsFeature | app/core/ia_engine.py:179-181 | the label column `compatible` is not excluded and is trained on as a feature |
| IaEngine.FeatureText | app/core/ia_engine.py:185 | a missing cell becomes "desconocido"; a text cell is kept |
| IaEngine.FeatureMatrix | app/core/ia_engine.py:185 | one row per record and one cell per feature column |
| IaEngine.MissingIsUnknown | app/core/ia_engine.py:185 | a record lacking a feature column reads "desconocido" there |
| IaEngine.RuleLabel | app/core/ia_engine.py:206-218 | the label is 0 or 1; it is 1 exactly when at least two of non-smoker, tidy and no pets hold |
| IaEngine.MissingScoresNothing | app/core/ia_engine.py:211-216 | without a `fumador` column the label is 1 exactly when tidy and no pets both hold |
| IaEngine.RuleIgnoresCase | app/core/ia_engine.py:211-214 | "NO" and "Ordenada" count, because the comparison lower-cases first |
| IaEngine.RuleLabels | app/core/ia_engine.py:206-218 | one rule label per record |
| IaEngine.GenerarLabelsReglas | app/core/ia_engine.py:206-218 | one label per record, in record order, each the rule label of its row |
| IaEngine.CastLabels | app/core/ia_engine.py:198-199 | the cast succeeds exactly when every `compatible` cell is an integer, and then yields those integers in order |
| IaEngine.PrepararDatos | app/core/ia_engine.py:179-204 | no feature column is an error; otherwise the labels are the `compatible` cells when that column exists, and preparation then succeeds exactly when every one of them casts to an integer; without the column the labels are the rule labels and preparation succeeds |
| IaEngine.CompatibleOverridesRule | app/core/ia_engine.py:198-201 | with a `compatible` column the labels depend only on that column's cells |
| IaEngine.Blend | app/core/ia_engine.py:275-276 | the percentage lies in [10, 95] and equals the raw 50/50 blend whenever that is in range |
| IaEngine.BlendMonotone | app/core/ia_engine.py:275-276 | a higher similarity or probability never lowers the percentage |
| IaEngine.Recommendation | app/core/ia_engine.py:282 | "Buena combinación" exactly when the score is at least 60, otherwise "Poca compatibilidad" |
| IaEngine.RecommendationOfRawBlend | app/core/ia_engine.py:275-282 | the clamp never moves a score across 60, so the verdict is the one the raw blend would get |
| IaEngine.Similarity | app/core/ia_engine.py:288-299 | 0.5 without an encoder; otherwise it fails exactly when encoding raises |
| IaEngine.Prediction | app/core/ia_engine.py:301-315 | 0.5 without a model; a model without an encoder always fails; otherwise it fails exactly when prediction raises |
| IaEngine.CompatibilidadAvanzada | app/core/ia_engine.py:265-286 | succeeds exactly when both ids are found and neither sub-score raises; the result is the blend in [10, 95], with a verdict matching the score |
| IaEngine.UntrainedBlendsToFifty | app/core/ia_engine.py:265-303 | an engine with neither encoder nor model scores every found pair at exactly 50, with the poor verdict |
| IaEngine.SelfPairScored | app/core/ia_engine.py:268-270 | nothing refuses `id1 == id2`: a resident is scored against themself |
| IaEngine.ModelWithoutEncoderFails | app/core/ia_engine.py:301-308 | a model without an encoder, which is the state a legacy load leaves, cannot score any pair |
| IaEngine.MetricsFromMetadata | app/core/ia_engine.py:362-373 | metrics come from the metadata dictionary; a missing deviation reads 0 and the training time is kept |
| IaEngine.MetricsFromLegacy | app/core/ia_engine.py:390-401 | `cross_val` becomes the mean and the deviation is 0; a non-dictionary gives the default metrics |
| IaEngine.LoadOkIff | app/core/ia_engine.py:345-412 | the load reports success exactly when the pickle step does not raise and then either a readable metadata file with a metrics dictionary exists, or there is no metadata file and a readable legacy package |
| IaEngine.LoadTrained | app/core/ia_engine.py:376-405 | a successful load marks the engine trained; a failed one leaves the flag as it was |
| IaEngine.PairOnlyWhenBoth | app/core/ia_engine.py:353-355 | encoder and model change only when both pickle files exist, or through the legacy package |
| IaEngine.MetadataAloneLoads | app/core/ia_engine.py:359-378 | a metadata file with no pickle files reports success and marks the engine trained, yet leaves neither encoder nor model, so every pair scores 50 |
| IaEngine.LegacyLoad | app/core/ia_engine.py:383-405 | the legacy format succeeds, drops the encoder, maps `cross_val` to the mean and zeroes the deviation |
| IaEngine.NothingToLoad | app/core/ia_engine.py:407-408 | with nothing on disk the load fails and changes nothing |
| IaEngine.Engine.constructor | app/core/ia_engine.py:69-80 | a new engine has no encoder, no model, no training, no feature names and default metrics |
| IaEngine.Engine.CargarModelos | app/core/ia_engine.py:345-412 | the new field values and the returned flag are those of the load transition on the old fields |
| IaEngine.ObtenerMetricasEticas | app/core/ia_engine.py:507-536 | an empty frame is an error; otherwise the score is in [0, 100], the status is "detected" exactly when bias is flagged, and the privacy score is 100 times the anonymisation score |
| IaEngine.ComplianceIffNoBias | app/core/ia_engine.py:519-530 | compliance holds exactly when no bias was detected, because PII alone costs only 20 points |
| IaEngine.EthicsScoreValues | app/core/ia_engine.py:519-527 | the score is 100, 80, 70 or 50, and is 100 exactly without bias and without PII |
| IaEngine.AgeBand | app/core/ia_engine.py:491-492 | banding fails exactly on a text age, on which `pd.cut` raises |
| IaEngine.AgeBandsPartition | app/core/ia_engine.py:491 | the bands (0,25], (25,35] and (35,100] partition (0,100], and every other age is "nan" |
| IaEngine.AgeBands | app/core/ia_engine.py:491-492 | one band per record, or a failure when some record's band fails |
| IaEngine.SensitiveFeatures | app/core/ia_engine.py:486-492 | one attribute for each of the columns `genero` and `edad` the frame has, with distinct names, each as long as the frame: `genero` first with the displayed cells, `grupo_edad` last with the age bands; it fails exactly when the age banding fails |
| IaEngine.NotasSesgo | app/core/ia_engine.py:497 | the recommendations of the analysis are at most two, and there are some only when bias is detected |
| IaEngine.TrasAnalisis | app/core/ia_engine.py:188-190 | past the empty and untrained checks, an analysis of a frame with feature columns leaves the engine holding an encoder; nothing else the rules read changes |
| IaEngine.AnalysisInstallsEncoder | app/core/ia_engine.py:188-190 | an engine with a model and no encoder fails every pair score, yet after an analysis of a frame with feature columns it holds an encoder and the pair score answers with the foreign similarity and probability |
| IaEngine.Engine.AnalizarSesgosModelo | app/core/ia_engine.py:470-505 | the engine after the call is `TrasAnalisis` of the engine before; the analysis answers exactly for a non-empty frame, a trained engine that holds a model, labels that cast, predictions that were made and ages that band; a trained engine without a model is an error; its report has the accuracy of the prepared labels, flags bias exactly when some sensitive attribute is flagged, and records one analysis per analysed attribute |
| IaEngine.Engine.MetricasEticas | app/core/ia_engine.py:507-536 | the engine changes as the analysis changes it; on the same frame, the summary is an error exactly for an empty frame; the status is "detected", and compliance fails, exactly when the bias analysis flags bias; when the analysis fails the status reads clear and compliant; its recommendations are the analysis's |
| IaEngine.MetadataAloneAnalysisFails | app/core/ia_engine.py:481-483 | an engine loaded from metadata without the model files reads as trained but holds no model, so its bias analysis fails and flags nothing |
| EthicsMonitor.Agreements | app/core/ethics_monitor.py:31 | the number of agreeing positions is at most the length, and equals it exactly when the label sequences are equal |
| EthicsMonitor.OverallAccuracy | app/core/ethics_monitor.py:31 | undefined (NaN) exactly for no labels; otherwise in [0, 1] and 1 exactly when every prediction is right |
| EthicsMonitor.CountWhere | app/core/ethics_monitor.py:183-187 | a group's count of predictions equal to a value is at most the group's size |
| EthicsMonitor.BinaryCounts | app/core/ethics_monitor.py:183-187 | for 0/1 predictions the zeros and the ones of a group add up to its size, and its prediction sum is its count of ones |
| EthicsMonitor.RateInUnitInterval | app/core/ethics_monitor.py:53-56 | a selection rate of 0/1 predictions lies in [0, 1] |
| EthicsMonitor.SelectionRates | app/core/ethics_monitor.py:50-56 | exactly one rate per distinct sensitive value |
| EthicsMonitor.Names | app/core/ethics_monitor.py:37 | the attribute names in iteration order |
| EthicsMonitor.NoteFor | app/core/ethics_monitor.py:69-73 | an attribute adds one recommendation exactly when its analysis runs and its `abs(dp)` exceeds 0.1 |
| EthicsMonitor.DistinctNamesBefore | app/core/ethics_monitor.py:37 | dictionary keys are distinct, so no earlier attribute shares the current one's name |
| EthicsMonitor.BiasNotes | app/core/ethics_monitor.py:37-76 | at most one recommendation per attribute |
| EthicsMonitor.BiasNotesFlagged | app/core/ethics_monitor.py:68-73 | there is some recommendation exactly when some attribute is flagged |
| EthicsMonitor.BiasNotesAppend | app/core/ethics_monitor.py:37-76 | the recommendations are built in attribute order, one step per attribute |
| EthicsMonitor.RecordedStep | app/core/ethics_monitor.py:58-66 | an analysed attribute's entry is recorded under its name; a failing one leaves the record as it was |
| EthicsMonitor.BiasStep | app/core/ethics_monitor.py:37-76 | one loop step keeps the flag, notes and groups in step with the attributes seen so far |
| EthicsMonitor.AnalyzeBias | app/core/ethics_monitor.py:25-78 | the report's accuracy is the agreement share; the flag is set exactly when some analysed attribute is flagged; there is one recommendation per flagged attribute in order; failing attributes are skipped |
| EthicsMonitor.EthicsScore | app/core/ethics_monitor.py:195-214 | the score lies in [0, 100]; it is 100 when the accuracy is NaN, 100 with no bias or recommendations, and at most 90 with bias |
| EthicsMonitor.EthicsScoreMonotone | app/core/ethics_monitor.py:207-208 | more recommendations never raise the score |
| EthicsMonitor.FullScoreIffNoBias | app/core/ethics_monitor.py:195-214 | on a report built from at least one label, the score is 100 exactly when no bias was detected |
| EthicsMonitor.PresentFields | app/core/ethics_monitor.py:94-101 | the sensitive fields that are columns, in list order, without repeats |
| EthicsMonitor.Issues | app/core/ethics_monitor.py:97 | one issue per present field, in order |
| EthicsMonitor.ReportFor | app/core/ethics_monitor.py:94-110 | PII is flagged exactly when some sensitive field is present; the three recommendations appear exactly then; the score lies in [0, 1] and is 1 exactly without PII |
| EthicsMonitor.PrivacyReportOf | app/core/ethics_monitor.py:80-112 | a frame without columns raises (division by zero); otherwise the report states what `ReportFor` states for the frame's columns |
| EthicsMonitor.PresentWithinColumns | app/core/ethics_monitor.py:100-102 | the present sensitive fields never outnumber the columns, so the score is not negative |
| EthicsMonitor.PrivacyCheck | app/core/ethics_monitor.py:80-112 | the loop builds exactly the privacy report of the columns |
| EthicsMonitor.IssuesAppend | app/core/ethics_monitor.py:94-97 | each loop step appends one issue for the field it finds |
| EthicsMonitor.PresentFieldsAppend | app/core/ethics_monitor.py:94-95 | each loop step adds the field exactly when it is a column |
| EthicsMonitor.Distribution | app/core/ethics_monitor.py:175-189 | exactly one entry per distinct group |
| EthicsMonitor.AnalyzePredictionDistribution | app/core/ethics_monitor.py:169-193 | exactly one entry per attribute, each the per-group distribution of its values |
| EthicsMonitor.DistributionCountsAddUp | app/core/ethics_monitor.py:178-189 | in every group of 0/1 predictions the count is positive, the '0' and '1' counts sum to it, and the positive rate is the share of ones |
| EthicsMonitor.Keys | app/core/ethics_monitor.py:229 | the attribute keys of a demographic record |
| EthicsMonitor.Column | app/core/ethics_monitor.py:231 | one value per record, with 'unknown' for a missing key |
| EthicsMonitor.MaxRate | app/core/ethics_monitor.py:252-253 | the largest group rate, attained by some group |
| EthicsMonitor.MinRate | app/core/ethics_monitor.py:252-253 | the smallest group rate, attained by some group |
| EthicsMonitor.AlertFor | app/core/ethics_monitor.py:242-256 | at most one alert per attribute |
| EthicsMonitor.MonitorAlerts | app/core/ethics_monitor.py:242-256 | at most one alert per key, in key order |
| EthicsMonitor.MonitorAlertsAppend | app/core/ethics_monitor.py:242-256 | each loop step appends the current key's alert, if any |
| EthicsMonitor.CollectAlerts | app/core/ethics_monitor.py:242-256 | the loop builds exactly the alerts of the keys, in key order |
| EthicsMonitor.MonitorModelPredictions | app/core/ethics_monitor.py:216-258 | a length mismatch is the error; otherwise the total, the mean prediction (NaN for none) and the alerts over the first record's keys |
| EthicsMonitor.SpreadBounds | app/core/ethics_monitor.py:252-253 | no two group rates differ by more than the spread |
| EthicsMonitor.SpreadAttained | app/core/ethics_monitor.py:252-253 | the spread is the difference of two actual group rates |
| EthicsMonitor.TwoGroups | app/core/ethics_monitor.py:243-244 | two different values make more than one distinct group |
| EthicsMonitor.AlertIffSomePairApart | app/core/ethics_monitor.py:243-256 | an attribute alerts exactly when two of its groups have rates more than 0.15 apart |
| ModelExplainer.HumanizeFirst | app/core/model_explainer.py:176-178 | the first table key, in table order, contained in the lower-cased name decides the result |
| ModelExplainer.HumanizeNone | app/core/model_explainer.py:180-181 | when no key matches, the result is the name with `_` as a space, title-cased |
| ModelExplainer.HumanizeFirstMatch | app/core/model_explainer.py:155-181 | for the source's own table, the first contained key decides the human name |
| ModelExplainer.HumanizeFallback | app/core/model_explainer.py:180-181 | a name containing no key is title-cased with `_` read as a space; it grows by one character per word-initial 'ß' (written "Ss") and otherwise keeps its length |
| ModelExplainer.HumanizeSmoker | app/core/model_explainer.py:158 | "fumador_no" reads as "Ambos no fumadores" |
| ModelExplainer.ImpactOf | app/core/model_explainer.py:57-63 | direction is "positivo" exactly for a positive impact, else "negativo"; magnitude is the absolute impact |
| ModelExplainer.Impacts | app/core/model_explainer.py:56-63 | one entry per position of the shortest of names, SHAP values and inputs |
| ModelExplainer.BuildImpacts | app/core/model_explainer.py:55-63 | the loop builds exactly the zipped impact entries |
| ModelExplainer.TopFactors | app/core/model_explainer.py:65-67 | the favourable and unfavourable lists hold at most 5 together, no zero impact and only input entries |
| ModelExplainer.TopFactorsDominate | app/core/model_explainer.py:65-67 | nothing in the two lists is smaller in magnitude than an impact left out of the top five |
| ModelExplainer.Bullets | app/core/model_explainer.py:137-145 | one bullet per factor |
| ModelExplainer.HumanLinesShape | app/core/model_explainer.py:128-151 | the header says ALTA exactly when favourable factors outnumber unfavourable ones; the closing advice agrees with it; each side lists at most three factors |
| ModelExplainer.GenerateHumanExplanation | app/core/model_explainer.py:124-153 | the text is the template lines joined with newlines |
| ModelExplainer.AppendSection | app/core/model_explainer.py:135-145 | a section is its header followed by its bullets |
| ModelExplainer.AppendBullets | app/core/model_explainer.py:137-145 | the loop appends one bullet per listed factor |
| ModelExplainer.Rankings | app/core/model_explainer.py:103-108 | one ranking per position of the shortest of names, importances and inputs |
| ModelExplainer.BuildRankings | app/core/model_explainer.py:102-108 | the loop builds exactly the zipped rankings |
| ModelExplainer.SimpleExplanationOf | app/core/model_explainer.py:86-122 | no model is an error, and no importances a fixed answer; otherwise the min(8, n) most important features, taken from the rankings, in descending order plus the model's prediction, and an explanation exactly when some feature exists |
| ModelExplainer.SimpleTopDominates | app/core/model_explainer.py:110-115 | every feature left out of the eight weighs no more than any feature shown |
| ModelExplainer.ExplanationOf | app/core/model_explainer.py:39-84 | without an explainer, or when SHAP or the probability raises, the simple explanation; with all three, the SHAP answer with the model's confidence: the impacts sorted by magnitude, a permutation of the zipped ones keeping ties in feature order, with the top-five split and the template text |
| ModelExplainer.Explainer.constructor | app/core/model_explainer.py:16-19 | a new explainer holds the given model and names and no SHAP explainer |
| ModelExplainer.Explainer.InitializeExplainer | app/core/model_explainer.py:21-37 | success exactly with a model and a SHAP build that does not raise; the explainer then exists |
| ModelExplainer.Explainer.SimpleExplanation | app/core/model_explainer.py:86-122 | the method computes the simple explanation of the current model |
| ModelExplainer.Explainer.ExplainPrediction | app/core/model_explainer.py:39-84 | the method computes the explanation of the current state |
| ModelExplainer.Explainer.GenerateGlobalExplanations | app/core/model_explainer.py:232-292 | no model is an error; otherwise every feature carries its importance, rank and human name in descending importance order, the first five patterns of each kind, and the insights |
| ModelExplainer.BuildImportanceDict | app/core/model_explainer.py:243-248 | the zip loop builds the insertion-ordered dictionary |
| ModelExplainer.CollectPatterns | app/core/model_explainer.py:267-281 | the loop builds exactly the high and the low patterns |
| ModelExplainer.Comparisons | app/core/model_explainer.py:200-212 | at most one comparison per key factor |
| ModelExplainer.CountCompatible | app/core/model_explainer.py:214-215 | the matches never outnumber the comparisons |
| ModelExplainer.CountCompatibleAppend | app/core/model_explainer.py:214-215 | the counter adds up over the loop |
| ModelExplainer.SummaryThresholds | app/core/model_explainer.py:217-224 | over six factors, five or more matches are excellent and three or four moderate; the score lies in [0, 100] |
| ModelExplainer.FactorsReportOf | app/core/model_explainer.py:183-230 | succeeds exactly when both ids are found; the score is in [0, 100] with its summary; at most six comparisons |
| ModelExplainer.MissingFactorsCapScore | app/core/model_explainer.py:201-217 | the score is always over six, so a frame with fewer key columns scores at most their share |
| ModelExplainer.ComparisonsWithin | app/core/model_explainer.py:200-201 | only factors that are columns get a comparison |
| ModelExplainer.CompareFactors | app/core/model_explainer.py:200-215 | the loop builds one comparison per factor both rows carry, in factor order, and counts the matching ones |
| ModelExplainer.ExplainCompatibilityFactors | app/core/model_explainer.py:183-230 | the method computes the factor report: the lookups, the loop over the six key factors and the score |
| ModelExplainer.Keys | app/core/model_explainer.py:250-253 | the keys of the dictionary's items, in order |
| ModelExplainer.Assign | app/core/model_explainer.py:244 | `d[key] = value` keeps an existing key in its place and appends a new one |
| ModelExplainer.AssignKeepsDistinct | app/core/model_explainer.py:244 | assignment keeps the keys distinct and holds the assigned key |
| ModelExplainer.Zip | app/core/model_explainer.py:243 | pairs up to the shorter of names and importances |
| ModelExplainer.ImportanceDict | app/core/model_explainer.py:238-248 | one entry per distinct feature name, and only given names |
| ModelExplainer.SortedKeysDistinct | app/core/model_explainer.py:250-251 | sorting the items keeps their keys distinct |
| ModelExplainer.EntriesStep | app/core/model_explainer.py:253-254 | one rank-assignment step extends the ranked entries by one position |
| ModelExplainer.RankEntries | app/core/model_explainer.py:253-254 | after the loop every ranked feature carries its importance, its rank from 1 and its human name |
| ModelExplainer.EntriesRanks | app/core/model_explainer.py:253-254 | the feature in position i has rank i + 1 |
| ModelExplainer.RanksBijection | app/core/model_explainer.py:250-254 | the ranks are a bijection onto 1..n |
| ModelExplainer.RanksInRange | app/core/model_explainer.py:253-254 | no rank lies outside 1..n and no two features share one |
| ModelExplainer.RankOrder | app/core/model_explainer.py:250-254 | in the sorted list, the more important of two entries has the smaller rank |
| ModelExplainer.RanksFollowImportance | app/core/model_explainer.py:250-254 | a more important feature always has a smaller rank, whatever order its ties were given |
| ModelExplainer.DictionaryRanks | app/core/model_explainer.py:238-254 | the global importance ranks a more important dictionary feature ahead of a less important one |
| ModelExplainer.PatternsBounds | app/core/model_explainer.py:267-281 | every reported difference exceeds 0.1, every pattern names a feature, and no position is both high and low |
| ModelExplainer.Patterns | app/core/model_explainer.py:259-286 | at most five patterns of each kind |
| ModelExplainer.InsightLines | app/core/model_explainer.py:306-308 | one numbered line per top feature |
| ModelExplainer.ModelInsightsShape | app/core/model_explainer.py:294-313 | an empty dictionary gives the single fallback line; otherwise a header, min(3, n) feature lines and the two closing lines |
| ModelExplainer.GenerateModelInsights | app/core/model_explainer.py:294-313 | the method computes the insights of the dictionary |
| ModelExplainer.NumberInsights | app/core/model_explainer.py:306-308 | the loop numbers the top features from 1 |
| InquilinoSchema.FieldsComplete | app/core/inquilino_schema.py:15-33 | every declared field is in the checked list |
| InquilinoSchema.Failures | app/core/inquilino_schema.py:15-53 | a field is listed exactly when it is in the list and fails its declaration |
| InquilinoSchema.Errors | app/core/inquilino_schema.py:15-53 | at most one error per declared field |
| InquilinoSchema.ErrorsExact | app/core/inquilino_schema.py:15-53 | a field is reported exactly when it fails |
| InquilinoSchema.ErrorsEmpty | app/core/inquilino_schema.py:15-53 | no error is reported exactly when every field is satisfied |
| InquilinoSchema.NormalName | app/core/inquilino_schema.py:39-41 | the stored name is the given one stripped and title-cased; it is at most twice as long, and never longer when the name has no 'ß' |
| InquilinoSchema.Tenant | app/core/inquilino_schema.py:9-41 | the validated record carries the normalised name |
| InquilinoSchema.TenantWellFormed | app/core/inquilino_schema.py:15-33 | a record meeting every field constraint gives a well-formed tenant |
| InquilinoSchema.TenantNumbers | app/core/inquilino_schema.py:15-33 | the tenant's id is positive, its age in [18, 70] and its label 0 or 1 |
| InquilinoSchema.TenantChoices | app/core/inquilino_schema.py:18-24 | the tenant's categorical fields hold one of their enumerated strings |
| InquilinoSchema.TenantOptionals | app/core/inquilino_schema.py:26-31 | visits and instrument are absent or si/no; the level and music rules hold |
| InquilinoSchema.Validate | app/core/inquilino_schema.py:9-53 | valid exactly when every field constraint holds; an invalid record names at least one field; a valid one is well-formed with the stripped, title-cased name |
| InquilinoSchema.ValidTenant | app/core/inquilino_schema.py:9-41 | a valid record is the tenant built from it |
| InquilinoSchema.ValidFields | app/core/inquilino_schema.py:15-17 | the id, age and label of a valid record are the values it was given |
| InquilinoSchema.ValidOptionals | app/core/inquilino_schema.py:26-30 | the optional text fields of a valid record are its string cells, and absent or `None` stays absent |
| InquilinoSchema.ValidCompatible | app/core/inquilino_schema.py:33 | a valid record keeps the label it was given |
| InquilinoSchema.InvalidFields | app/core/inquilino_schema.py:15-53 | an invalid record is reported with exactly the fields that fail |
| InquilinoSchema.TitleFromUncased | app/core/inquilino_schema.py:41 | title-casing passes a run of characters without case through unchanged, and the word after it starts with a title-cased letter |
| InquilinoSchema.TitleFromNoCase | app/core/inquilino_schema.py:41 | text without cased characters is its own title case |
| Common.TitleFromAppend | app/core/inquilino_schema.py:41 | title-casing a concatenation title-cases the second part after whatever case the first part ended in |
| Common.TitleSharpS | app/core/inquilino_schema.py:41 | a word-initial 'ß' title-cases to "Ss" |
| Common.TitleMicro | app/core/inquilino_schema.py:41 | a word-initial 'µ' title-cases to the Greek capital mu and the next letter is lower-cased |
| Common.TitleYDiaeresis | app/core/inquilino_schema.py:41 | a word-initial 'ÿ' title-cases to 'Ÿ' |
| Common.TitleOrdinal | app/core/inquilino_schema.py:41 | 'ª' counts as cased, so the letter after it is lower-cased |
| Common.NoSharpNoStarts | app/core/inquilino_schema.py:41 | without a 'ß' title-casing keeps the length |
| InquilinoSchema.TitleStripped | app/core/inquilino_schema.py:41 | title-casing a stripped string leaves it stripped |
| InquilinoSchema.NormalNameIdempotent | app/core/inquilino_schema.py:39-41 | normalising a normalised name changes nothing |
| InquilinoSchema.StoredRevalidates | app/core/inquilino_schema.py:9-53 | validating a stored record again gives the same record back, when its name still has 2..50 characters |
| InquilinoSchema.StoredTenant | app/core/inquilino_schema.py:9-41 | rebuilding a stored record gives the tenant back |
| InquilinoSchema.StoredNumbers | app/core/inquilino_schema.py:15-33 | the stored id, age and label read back unchanged |
| InquilinoSchema.StoredChoices | app/core/inquilino_schema.py:16-24 | the stored text fields read back unchanged |
| InquilinoSchema.StoredOptionals | app/core/inquilino_schema.py:26-31 | the stored optional fields read back unchanged |
| InquilinoSchema.StoredFieldsOk | app/core/inquilino_schema.py:15-53 | a well-formed tenant's stored record meets every field constraint |
| InquilinoSchema.BlankNameStoredEmpty | app/core/inquilino_schema.py:16-41 | a name of two or more spaces passes the length check and is stored empty, because the bounds apply before stripping |
| InquilinoSchema.DemoScore | app/core/inquilino_schema.py:84-94 | the demo score is at most 5 |
| InquilinoSchema.DemoLabel | app/core/inquilino_schema.py:96-97 | the label is 0 or 1, and 1 exactly when at least three of the five conditions hold |
| InquilinoSchema.DemoLabelExtremes | app/core/inquilino_schema.py:84-97 | the most favourable answers give 1 and the least favourable give 0 |
| InquilinoSchema.DemoLabelMonotone | app/core/inquilino_schema.py:84-97 | meeting one more condition never lowers the label |
| InquilinoSchema.DemoLabelThree | app/core/inquilino_schema.py:84-97 | any three favourable answers give 1, whatever the other two are |
| InquilinoSchema.Pick | app/core/inquilino_schema.py:67-80 | every draw is one of the offered options |
| InquilinoSchema.DemoAge | app/core/inquilino_schema.py:68 | every drawn age is in [18, 70] |
| InquilinoSchema.DemoDrawLabel | app/core/inquilino_schema.py:84-97 | the label of a draw is 0 or 1 |
| InquilinoSchema.DemoPuntaje | app/core/inquilino_schema.py:84-94 | the accumulated score counts the conditions the built dictionary meets |
| InquilinoSchema.GenerarInquilinoDemo | app/core/inquilino_schema.py:59-99 | the result is valid exactly when `uuid % 1000000` is not 0, then carries the rule's label; otherwise only the id fails |
| InquilinoSchema.DemoOutcome | app/core/inquilino_schema.py:59-99 | a demo record is valid exactly when its id is positive, and then keeps its label; otherwise only the id fails |
| InquilinoSchema.DemoValid | app/core/inquilino_schema.py:59-99 | with a positive id a demo record is valid with its label |
| InquilinoSchema.DemoOnlyId | app/core/inquilino_schema.py:59-99 | with id 0 or less only the id of a demo record fails |
| InquilinoSchema.DemoValidity | app/core/inquilino_schema.py:66-81 | every drawn value other than the id is one the schema allows |
| InquilinoSchema.DemoNameOk | app/core/inquilino_schema.py:60-67 | every demo name has 2..50 characters |
| InquilinoSchema.DemoLevelOk | app/core/inquilino_schema.py:75 | every demo education level passes the level validator |
| InquilinoSchema.DemoMusicOk | app/core/inquilino_schema.py:76 | every demo music type passes the music validator |
| InquilinoSchema.LowerUnchanged | app/core/inquilino_schema.py:45 | the level names are already lower case |
| InquilinoSchema.DemoIdZeroRejected | app/core/inquilino_schema.py:66 | the identifier 0, one draw in a million, is rejected |
| InquilinoSchema.DemoId | app/core/inquilino_schema.py:66 | the corrected identifier lies in 1..1000000 |
| InquilinoSchema.DemoIdAlwaysValid | app/core/inquilino_schema.py:59-99 | with the corrected identifier every draw gives a valid record with the rule's label |
| Formulario.MaxId | app/components/formulario.py:17 | the maximum is at least every stored id and is attained |
| Formulario.FallbackId | app/components/formulario.py:22 | the fallback id lies in 1..999999 |
| Formulario.GenerarIdAutomatico | app/components/formulario.py:8-22 | no records give 1; readable records give one more than the largest id; a failed read gives the fallback |
| Formulario.NextIdFresh | app/components/formulario.py:13-18 | when stored ids are not negative, the next id is positive and differs from every stored id |
| Formulario.MissingIdCountsZero | app/components/formulario.py:17 | a document without an id counts as 0 |
| Formulario.FormScore | app/components/formulario.py:31-36 | the score is at most 5 |
| Formulario.FormLabel | app/components/formulario.py:37 | the label is 0 or 1, and 1 exactly when at least three conditions hold |
| Formulario.CalcularCompatibleReglaSimple | app/components/formulario.py:25-37 | the accumulated label is the rule's label |
| Formulario.RulesAgree | app/components/formulario.py:25-37 | on a record carrying all five keys as strings, the registration rule and the demo rule give the same label |
| Formulario.DemoLabelAgrees | app/components/formulario.py:25-37 | the registration rule gives every demo record the label the generator put on it |
| Formulario.MissingKeysScoreNothing | app/components/formulario.py:32-36 | a record without the five keys is labelled 0 |
| Formulario.CapitalisedScoresNothing | app/components/formulario.py:32-36 | the comparisons are case-sensitive: capitalised answers score nothing |
| Formulario.OrNone | app/components/formulario.py:94-98 | `text or None` is `None` exactly for empty text, and the text otherwise |
| Formulario.Payload | app/components/formulario.py:83-101 | the payload has no label until the rule adds one |
| Formulario.Labelled | app/components/formulario.py:104 | the label is computed from the assembled payload |
| Formulario.LabelIndependentOfRest | app/components/formulario.py:104 | the label depends only on the five answers, not on the id or the free text |
| Formulario.RegistrarInquilino | app/components/formulario.py:77-117 | a cedula that Python's `int()` refuses fails first; otherwise the record is registered exactly when the labelled payload validates, with the computed label, and is rejected with the failing fields otherwise |
| Common.PyInt | app/components/formulario.py:86 | `int()` of a text reads something only when the stripped text is not empty |
| Common.PyIntDigits | app/components/formulario.py:86 | on a plain string of digits `int()` agrees with the cell cast |
| Common.PyIntStrips | app/components/formulario.py:86 | surrounding blanks do not change what `int()` reads |
| Common.PyIntNegative | app/components/formulario.py:86 | a leading minus sign is read: `int(str(-n))` is -n |
| Common.PyIntDoubleUnderscore | app/components/formulario.py:86 | two underscores in a row make `int()` raise |
| Common.TakeSubMultiset | app/core/model_explainer.py:115 | the first n items of a list are drawn from it |
| Formulario.AgeOutsideRangeRejected | app/components/formulario.py:56 | the slider allows any age in 0..100, but outside 18..70 the age is rejected |
| Formulario.EmptyOptionalsAbsent | app/components/formulario.py:94-98 | empty optional text is stored as absent, and non-empty text as given |
| Formulario.Entered | app/components/formulario.py:94-98 | empty text contributes nothing, and other text is kept |
| Formulario.LabelledOptionals | app/components/formulario.py:94-98 | the payload's optional cells are `text or None` |
| Formulario.EnteredCell | app/components/formulario.py:94-98 | a `text or None` cell reads back as the entered text |
| Formulario.FormAccepted | app/components/formulario.py:50-107 | the widgets' values, a 2..50 character name, an age in 18..70, a positive id and a valid music entry together make a record that validates |
| Chatbot.Appended | app/components/chatbot.py:233-244 | the history holds at most 50 messages, the new one last; it grows by one below 50 and otherwise keeps the latest 49 before it |
| Chatbot.ChatHistory.constructor | app/components/chatbot.py:19-20 | the history starts empty |
| Chatbot.ChatHistory.AgregarMensaje | app/components/chatbot.py:233-244 | the history becomes the bounded append of the new message |
| Chatbot.ChatHistory.ProcesarMensaje | app/components/chatbot.py:226-231 | the user message and then the bot reply are appended; the reply ends a history of at most 50 messages |
| Chatbot.ChatHistory.Recientes | app/components/chatbot.py:89 | the display shows the last min(8, n) messages |
| Chatbot.RecentUnaffected | app/components/chatbot.py:243-244 | truncation never changes the last 8 the display shows |
| Chatbot.AppendedDropsOldest | app/components/chatbot.py:243-244 | the previous last message comes just before the new one; on overflow the oldest are dropped |
| Chatbot.DigitRun | app/components/chatbot.py:260 | the leading run of digits, ending at a non-digit |
| Chatbot.Numbers | app/components/chatbot.py:260 | at most one number per character |
| Chatbot.NoDigitsNoNumbers | app/components/chatbot.py:260 | a message without digits yields no number |
| Chatbot.NumeralRead | app/components/chatbot.py:260 | a written number reads back as itself |
| Chatbot.DispatchOrder | app/components/chatbot.py:254-288 | statistics words win first; then a pair needs two numbers and a compatibility word; then recommendations need one number; search, help and greeting follow; generic is last and gets the numbers |
| Chatbot.DispatchIds | app/components/chatbot.py:262-267 | the pair uses the first two numbers and the recommendation uses the first one |
| Chatbot.DigitlessNeverIds | app/components/chatbot.py:261-266 | a message without digits never reaches a pair or a recommendation |
| Chatbot.StatsShadowsPair | app/components/chatbot.py:254-262 | a statistics word shadows a compatibility request |
| Chatbot.FirstHit | app/components/chatbot.py:689-694 | the first table term contained in the message, or none exactly when no term is contained |
| Chatbot.Shadowed | app/components/chatbot.py:689-694 | a term containing an earlier term can never be chosen |
| Chatbot.ShadowedTerms | app/components/chatbot.py:668-694 | "no fumador", "sin mascota" and "desordenad" can never be chosen |
| Chatbot.NonSmokerShadowed | app/components/chatbot.py:669-670 | "no fumador" is shadowed by "fumador" |
| Chatbot.NoPetsShadowed | app/components/chatbot.py:673-674 | "sin mascota" is shadowed by "mascota" |
| Chatbot.UntidyShadowed | app/components/chatbot.py:675-676 | "desordenad" is shadowed by "ordenad" |
| Chatbot.NonSmokerSearchFindsSmokers | app/components/chatbot.py:668-694 | asking for non-smokers searches for `fumador` = "si" |
| Chatbot.Swap | app/components/chatbot.py:668-682 | two neighbouring entries trade places and nothing else moves |
| Chatbot.SwapAgrees | app/components/chatbot.py:689-694 | a swap matters only for a message holding the later term |
| Chatbot.CorrectedAgrees | app/components/chatbot.py:668-694 | the corrected table answers like the original for every message without the three shadowed terms |
| Chatbot.CorrectedNonSmokers | app/components/chatbot.py:670 | with the corrected table, asking for non-smokers searches for `fumador` = "no" |
| Chatbot.CorrectedEntries | app/components/chatbot.py:668-682 | the corrected table puts each longer term before the term it contains |
| Chatbot.FirstHitAt | app/components/chatbot.py:689-694 | a term is chosen when it is contained and no earlier term is |
| Chatbot.FirstHitWitnessed | app/components/chatbot.py:689-694 | a term is chosen when it is contained and every earlier term has a letter missing from the message |
| Chatbot.CorrectedNoPets | app/components/chatbot.py:674 | with the corrected table, "sin mascota" searches for `mascotas` = "sin mascotas" |
| Chatbot.CorrectedUntidy | app/components/chatbot.py:676 | with the corrected table, "desordenad" searches for `orden` = "desordenada" |
| Chatbot.PesosPositive | app/components/chatbot.py:812-820 | every factor weight is positive |
| Chatbot.PesoHasta | app/components/chatbot.py:825-827 | the weight total is not negative, and 0 exactly when no weighted factor is in both rows |
| Chatbot.CoincideHasta | app/components/chatbot.py:825-829 | the agreement total lies between 0 and the weight total |
| Chatbot.Peso | app/components/chatbot.py:812-827 | the weight total is 0 exactly when no weighted factor is in both rows |
| Chatbot.Coincide | app/components/chatbot.py:825-829 | the agreement total never exceeds the weight total |
| Chatbot.BonoEdad | app/components/chatbot.py:836-837 | the age bonus lies in [0, 0.1], is positive exactly below a 10-year difference, and is 0.1 for equal ages |
| Chatbot.EdadTerm | app/components/chatbot.py:835-839 | a computed age bonus lies in [0, 0.1] |
| Chatbot.Tope | app/components/chatbot.py:841 | `min(95, x)` never exceeds 95 |
| Chatbot.RatioBounds | app/components/chatbot.py:841 | the agreement ratio lies in [0, 1] and is 1 on full agreement |
| Chatbot.ScoreOf | app/components/chatbot.py:831-844 | from totals with agreement ≤ weight and a bonus in [0, 0.1], the score lies in [0, 95], and is 50 with no weight or a failing age step |
| Chatbot.PairScore | app/components/chatbot.py:825-844 | the score lies in [0, 95]; it is 50 when no weighted factor is shared or when the age arithmetic raises |
| Chatbot.SimpleScore | app/components/chatbot.py:805-844 | the score lies in [0, 95], and is 50 when either resident is missing |
| Chatbot.CalcularCompatibilidadSimple | app/components/chatbot.py:805-844 | the method computes the fallback score: 50 when a resident is missing, else the pair's score |
| Chatbot.PuntuarPar | app/components/chatbot.py:822-844 | the weight loop, the age step and the cap compute the pair's score |
| Chatbot.Acumular | app/components/chatbot.py:822-829 | the loop accumulates the weight total and the agreement total |
| Chatbot.AgeBonusPositive | app/components/chatbot.py:835-839 | with two integer ages the bonus is positive exactly when they differ by less than 10 |
| Chatbot.AgreeAll | app/components/chatbot.py:825-829 | rows agreeing on every shared factor have agreement equal to weight |
| Chatbot.FullAgreement | app/components/chatbot.py:825-841 | two rows that agree on every shared factor and on their age score exactly 95 |
| Chatbot.PesoSymmetric | app/components/chatbot.py:825-829 | both totals are the same with the rows swapped |
| Chatbot.PairScoreSymmetric | app/components/chatbot.py:825-844 | the fallback score is symmetric |
| Chatbot.EdadSymmetric | app/components/chatbot.py:835-839 | the age term is symmetric |
| Chatbot.ImpactoFactor | app/components/chatbot.py:899-910 | high exactly for fumador, orden and bioritmo; low exactly for visitas and personalidad; medium otherwise |
| Chatbot.ImpactFollowsWeight | app/components/chatbot.py:812-820 | a factor's impact level follows its score weight: high exactly from 0.20 up, low exactly below 0.10 |
| Chatbot.Analisis | app/components/chatbot.py:508-527 | at most one entry per factor in both rows, comparing their displayed texts, with the factor's impact |
| Chatbot.AnalisisCovers | app/components/chatbot.py:512-513 | every factor in both rows is analysed |
| Chatbot.Coincidencias | app/components/chatbot.py:518-519 | the matches never outnumber the entries; they are all of them exactly when every entry matches, and none exactly when no entry matches |
| Chatbot.MissingCellsCoincide | app/components/chatbot.py:514-516 | two missing cells match in the pair analysis (both display "nan") but not in the score (NaN equals nothing) |
| Chatbot.Confianza | app/components/chatbot.py:539 | confidence is high exactly from 70 and low exactly below 50 |
| Chatbot.VeredictoDe | app/components/chatbot.py:550-557 | the verdict tiers are 85, 70 and 50 |
| Chatbot.VerdictMatchesConfidence | app/components/chatbot.py:539-557 | the two top verdicts are exactly the high confidence, and the bottom verdict exactly the low one |
| Chatbot.ConsejoPara | app/components/chatbot.py:918-925 | a tip exists exactly for fumador, orden, bioritmo and mascotas |
| Chatbot.ConsejosFactores | app/components/chatbot.py:916-925 | each mismatched factor with a tip contributes it; no mismatch gives no tip |
| Chatbot.Consejos | app/components/chatbot.py:912-932 | the advice is never empty and ends with the communication tip from 70, else the meetings tip |
| Chatbot.FallbackUnreachable | app/components/chatbot.py:932 | the "Excelente base" line is never produced |
| Chatbot.AnalizarPar | app/components/chatbot.py:471-566 | errors come in this order: empty table, no `id_inquilino` column, first id missing, second id missing, equal ids, no `nombre` column; an analysis happens exactly past all of them; its factors are the analysis of the two rows, its matches, confidence, verdict and advice are those of that analysis and its score; the score is the engine's when it answers, otherwise the fallback in [0, 95] |
| Chatbot.Where | app/components/chatbot.py:580 | the matching positions, in table order |
| Chatbot.WhereComplete | app/components/chatbot.py:580 | every matching position is listed |
| Chatbot.Otros | app/components/chatbot.py:580 | only positions whose id differs from the base resident's |
| Chatbot.OtrosComplete | app/components/chatbot.py:580 | every other resident is listed |
| Chatbot.Candidatos | app/components/chatbot.py:588-616 | the first min(20, n) other residents, in table order, each with its score |
| Chatbot.SumBounds | app/components/chatbot.py:644 | a sum of scores in [lo, hi] lies between n·lo and n·hi |
| Chatbot.Recomendar | app/components/chatbot.py:568-659 | errors in order: empty table, no `id_inquilino` column, unknown id, then a missing name column or no other resident; otherwise the candidates sorted descending, the top 5, the count of scores from 70 and the mean of the top 10 |
| Chatbot.GenerarRecomendaciones | app/components/chatbot.py:568-659 | the loop and the sort compute the recommendation |
| Chatbot.Shortlist | app/components/chatbot.py:580-631 | at most 20 candidates and 5 shown; a sorted, stable permutation of the candidates; the shown ones dominate the rest; the base resident is excluded |
| Chatbot.MeanBounds | app/components/chatbot.py:644 | a mean of values in [lo, hi] lies in [lo, hi] |
| Chatbot.MeanWithin | app/components/chatbot.py:644 | the mean of a non-empty list of scores stays within their bounds |
| Chatbot.PrefixWithin | app/components/chatbot.py:619-644 | a prefix of the sorted list keeps the candidates' bounds |
| Chatbot.SortedMeanWithin | app/components/chatbot.py:619-644 | the top-10 mean of the sorted candidates stays within the candidates' bounds |
| Chatbot.AverageBounds | app/components/chatbot.py:644 | the reported average lies within the bounds of the candidates' scores |
| Chatbot.Representatividad | app/components/chatbot.py:718 | high exactly above 40 percent, low exactly at 20 or below |
| Chatbot.BusquedaDetallada | app/components/chatbot.py:661-739 | empty table, no term, missing column and no result are the errors in that order; found rows all carry the searched value; a listing without `nombre` or `id_inquilino` columns or with a text age among them is the search's error, any other gives the share of found rows times 100, in (0, 100], its representativity band, the first 15 shown and a count of the rest |
| Chatbot.SearchComplete | app/components/chatbot.py:703 | every row carrying the searched value is found |
| Chatbot.SearchNoResults | app/components/chatbot.py:702-707 | "no result" means no row carries the searched value |
| Chatbot.SearchAgreesAsWritten | app/components/chatbot.py:661-739 | with the corrected table the search answers as the original for every message without the three shadowed terms |
| Chatbot.Comunes | app/components/chatbot.py:934-944 | exactly the "factor: value" labels of the equal factors in both rows |
| Chatbot.Diferencias | app/components/chatbot.py:946-956 | exactly the unequal factors in both rows |
| Chatbot.CommonOrDifferent | app/components/chatbot.py:936-956 | when all five factors are shared, each is common or different |
| Chatbot.DifferencesSymmetric | app/components/chatbot.py:946-956 | the differences do not depend on which resident comes first |
| Chatbot.Rasgos | app/components/chatbot.py:960-972 | at most four traits |
| Chatbot.Presentes | app/components/chatbot.py:960-972 | the profile columns kept are exactly those of the list the row has |
| Chatbot.RasgosDePresentes | app/components/chatbot.py:960-972 | one trait per present column, in column order, each read from its own column |
| Chatbot.RasgosInOrder | app/components/chatbot.py:960-972 | the four tests add the traits of fumador, deporte, orden and bioritmo, in that order, for the columns the row has |
| Chatbot.PerfilResumen | app/components/chatbot.py:958-974 | the summary holds min(3, n) traits for the n profile columns the row has: the i-th is the trait of the i-th present column in the order fumador, deporte, orden, bioritmo |
| Chatbot.ProfileDropsRhythm | app/components/chatbot.py:971-974 | with all four columns the rhythm trait never appears |
| Chatbot.Oportunidades | app/components/chatbot.py:869-880 | empty, under 10, under 50 and from 50 give the four outlooks |
| Chatbot.OutlookMonotone | app/components/chatbot.py:874-880 | a larger population never gives a worse outlook |
| LimpiarInquilinos.DefaultsNotNull | scripts/limpiar_inquilinos.py:14-27 | twelve defaults, none of them null-like |
| LimpiarInquilinos.AmongIndex | scripts/limpiar_inquilinos.py:44 | every default's field is among the defaults |
| LimpiarInquilinos.AmongWitness | scripts/limpiar_inquilinos.py:44 | a field among the defaults has a position |
| LimpiarInquilinos.CambiosHasta | scripts/limpiar_inquilinos.py:43-46 | a field is changed exactly when it is a default field and absent or null-like, and never to a null-like value |
| LimpiarInquilinos.CambiosSize | scripts/limpiar_inquilinos.py:44-46 | no more changes than defaults considered |
| LimpiarInquilinos.Cambios | scripts/limpiar_inquilinos.py:43-46 | at most 12 changes, each to a field that is absent or null-like, and none to a null-like value |
| LimpiarInquilinos.ChangedIff | scripts/limpiar_inquilinos.py:45-46 | a default field is changed exactly when it is absent or null-like |
| LimpiarInquilinos.CalcularCambios | scripts/limpiar_inquilinos.py:43-46 | the loop computes the changes of the document |
| LimpiarInquilinos.CambiosCon | scripts/limpiar_inquilinos.py:43-46 | the loop over any null-free default list computes the changes for it |
| LimpiarInquilinos.CambiosStep | scripts/limpiar_inquilinos.py:44-46 | one loop step adds the current field exactly when it is absent or null-like |
| LimpiarInquilinos.CleanedKeys | scripts/limpiar_inquilinos.py:48 | no field is removed, and only default fields are added |
| LimpiarInquilinos.NothingElseChanges | scripts/limpiar_inquilinos.py:45-48 | a field that is present and not null-like keeps its value |
| LimpiarInquilinos.CleanedComplete | scripts/limpiar_inquilinos.py:14-48 | after cleaning every default field is present and not null-like |
| LimpiarInquilinos.Idempotent | scripts/limpiar_inquilinos.py:14-45 | a cleaned document needs no change, so cleaning twice is cleaning once |
| LimpiarInquilinos.Actualizados | scripts/limpiar_inquilinos.py:47-49 | at most one update per document |
| LimpiarInquilinos.CountersStep | scripts/limpiar_inquilinos.py:47-50 | each document adds one update when it changes, and its change count to the total |
| LimpiarInquilinos.Unchanged | scripts/limpiar_inquilinos.py:47-48 | a document without changes is left as it is |
| LimpiarInquilinos.CountersBounds | scripts/limpiar_inquilinos.py:47-50 | updated documents ≤ corrected fields ≤ 12 × updated documents |
| LimpiarInquilinos.Limpiados | scripts/limpiar_inquilinos.py:42-51 | every document is replaced by its cleaned form, in order |
| LimpiarInquilinos.SecondRunUpdatesNothing | scripts/limpiar_inquilinos.py:14-51 | a second run updates no document, corrects no field and changes nothing |
| LimpiarInquilinos.Coleccion.constructor | scripts/limpiar_inquilinos.py:34-35 | the collection holds the documents read |
| LimpiarInquilinos.Coleccion.Limpiar | scripts/limpiar_inquilinos.py:39-51 | the collection becomes the cleaned documents, and the two counters are the updated documents and the corrected fields |
| Common.FindRow | app/components/chatbot.py:488-489 | `df[df.id == x].iloc[0]`: the first row with that id, and none exactly when no row has it |
| Common.Take | app/components/chatbot.py:631 | `s[:n]`: the first min(n, len) elements |
| Common.Last | app/components/chatbot.py:89 | `s[-n:]`: the last min(n, len) elements |
| Sorting.SortDesc | app/components/chatbot.py:619 | the sorted list is a permutation of the input |
| Sorting.SortDescSorted | app/components/chatbot.py:619 | the result is in descending key order |
| Sorting.StableOnTies | app/components/chatbot.py:619 | entries with equal keys keep their input order, as Python's stable sort does |
| Sorting.PrefixDominates | app/components/chatbot.py:631 | in a descending list every entry of a prefix is at least every entry after it |

## Left out

- Streamlit rendering, charts and the statistics text (`generar_estadisticas_detalladas`, help text, greetings): these are UI output. Dispatch chooses the branch, but the reply prose is not modelled.
- The reply texts, `round(..., 1)`, f-string formatting and emoji: values are kept as reals and as structured results instead.
- MongoDB reads and writes: the store is a sequence of documents, and `update_one` is the map update `doc + cambios`.
- sklearn, SHAP, fairlearn, joblib and json: their results are parameters. A file's existence and readability are booleans, and a raising call is `None`/`Raises`.
- Training (`entrenar_modelo_completo`, `_guardar_modelos`, the sub-model fits, `_evaluar_modelos`): these are foreign numerics.
- Randomness, uuid and clocks: a draw is a parameter. The generic random reply and the time-based fallback id are taken as given values. The `created_at` timestamp the form stamps (a schema field whose default is `datetime.utcnow`) is not modelled.
- IaEngine.SensitiveFeatures: passes the displayed `genero` text ("nan" for a missing cell), whereas the source passes the raw values, on which `np.unique` raises when a NaN sits among strings and that attribute is then skipped; the model covers this only through the fairlearn input answering that it raised.
- Timestamps in chat messages and reports are opaque integers, or not modelled.
- The mean ages in the search reply (only whether `mean()` raises on a text age is modelled), `obtener_analisis_grupo` (assumed not to raise beyond that), `obtener_perfil_predominante` and `obtener_recomendacion_sistema`: statistics text outside the named rules.
- pandas dtype conversion: a `None` in a numeric column is not turned into NaN. A cell that the record lacks reads as NaN.
- `re.findall(r'\d+')` matches only ASCII digits here, not every Unicode digit. `str.lower`/`title` are modelled for the ASCII and Latin-1 letters, including the full mappings of 'ß' ("Ss"), 'ÿ' ('Ÿ') and 'µ' (Greek capital mu) and the cased 'ª' and 'º', and for the three letters outside Latin-1 those mappings produce; every other character outside Latin-1 is treated as having no case. `str.strip` (also inside `int()`) strips space, tab, newline, carriage return, vertical tab and form feed only, not the other characters Python counts as white space.
- The integer coercion pydantic applies, and the `astype(int)` of the labels, are limited to integers and strings of ASCII digits; the cedula's `int()` (Common.PyInt) also strips blanks, reads a sign and allows underscores between digits, but not non-ASCII digits.
- The messages of caught exceptions: an error is its case of a datatype, without its text.
- Chatbot.AnalizarPar and Chatbot.Recomendar take the engine's percentage as an input (`None` when it is untrained or answered with an error), instead of calling `IaEngine.CompatibilidadAvanzada`.
- Sorting.SortDesc: Python sorts the list in place; the model sorts a sequence value (a stable insertion sort with the same result).
- Chatbot.BusquedaDetallada is parametrised by its term table. The model's search uses the corrected table `BusquedasCorregidas` (see Findings). `SearchAgreesAsWritten` shows it agrees with the original table except on the three shadowed terms.
- Chatbot.PerfilResumen: the joined text is not modelled, only the list of traits.
- IaEngine.Engine.AnalizarSesgosModelo takes the model's predictions as an option (`None` when encoding the features or `predict` raises) and fairlearn's answer per attribute as inputs; `obtener_dataset` is the frame given. IaEngine.ObtenerMetricasEticas takes the analysis's report as an input; IaEngine.Engine.MetricasEticas runs the analysis on the same frame. The scaler that `_preparar_datos` refits is not part of the engine state: the scaled features only feed the foreign model.
- IaEngine.PrepararDatos: one-hot encoding, scaling and feature-name expansion are foreign and not modelled; only the string features and the labels are.
- IaEngine.Prediction: the mean of the encoded pair and the scaler are foreign; the model keeps only which calls can fail.

## Findings

| source | as written | input that shows it | evidently intended | confidence | as-written member | corrected member |
|---|---|---|---|---|---|---|
| app/components/chatbot.py:668-694 | terms are tried in dictionary order and the first substring wins, so "fumador" is tried before "no fumador", "mascota" before "sin mascota" and "ordenad" before "desordenad" | "busca no fumador" searches for `fumador` = "si"; the three longer terms can never be chosen | each longer term is tried before the term it contains, so "no fumador" finds non-smokers | not executed | Chatbot.ShadowedTerms, Chatbot.NonSmokerSearchFindsSmokers | Chatbot.CorrectedNonSmokers, Chatbot.CorrectedNoPets, Chatbot.CorrectedUntidy, Chatbot.CorrectedAgrees |
| app/core/inquilino_schema.py:66 | the demo identifier is `uuid % 1000000`, which can be 0, while the schema demands `id_inquilino > 0` | a uuid that is a multiple of 1000000 gives id 0, and validation raises | an identifier in 1..1000000 such as `uuid % 1000000 + 1` | not executed | InquilinoSchema.DemoIdZeroRejected | InquilinoSchema.DemoIdAlwaysValid |
