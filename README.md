# ha-mlops-pipeline core, modelled in Dafny

This project models the in-memory decision logic of the MLOps lab repository and proves properties of it:

- **Drift detection and model monitoring.** `DriftDetector` keeps a reference matrix and runs one two-sample test per feature. It grades each p-value on a five-level severity table and summarises the results. `ModelMonitor` keeps an append-only metrics history, checks the MAE and R² thresholds and computes history statistics.
- **Serving bookkeeping.** `ModelServer` counts successful requests, failed requests and latency. It has a readiness guard and reports health and metrics. `validate_input` checks the shape of a request.
- **Retrain trigger.** Once the MAE and R² are fetched, the trigger decides whether the model drifted. It computes a relative drift score, writes an ordered reason text and decides whether to dispatch the retraining workflow.
- **ETL cleaning.** Customer rows go through three filters in a fixed order: drop null emails, keep the first row per customer id, and keep emails containing '@'. The e-mail domain and the age bucket are then derived, and a quality score is computed.
- **ONNX opset clean-up.** The `opset_import` list is merged into one entry per domain. Each entry keeps the highest version, and domains stay in first-occurrence order. The duplicate check decides which file gets quantized.
- **Model lifecycle.** This covers the supported model types and their default hyper-parameters, the fitted state, the metric keys `train` records, the input checks of `predict`, and `save`/`load`.

Files:
- `wrappers.dfy`: `Option` and `Result`.
- `seqs.dfy`: subsequences, filter, map, distinctness and join.
- `ratio.dfy`: a fraction of naturals lies in [0, 1].
- `drift.dfy`, `serving.dfy`, `retrain.dfy`, `etl.dfy`, `onnx.dfy` and `trainer.dfy`: one module per source file, or per pair of files for ONNX.

Where the source updates an object in place, the model uses a class: `DriftDetector`, `ModelMonitor`, `ModelServer`, `ModelProto` and `CaliforniaHousingModel`. Its methods state the new state in terms of the old one. Computations that are pure expressions in the source are functions with lemmas about them.

Things outside the program become parameters:
- the Kolmogorov–Smirnov test is a function parameter `ks`;
- the model call and its measured latency in `predict` are a `ModelOutcome` parameter;
- the two metric query results are sequences;
- the HTTP response is an `HttpOutcome`;
- number formatting is a parameter `fmt`;
- the estimator's scores are `Scores` values;
- whether a file load or save succeeded is an `Option` or a `bool`.

Where the code and its description differ, the model follows the code:
- `detect_drift` iterates over the stored feature names, not over the columns. Supplying more names than the data has columns fails the column lookup, which is modelled as `ColumnOutOfRange`. Supplying fewer names tests only those columns.
- `age_to_group` maps every age below 30, including ages under 20, to "20-29".
- `validate_input` accepts booleans, because Python's `bool` is a subclass of `int`.

## Model

| member | source | states |
|---|---|---|
| Drift.Matrix.Column | day3/lab3-2_monitoring-cicd/src/monitoring/drift.py:134-135 | column `i` has one entry per row, each the row's `i`-th value |
| Drift.ReferenceNames | day3/lab3-2_monitoring-cicd/src/monitoring/drift.py:98-100 | non-empty given names are kept as they are; absent or empty names become `feature_0 .. feature_{F-1}`, one per column |
| Drift.SyntheticNamesDistinct | day3/lab3-2_monitoring-cicd/src/monitoring/drift.py:98-100 | the synthesised feature names are pairwise different |
| Drift.DriftDetector.constructor | day3/lab3-2_monitoring-cicd/src/monitoring/drift.py:68-83 | stores the significance level and method; no reference is set |
| Drift.DriftDetector.SetReference | day3/lab3-2_monitoring-cicd/src/monitoring/drift.py:85-100 | replaces the reference with the given matrix and the chosen names |
| Drift.DriftDetector.DetectDrift | day3/lab3-2_monitoring-cicd/src/monitoring/drift.py:106-160 | no reference gives the "not set" error; differing column counts give the mismatch error carrying both counts; otherwise one result per feature name, in order, holding the test's statistic and p-value for that column, flagged iff p < significance level, graded by the severity table; the overall flag holds iff some result is flagged |
| Drift.DriftLevelOf | day3/lab3-2_monitoring-cicd/src/monitoring/drift.py:162-173 | each level owns one band: none for p ≥ 0.1, low for 0.05 ≤ p < 0.1, medium for 0.01 ≤ p < 0.05, high for 0.001 ≤ p < 0.01, critical below 0.001 |
| Drift.DriftLevelCountsThresholds | day3/lab3-2_monitoring-cicd/src/monitoring/drift.py:162-173 | the severity rank equals the number of thresholds 0.1, 0.05, 0.01, 0.001 that the p-value lies strictly below |
| Drift.DriftLevelMonotone | day3/lab3-2_monitoring-cicd/src/monitoring/drift.py:162-173 | a smaller p-value never gives a lower severity |
| Drift.DefaultSignificanceMatchesMedium | day3/lab3-2_monitoring-cicd/src/monitoring/drift.py:140-141 | at the default level 0.05 a feature is flagged exactly when its severity is medium or worse |
| Drift.MaxSeverity | day3/lab3-2_monitoring-cicd/src/monitoring/drift.py:196-200 | the worst severity bounds every result's severity and is attained by one; "none" for no results |
| Drift.DriftedFacts | day3/lab3-2_monitoring-cicd/src/monitoring/drift.py:188-195 | the flagged names are an order-preserving subsequence of all names; none flagged iff count 0; all flagged iff count equals the total; the ratio lies in [0, 1] and is 0 iff none flagged |
| Drift.GetDriftSummary | day3/lab3-2_monitoring-cicd/src/monitoring/drift.py:175-201 | total = number of results; drifted = number of result positions whose flag is set, repeated names counted each time; the names are the flagged results' names in input order, one per flagged result; score = drifted/total in [0, 1], 0 for no results and 0 iff nothing drifted; max severity as above |
| Drift.ModelMonitor.constructor | day3/lab3-2_monitoring-cicd/src/monitoring/drift.py:207-221 | stores both thresholds; the history starts empty |
| Drift.ModelMonitor.RecordMetrics | day3/lab3-2_monitoring-cicd/src/monitoring/drift.py:223-226 | appends exactly the given metrics at the end of the history; thresholds unchanged |
| Drift.ModelMonitor.CheckPerformance | day3/lab3-2_monitoring-cicd/src/monitoring/drift.py:228-256 | healthy iff MAE ≤ its threshold and R² ≥ its threshold, iff there is no warning; one warning per violated condition, the MAE warning first |
| Drift.ModelMonitor.ShouldRetrain | day3/lab3-2_monitoring-cicd/src/monitoring/drift.py:258-269 | retrain iff MAE exceeds its threshold or R² falls below its threshold (the negation of healthy) |
| Drift.StatsOf | day3/lab3-2_monitoring-cicd/src/monitoring/drift.py:276-292 | mean is the sum over the count; min and max are values of the list, bound every value, and enclose the mean |
| Drift.StatisticsOf | day3/lab3-2_monitoring-cicd/src/monitoring/drift.py:271-293 | the "no metrics recorded" value iff the history is empty; otherwise count = history length and the MAE and R² statistics are `StatsOf` of the recorded MAE and R² values, so min and max are recorded values and min ≤ mean ≤ max |
| Drift.ModelMonitor.GetStatistics | day3/lab3-2_monitoring-cicd/src/monitoring/drift.py:271-293 | the statistics of the current history |
| Drift.StatisticsExample | day3/lab3-2_monitoring-cicd/tests/test_monitoring.py:234-249 | MAE values 0.35, 0.38, 0.40 give count 3, mean 1.13/3 (about 0.3767), min 0.35, max 0.40 |
| Drift.ShareBelowFacts | day3/lab3-2_monitoring-cicd/src/monitoring/drift.py:187-188 | the share of values below the level lies in [0, 1] and is 0 iff no value is below it |
| Drift.DriftScoreOfResults | day3/lab3-2_monitoring-cicd/src/monitoring/drift.py:187-188 | when each result is flagged iff its p-value is below 0.05, the summary's score is the share of p-values below 0.05 |
| Drift.CalculateDriftScore | day3/lab3-2_monitoring-cicd/src/monitoring/drift.py:296-316 | fails exactly on a column-count mismatch, with both counts; otherwise the score is the share of columns whose test p-value is below 0.05, lies in [0, 1], and is 0 iff no column's p-value is below 0.05 |
| Serving.ModelServer.constructor | day3/lab3-2_monitoring-cicd/src/serving/api.py:64-81 | all counters start at zero; ready iff a model is present |
| Serving.ModelServer.Predict | day3/lab3-2_monitoring-cicd/src/serving/api.py:83-115 | not ready: "not loaded" error and no counter changes; success: one more request, latency added, errors unchanged, predictions returned with the version; model failure: one more error only, failure re-raised |
| Serving.ModelServer.HealthCheck | day3/lab3-2_monitoring-cicd/src/serving/api.py:117-123 | status "healthy" iff ready, else "not_ready"; model_loaded agrees with the status; version reported |
| Serving.MetricsOf | day3/lab3-2_monitoring-cicd/src/serving/api.py:127-142 | average latency = total/requests, 0 without requests; error rate = errors/(requests + errors), 0 when both are 0; it lies in [0, 1], is 0 iff no errors, 1 iff errors but no successful requests |
| Serving.ModelServer.GetMetrics | day3/lab3-2_monitoring-cicd/src/serving/api.py:125-143 | the metrics of the current counters |
| Serving.ValidateInput | day3/lab3-2_monitoring-cicd/src/serving/api.py:146-173 | valid iff the list is non-empty and every instance has exactly 8 entries, all numeric |
| Retrain.DriftScore | day3/lab3-2_monitoring-cicd/scripts/4_trigger_retrain.py:66-72 | the score is never negative and is 0 exactly when neither MAE nor R² drifted |
| Retrain.DriftScoreMonotone | day3/lab3-2_monitoring-cicd/scripts/4_trigger_retrain.py:70-72 | a higher MAE and a lower R² never lower the score |
| Retrain.CheckModelDrift | day3/lab3-2_monitoring-cicd/scripts/4_trigger_retrain.py:54-86 | an empty query gives "no metrics" with no values and score 0; otherwise detected iff MAE > 0.45 or R² < 0.75, the score as above, and the reason is the MAE reason, then the R² reason, joined by "; ", or "Model performance normal" |
| Retrain.TriggerGithubWorkflow | day3/lab3-2_monitoring-cicd/scripts/4_trigger_retrain.py:89-143 | dry run succeeds without a request; no token fails without a request; otherwise dispatches retrain-model.yaml on main with the user and score, succeeding exactly on status 204 |
| Retrain.ScoreToSend | day3/lab3-2_monitoring-cicd/scripts/4_trigger_retrain.py:203 | a score of exactly 0 is sent as 0.5; any other score is sent as it is; so a non-negative score always sends a positive value |
| Retrain.CheckDriftSendsRealScore | day3/lab3-2_monitoring-cicd/scripts/4_trigger_retrain.py:187-203 | when drift was detected, the score sent is the real, positive drift score |
| Retrain.RunTrigger | day3/lab3-2_monitoring-cicd/scripts/4_trigger_retrain.py:181-220 | triggers iff force, or check-drift with drift detected; neither flag returns 0; exit code 1 only when a real trigger failed; the request carries the score sent |
| Etl.DropNullEmails | day1/lab1-3_batch-pipeline/scripts/1_etl_pipeline/etl_pipeline.py:161-164 | a row is kept iff it is in the frame and has an email; the kept rows keep their order; the result has one row per position with an email, so repeated rows all survive |
| Etl.DedupFrom | day1/lab1-3_batch-pipeline/scripts/1_etl_pipeline/etl_pipeline.py:166-169 | an order-preserving subsequence with pairwise distinct ids, avoiding the ids already seen, each kept row the first of its id, and every unseen id represented |
| Etl.DedupFirstOccurrenceOrder | day1/lab1-3_batch-pipeline/scripts/1_etl_pipeline/etl_pipeline.py:166-169 | the kept ids are ordered by the index where each first occurs in the frame |
| Etl.DropDuplicateIds | day1/lab1-3_batch-pipeline/scripts/1_etl_pipeline/etl_pipeline.py:166-169 | keep="first": an order-preserving subsequence with distinct ids, in first-occurrence order of the ids; a row is kept iff it is the first row of its id |
| Etl.KeepValidEmails | day1/lab1-3_batch-pipeline/scripts/1_etl_pipeline/etl_pipeline.py:171-174 | a row is kept iff it is in the frame and its email contains '@'; the kept rows keep their order; the result has one row per matching position, so repeated rows all survive |
| Etl.SubseqDistinctIds | day1/lab1-3_batch-pipeline/scripts/1_etl_pipeline/etl_pipeline.py:171-174 | deleting rows after de-duplication keeps ids distinct |
| Etl.CleanRows | day1/lab1-3_batch-pipeline/scripts/1_etl_pipeline/etl_pipeline.py:158-176 | the cleaned frame has only emails containing '@', distinct ids, is an order-preserving subsequence of the raw frame, and is no longer than it; a row survives iff its email has an '@' and it is the first row of its id among the rows with an email (null filter, then de-duplication, then the '@' filter); its length is the number of such rows |
| Etl.CleanDropsInvalidFirstEmail | day1/lab1-3_batch-pipeline/scripts/1_etl_pipeline/etl_pipeline.py:161-174 | a customer whose first row with an email has no '@' in it has no row in the cleaned frame, even when a later row of theirs is valid |
| Etl.Split | day1/lab1-3_batch-pipeline/scripts/1_etl_pipeline/etl_pipeline.py:182 | at least one piece, none containing the separator, joining them gives the string back, at least two pieces iff the separator occurs |
| Etl.SplitSecondPiece | day1/lab1-3_batch-pipeline/scripts/1_etl_pipeline/etl_pipeline.py:182 | a string with the separator is piece 0, the separator, piece 1, then nothing or the separator and the rest |
| Etl.EmailDomain | day1/lab1-3_batch-pipeline/scripts/1_etl_pipeline/etl_pipeline.py:181-182 | the domain is the text after the first '@' up to the next '@' or the end, and contains no '@' |
| Etl.AgeToGroup | day1/lab1-3_batch-pipeline/scripts/1_etl_pipeline/etl_pipeline.py:186-197 | every age lands in one of the five buckets; ages 20..59 land in their decade's bucket, ages below 20 in "20-29", and "60+" holds exactly the ages of 60 and over |
| Etl.AgeToGroupMonotone | day1/lab1-3_batch-pipeline/scripts/1_etl_pipeline/etl_pipeline.py:186-197 | an older customer never lands in an earlier bucket |
| Etl.Enrich | day1/lab1-3_batch-pipeline/scripts/1_etl_pipeline/etl_pipeline.py:181-199 | the cleaned row is kept unchanged; the domain column is the email's text after the first '@' up to the next '@' or the end (`EmailDomain`), and the age-group column is `AgeToGroup` of the age, "60+" iff the age is 60 or over |
| Etl.QualityScore | day1/lab1-3_batch-pipeline/scripts/1_etl_pipeline/etl_pipeline.py:222-225 | no score for an empty raw frame; otherwise cleaned/total × 100, which lies in [0, 100] when the cleaned frame is no larger and is 100 when nothing was removed |
| Etl.Transform | day1/lab1-3_batch-pipeline/scripts/1_etl_pipeline/etl_pipeline.py:158-199 | the silver rows are the enriched cleaned rows in order; each removal count is the size drop of its own stage (null filter, de-duplication, '@' filter), and together they add up to the rows removed; the quality is the score of the raw and silver row counts, in [0, 100] for a non-empty frame and none for an empty one |
| Onnx.NormalizeDefault | day3/lab3-3_model-optimization/scripts/1_onnx_conversion.py:67 | an unset or empty domain becomes ""; any other domain is kept |
| Onnx.Collect | day3/lab3-3_model-optimization/scripts/1_onnx_conversion.py:65-70 | the dictionary's keys are pairwise distinct and each key has a version |
| Onnx.CollectOpsets | day3/lab3-3_model-optimization/scripts/1_onnx_conversion.py:65-70 | the first loop leaves in its key list and version map exactly the dictionary `Collect` describes |
| Onnx.CollectKeys | day3/lab3-3_model-optimization/scripts/1_onnx_conversion.py:65-70 | the keys are exactly the normalised input domains |
| Onnx.CollectMax | day3/lab3-3_model-optimization/scripts/1_onnx_conversion.py:66-70 | each key's version is at least every input version of that domain and equal to one of them |
| Onnx.MergeOpsets | day3/lab3-3_model-optimization/scripts/1_onnx_conversion.py:59-82 | each domain appears at most once in the output, and the output domains are exactly the normalised input domains |
| Onnx.MergeMaxVersion | day3/lab3-3_model-optimization/scripts/1_onnx_conversion.py:69-80 | each output version is the maximum input version of its domain |
| Onnx.MergeFirstOccurrenceOrder | day3/lab3-3_model-optimization/scripts/1_onnx_conversion.py:66-80 | output domains are ordered by where they first occur in the input |
| Onnx.MergeCanonical | day3/lab3-3_model-optimization/scripts/1_onnx_conversion.py:65-80 | a list with set, distinct domains comes back unchanged |
| Onnx.MergeIdempotent | day3/lab3-3_model-optimization/scripts/1_onnx_conversion.py:59-82 | cleaning twice equals cleaning once |
| Onnx.CleanOpset | day3/lab3-3_model-optimization/scripts/1_onnx_conversion.py:59-82 | returns the same model, whose opset list becomes the merge of the old one; no other field changes |
| Onnx.HasDuplicate | day3/lab3-3_model-optimization/scripts/2_quantization.py:125-126 | the duplicate check holds iff two entries share a normalised domain |
| Onnx.MergeHasNoDuplicate | day3/lab3-3_model-optimization/scripts/2_quantization.py:66-81 | the merged list never passes the duplicate check |
| Onnx.CleanOnnxOpsetFile | day3/lab3-3_model-optimization/scripts/2_quantization.py:57-88 | succeeds iff loading and saving succeed; the saved model is the loaded one with its opsets merged |
| Onnx.ChooseModelToQuantize | day3/lab3-3_model-optimization/scripts/2_quantization.py:124-144 | the cleaned file is quantized iff there was a duplicate and cleaning succeeded, and it has no duplicate; otherwise the original |
| Trainer.ParseModelType | day3/lab3-2_monitoring-cicd/src/model/trainer.py:48-52 | a key is accepted iff it is one of the three supported keys, and it names the type it parses to |
| Trainer.ParseKeyOf | day3/lab3-2_monitoring-cicd/src/model/trainer.py:25-29 | every supported type's key parses back to it |
| Trainer.DefaultParams | day3/lab3-2_monitoring-cicd/src/model/trainer.py:60-77 | both tree ensembles default to 100 estimators and seed 42; the forest has exactly the keys n_estimators, max_depth, random_state, n_jobs, with depth 10 and every core; boosting has exactly n_estimators, max_depth, learning_rate, random_state, with depth 5 and learning rate 0.1; only boosting has a learning rate; linear regression and unknown keys get no parameters |
| Trainer.ChooseParams | day3/lab3-2_monitoring-cicd/src/model/trainer.py:55 | non-empty given parameters are used; absent or empty ones fall back to the type's defaults |
| Trainer.ChooseParamsNonEmpty | day3/lab3-2_monitoring-cicd/src/model/trainer.py:55 | only linear regression can end up with no parameters |
| Trainer.ChooseParamsStable | day3/lab3-2_monitoring-cicd/src/model/trainer.py:215-218 | parameters a model can hold are kept when passed back through the constructor |
| Trainer.NewModel | day3/lab3-2_monitoring-cicd/src/model/trainer.py:36-58 | unsupported key: "unsupported model type" error; otherwise a new model of that type with the chosen parameters, no estimator, unfitted, no metrics |
| Trainer.CaliforniaHousingModel.constructor | day3/lab3-2_monitoring-cicd/src/model/trainer.py:54-58 | no estimator, not fitted, empty metrics |
| Trainer.RecordTraining | day3/lab3-2_monitoring-cicd/src/model/trainer.py:129-140 | the keys are the old ones plus the three train keys, plus the three val keys when validation data was given; those keys hold the scores; other keys are untouched |
| Trainer.CaliforniaHousingModel.Train | day3/lab3-2_monitoring-cicd/src/model/trainer.py:103-143 | builds the estimator from the type and parameters, marks the model fitted, records the metrics, with val keys only when both validation inputs are given, and returns the metrics |
| Trainer.CaliforniaHousingModel.CheckPredictInput | day3/lab3-2_monitoring-cicd/src/model/trainer.py:145-167 | unfitted: "not fitted" error whatever the input; fitted: ok iff there are 8 columns, else "expected 8 features" with the count seen; a single sample becomes one row |
| Trainer.CaliforniaHousingModel.Save | day3/lab3-2_monitoring-cicd/src/model/trainer.py:196-207 | refuses an unfitted model; otherwise writes the estimator, the type's key, the parameters and the metrics |
| Trainer.Load | day3/lab3-2_monitoring-cicd/src/model/trainer.py:210-224 | an unsupported type gives the "unsupported model type" error for that key; otherwise the constructor's parameter choice, the saved estimator, the saved metrics or none when the entry is missing, and fitted |
| Trainer.SaveThenLoad | day3/lab3-2_monitoring-cicd/src/model/trainer.py:196-224 | loading what a fitted model saved gives back the same type, parameters, estimator and metrics, fitted |

## Left out

- The Kolmogorov–Smirnov statistic and p-value: floating-point numerics from a library, so the model takes them as a parameter. The same goes for any exception the test itself could raise.
- `round(…)`, `np.std` and the `to_dict` methods: float formatting and a statistic with no ordering claim. The model keeps exact sums, means, minima and maxima.
- Drift.ModelMonitor.CheckPerformance: warnings are structured values carrying the metric and threshold, not the formatted text lines.
- Retrain.CheckModelDrift: reasons use the formatter `fmt` in place of `{:.4f}`. The literal thresholds are written as the source prints them.
- sklearn fitting, prediction and the metric functions, and joblib: foreign libraries. The estimator is a value built from its type and parameters, and scores are parameters. `load_data` and `evaluate` only call these libraries and are not modelled.
- Wall-clock latency in `predict`: nondeterministic, so it is an input.
- Prometheus queries, the GitHub REST POST, S3/awswrangler, MLflow and kubectl: I/O. Their outcomes are parameters.
- The argparse `--threshold` flag of the retrain trigger: it is parsed but never used.
- The issue counts that the ETL job prints before cleaning: logging only.
- Retrain.RunTrigger: the console output and the `if drift_status['mae']` display branches are not modelled.
- Trainer.CaliforniaHousingModel.CheckPredictInput: numpy shapes other than 1-D and rectangular 2-D (ragged or 3-D input) are not modelled, and the estimator's prediction itself is outside the model.
- Trainer.CaliforniaHousingModel.Train: returns the metrics as a map value. The source returns the model's own `self.metrics` dict, so a caller's later change to it would reach the model; maps here are values and cannot alias.
- Etl.QualityScore: an empty raw frame makes the source divide by zero and stop; the model gives no score (`None`) in that case instead of an exception.
- Serving.ModelServer.Predict: the prediction array and `round(latency, 3)` come from the model outcome as given.
- ONNX loading, `onnx.checker`, onnxruntime sessions and `quantize_dynamic`: foreign calls. Only the opset-list transformation and the path choice are modelled.
- FastAPI `create_app`, pydantic schemas, `main.py` and the package `__init__` files: framework wiring with no logic.
