# Zero-shot theory generator: the decision core in Dafny

The zero-shot theory generator profiles a dataset file and infers which
machine-learning task it poses. It then suggests a pipeline, produces rule-based
"theories" and explainability advice, and fills a training-strategy panel. This
project models the decision logic of that chain and proves its properties:

- `DatasetLoader` (`core/dataset_loader.py`): `detect_dataset`.
  - It dispatches on the file suffix.
  - It turns zip member names into image classes.
  - It decides between JSON Lines and plain text.
  - It classifies the shape of a JSON document.
  - The readers (pandas, `zipfile`, `readlines` plus `json.loads`, `json.load`) arrive already evaluated, in one `Reader` value.
- `TaskInference` (`core/task_inference.py`): `infer_task`, a first-match cascade of rules with fixed confidences. Confidences are kept in hundredths (0.95 is 95).
- `InferenceScenarios`: concrete tables for which the result of `InferTask` is proved, showing the rule order at work.
- `PipelineSuggester` (`core/pipeline_suggester.py`): `suggest_pipeline`, an if-chain on the task tag with strict thresholds.
- `TheoryGenerator` (`core/theory_generator.py`): the loop that collects the rule sentences, and the mapping of the remote completion, or its error, to the `llm` text. This is the only imperative part: a method with a loop, proved against a specification function.
- `Explainability` (`core/explainability.py`): `explain_pipeline`, an ordered case-sensitive substring search over the model name.
- `App` (`ui/app.py`): `paradigm_and_strategy`.
- `FileUtils` (`utils/file_utils.py`): `extract_kaggle_slug`, two regular expressions spelled out as search functions.
- `Wrappers`, `Strings`, `Lists` and `Metadata` hold what these share:
  - `Option` and `Result`;
  - the ASCII behaviour of the Python `str` methods used;
  - first-match search and counting;
  - the metadata record, whose optional keys are `Option`s read through accessors that apply each `meta.get` default.

Facts about the code that shape the rest of the model:
- The loader takes exactly one path per suffix, with one final `read_csv` attempt and no multi-step fallback cascade.
- The loader never computes `has_datetime`, `potential_timeseries`, `potential_targets`, `numeric_columns`, `categorical_columns`, `high_cardinality_columns` or `is_datetime`. These stay optional inputs of `infer_task` and `suggest_pipeline`. The lemmas `LoadedNeverForecasts` and `LoadedNeverCatBoost` show which branches are therefore unreachable from loader output.
- In `infer_task`, the explicit-target scan checks regression and then classification for each column in turn, rather than all columns for regression first.

## Model

| member | source | states |
|---|---|---|
| DatasetLoader.DetectDataset | zero_shot_theory_generator/core/dataset_loader.py:3-65 | Suffix dispatch `.csv`, valid `.zip`, `.txt`, `.json`, then a final `read_csv`. A successful `.csv` read or fallback gives `TabularMeta` of the frame; a readable archive gives the image folder of `ImageClasses`; a successful `.txt` read gives `LinesMeta` of the first `sample_size` lines; a `.json` document gives `DocumentMeta`. A reader failure on `.csv`, `.txt` or `.json` is returned as that reader's error; only a failed fallback gives `Unsupported dataset format: <path>`. Every result satisfies the loader invariants `Loaded` (row count at most `sample_size`, `n_classes == len(classes)`, at most 5 sample lines, ...) |
| DatasetLoader.TabularMeta | zero_shot_theory_generator/core/dataset_loader.py:5-14 | `n_rows` is the kept row count, `min(total, sample_size)`. There is one column record per frame column, in order, with the frame's name, dtype, distinct count and missing fraction. No aggregate key is set |
| DatasetLoader.FirstSegment | zero_shot_theory_generator/core/dataset_loader.py:18 | `f.split("/")[0]` is the longest '/'-free prefix; it is followed by '/' when the name has one |
| DatasetLoader.ImageClasses | zero_shot_theory_generator/core/dataset_loader.py:18-20 | The classes are exactly the first segments of the member names that contain '/'. Names without '/' contribute nothing, and no class contains '/' |
| DatasetLoader.Distinct | zero_shot_theory_generator/core/dataset_loader.py:29 | Object keys have no duplicates and the same key set as the text, in first-occurrence order: a key listed before another first occurs earlier in the text |
| DatasetLoader.LinesMeta | zero_shot_theory_generator/core/dataset_loader.py:24-33 | `jsonl` exactly when there is at least one line, every kept line parsed and the first is an object; its keys and line count follow. Otherwise `text`, with the first `min(5, n)` lines as sample and `n_lines == n` |
| DatasetLoader.DocumentMeta | zero_shot_theory_generator/core/dataset_loader.py:38-48 | An object gives `json` with its keys. A non-empty list opening with an object gives `json_list` with that object's keys and the list length. Any other list (the empty one too) gives `text_list` with its length and first 5 items. Everything else gives `json_unknown` |
| Metadata.LoadedTable | zero_shot_theory_generator/core/dataset_loader.py:6-14 | The tabular record the loader builds holds `n_rows` and `columns` only; every aggregate key is absent |
| Metadata.Columns | zero_shot_theory_generator/core/pipeline_suggester.py:11 | `meta.get("columns", [])`: the table's own column list for a table, empty for every other record |
| Metadata.RowCount | zero_shot_theory_generator/core/pipeline_suggester.py:12 | `meta.get("n_rows", d)`: the row count of a table, the caller's default otherwise |
| Metadata.ClassCount | zero_shot_theory_generator/core/pipeline_suggester.py:153 | `meta.get("n_classes", d)`: the class count of an image folder, the default otherwise |
| TaskInference.ImageRule | zero_shot_theory_generator/core/task_inference.py:15-17 | Fires exactly when some column has an image-path name. It then reports `image_classification` at 0.9 with the first such column as `input` |
| TaskInference.ForecastTarget | zero_shot_theory_generator/core/task_inference.py:27-53 | The forecast target is, in order: the first declared target (0.9); if none is declared, the name of the first column named like a forecast quantity (0.9); if there is none, the first listed numeric name that is not a time column (0.85). It is absent exactly when all three are empty |
| TaskInference.TimeSeriesRule | zero_shot_theory_generator/core/task_inference.py:20-53 | Fires exactly when a time-series flag is set, some column is a time column and a forecast target exists. It then gives forecasting on the first time column, with the target and confidence of `ForecastTarget` |
| TaskInference.AnomalyRule | zero_shot_theory_generator/core/task_inference.py:56-63 | Fires exactly when some lower-cased name contains `anomaly`, `outlier`, `fraud` or `error`. It gives `anomaly_detection` at 0.9 with the first such column as target |
| TaskInference.RecommendationRule | zero_shot_theory_generator/core/task_inference.py:66-79 | Fires exactly when both a user-like and an item-like column exist. It gives `recommendation` at 0.85 with the first user-like and first item-like columns. `rating_col` is present exactly when a rating-like column exists, and is then the first one |
| TaskInference.TargetVerdict | zero_shot_theory_generator/core/task_inference.py:87-99 | For one column: regression exactly for a regression-target name with a numeric dtype. Otherwise, for a classification-target name, binary classification up to 2 distinct values and classification for 3 to 50. Nothing beyond 50 |
| TaskInference.ExplicitTargetRule | zero_shot_theory_generator/core/task_inference.py:86-99 | The verdict of the first column that has one. None exactly when no column has a verdict |
| TaskInference.QuantityRule | zero_shot_theory_generator/core/task_inference.py:103-110 | Fires exactly when a numeric column is named with a quantity term. It gives regression at 0.85 on the first such column |
| TaskInference.LabelsCasesRule | zero_shot_theory_generator/core/task_inference.py:114-117 | Fires exactly when a "labels" column with one distinct value and a "cases" column with more than one exist. It gives regression on "cases" at 0.9 |
| TaskInference.LastResort | zero_shot_theory_generator/core/task_inference.py:120-123 | Clustering (0.7) exactly when there are more than 3 numeric columns and fewer categorical than numeric columns. Otherwise unsupervised (0.5) |
| TaskInference.InferTabular | zero_shot_theory_generator/core/task_inference.py:13-123 | The tabular cascade never answers `unknown`, and its confidence is positive and at most 1.0. The order of its rules is stated by `ImageColumnFirst`, `DeclaredTargetForecasts`, `TimeSeriesNext` and the other `...Next` lemmas |
| TaskInference.InferText | zero_shot_theory_generator/core/task_inference.py:126-141 | Question answering (0.7) exactly when the joined sample contains '?'; the split-count test adds nothing. Otherwise entity recognition (0.6) exactly when more than 15% of the `split()` words, out of at least one, start with a capital. Text classification (0.8) in every other case |
| TaskInference.InferJson | zero_shot_theory_generator/core/task_inference.py:144-155 | Text classification (0.8) exactly when a text-like key and a label-like key both occur. Otherwise translation (0.7) exactly when a `text_…` or `…_text` key occurs. No result otherwise |
| TaskInference.InferTask | zero_shot_theory_generator/core/task_inference.py:1-157 | Confidence is 0 exactly for `unknown`. Image folders give object detection (0.8) above 20 classes and image classification (0.95) otherwise. Tables get `InferTabular`, never `unknown`; text gets `InferText`; `json`, `json_list` and `jsonl` get `InferJson` or `unknown` at 0; `text_list` and `json_unknown` always get `unknown` at 0 |
| TaskInference.CapitalisedThreshold | zero_shot_theory_generator/core/task_inference.py:137 | Of 20 words, 3 capitalised (exactly 15%) is not entity recognition; 4 is |
| TaskInference.ImageColumnFirst | zero_shot_theory_generator/core/task_inference.py:15-17 | An image-path column beats every other tabular rule, and the first such column is the input |
| TaskInference.DeclaredTargetForecasts | zero_shot_theory_generator/core/task_inference.py:20-40 | With the flag, a time column and a declared target, the result is forecasting on the first time column at 0.9, whatever later rules would say |
| TaskInference.AnomalyColumnNext | zero_shot_theory_generator/core/task_inference.py:56-63 | When neither the image rule nor forecasting fires, the first anomaly-named column decides: anomaly detection on it at 0.9 |
| TaskInference.TimeSeriesNext | zero_shot_theory_generator/core/task_inference.py:20-53 | Without an image column, whenever the forecasting rule fires (from either flag, with a declared, named or numeric target) its result is the answer: forecasting on the first time column with that target and confidence |
| TaskInference.RecommendationNext | zero_shot_theory_generator/core/task_inference.py:66-79 | When no earlier rule fires, the result is exactly the recommendation rule's: the first user-like and first item-like columns at 0.85, `rating_col` the first rating-like column, or absent when none exists |
| TaskInference.ExplicitTargetNext | zero_shot_theory_generator/core/task_inference.py:86-99 | When no earlier rule fires, the result is the verdict of the first column that has one |
| TaskInference.QuantityNext | zero_shot_theory_generator/core/task_inference.py:103-110 | When no earlier rule fires, the first numeric quantity-named column gives regression at 0.85 |
| TaskInference.LabelsCasesNext | zero_shot_theory_generator/core/task_inference.py:114-117 | When no earlier rule fires, a constant "labels" column beside a varying "cases" column gives regression on "cases" at 0.9 |
| TaskInference.LastResortNext | zero_shot_theory_generator/core/task_inference.py:120-123 | When no rule fires, the result is the clustering-or-unsupervised default |
| TaskInference.NoFlagNoForecast | zero_shot_theory_generator/core/task_inference.py:20 | Without a time-series flag the result is never forecasting |
| TaskInference.LoadedNeverForecasts | zero_shot_theory_generator/core/task_inference.py:20 | Metadata the loader produced never yields forecasting |
| TaskInference.CasesRuleNeedsNonNumericCases | zero_shot_theory_generator/core/task_inference.py:82-92 | Once the explicit scan has failed, every "cases" column is non-numeric, so the labels/cases rule only sees those |
| InferenceScenarios.TimeSeriesBeatsRegressionTarget | zero_shot_theory_generator/core/task_inference.py:20-40 | A date column plus a numeric "target" with a declared target gives forecasting, not regression |
| InferenceScenarios.UndeclaredTargetIsRegression | zero_shot_theory_generator/core/task_inference.py:27-53 | The same table without a declared target falls through forecasting to regression on "target" |
| InferenceScenarios.BinaryLabelScenario | zero_shot_theory_generator/core/task_inference.py:95-99 | A loaded table whose "label" column has 2 values gives binary classification on "label" at 0.9 |
| PipelineSuggester.ModelName | zero_shot_theory_generator/core/pipeline_suggester.py:24-224 | Every recipe has a `model` key except the generic unsupervised one and `{"pipeline": "unknown"}`; for every other recipe the result is `Some` of that recipe's model name |
| PipelineSuggester.ClassifierModel | zero_shot_theory_generator/core/pipeline_suggester.py:15-22 | CatBoost exactly with high cardinality and more than 1000 rows. XGBoost exactly without high cardinality, with more than 20 features and more than 1000 rows. Logistic regression exactly below 100 rows. Random forest otherwise |
| PipelineSuggester.RegressorModel | zero_shot_theory_generator/core/pipeline_suggester.py:54-59 | XGBoost exactly with more than 20 features and more than 1000 rows. Random forest for more than 10 features otherwise. Linear regression exactly for at most 10 features |
| PipelineSuggester.ForecastPlan | zero_shot_theory_generator/core/pipeline_suggester.py:77-109 | LSTM above 1000 rows, Prophet above 100, ARIMA otherwise, with 3, 2 or 1 feature steps, always starting with lag features |
| PipelineSuggester.ImageModel | zero_shot_theory_generator/core/pipeline_suggester.py:153-159 | EfficientNetB7 above 100 classes, ResNet50 above 10, ResNet18 otherwise |
| PipelineSuggester.ClusterModel | zero_shot_theory_generator/core/pipeline_suggester.py:146 | KMeans exactly below 10 columns, otherwise DBSCAN |
| PipelineSuggester.Reduction | zero_shot_theory_generator/core/pipeline_suggester.py:219 | PCA exactly below 20 columns, otherwise t-SNE |
| PipelineSuggester.RegressionPreprocessing | zero_shot_theory_generator/core/pipeline_suggester.py:43-48 | Impute and scale, followed by one-hot encoding exactly when categorical columns are listed |
| PipelineSuggester.SuggestPipeline | zero_shot_theory_generator/core/pipeline_suggester.py:1-224 | `{"pipeline": "unknown"}` exactly for `unknown` and for classification on non-tabular metadata. For each task: its recipe, model choice, loss and defaults (`n_rows` 0, `n_classes` 2, "Period", "Revenue", "anomaly"). The pretrained models are YOLO, DistilBERT, BERT, BERT-NER and MarianMT for object detection, text classification, question answering, entity recognition and translation. Collaborative filtering exactly when `rating_col` is present. Losses: CrossEntropy for classification, image classification and text classification, BinaryCrossentropy for binary classification, MSE for regression and for the forecaster |
| PipelineSuggester.CatBoostBoundary | zero_shot_theory_generator/core/pipeline_suggester.py:15 | 1000 rows is not CatBoost, 1001 is |
| PipelineSuggester.ForecastStepsGrow | zero_shot_theory_generator/core/pipeline_suggester.py:77-109 | More rows never drop a feature-engineering step |
| PipelineSuggester.LoadedNeverCatBoost | zero_shot_theory_generator/core/pipeline_suggester.py:13-16 | Loaded metadata never gets CatBoost |
| PipelineSuggester.TabularAlwaysHasPipeline | zero_shot_theory_generator/core/pipeline_suggester.py:5 | Any table, after inference, gets a real recipe |
| PipelineSuggester.ImageFolderModels | zero_shot_theory_generator/core/pipeline_suggester.py:152-175 | An image folder gets YOLO above 20 classes, ResNet50 above 10, ResNet18 otherwise; EfficientNetB7 is unreachable from image folders |
| PipelineSuggester.TableImageColumnUsesResNet18 | zero_shot_theory_generator/core/pipeline_suggester.py:153 | Image classification from a table column uses the default 2 classes, so ResNet18 |
| PipelineSuggester.LoadedClassifierModels | zero_shot_theory_generator/core/pipeline_suggester.py:15-22 | The classifier a loaded table can get: XGBoost, logistic regression or random forest |
| TheoryGenerator.TheoryFor | zero_shot_theory_generator/core/theory_generator.py:13-16 | The multi-class sentence exactly when `n_unique > 2`, the binary one exactly otherwise |
| TheoryGenerator.Rules | zero_shot_theory_generator/core/theory_generator.py:9-16 | No rules unless the task tag is exactly `classification` |
| TheoryGenerator.BaseTheories | zero_shot_theory_generator/core/theory_generator.py:7-16 | The loop builds exactly `Rules(task, columns)` |
| TheoryGenerator.GenerateTheory | zero_shot_theory_generator/core/theory_generator.py:6-29 | `rules` does not depend on the remote outcome. `llm` is the completion on success, and `LLM error: ` followed by the message on failure |
| TheoryGenerator.Theories | zero_shot_theory_generator/core/theory_generator.py:13-16 | The per-column theory, position by position |
| TheoryGenerator.RulesFollowLabelColumns | zero_shot_theory_generator/core/theory_generator.py:10-16 | The rules are the theories of the `target`/`label` columns, in column order |
| TheoryGenerator.RuleCount | zero_shot_theory_generator/core/theory_generator.py:11-12 | One rule per label column |
| TheoryGenerator.BinaryTaskHasNoRules | zero_shot_theory_generator/core/theory_generator.py:9 | `binary_classification` yields no rules |
| TheoryGenerator.NoLabelNoRules | zero_shot_theory_generator/core/theory_generator.py:11-12 | No `target`/`label` column, no rules |
| TheoryGenerator.CapitalisedLabelMatches | zero_shot_theory_generator/core/theory_generator.py:12 | The name test is case-insensitive: "Label" counts |
| Explainability.FamilyOf | zero_shot_theory_generator/core/explainability.py:11-56 | The family is the first of time-series, image, tree, linear, NLP and clustering whose keyword list has a substring of the name. It is generic exactly when none has |
| Explainability.Advise | zero_shot_theory_generator/core/explainability.py:6-63 | The no-model message exactly for a falsy model. A truthy non-string gets the generic text and a non-empty name its family's text |
| Explainability.ExplainPipeline | zero_shot_theory_generator/core/explainability.py:2-63 | The no-model message exactly for a falsy model. A non-empty name gets its family's text. Every other answer is `Recommended` followed by the advice of the family `Advise` picks |
| Explainability.RecommendationOpening | zero_shot_theory_generator/core/explainability.py:7-63 | Whatever advice follows, a recommendation opens with `Recommended` and so differs from the no-model message; with the contract of `ExplainPipeline`, every answer to a truthy model opens with `Recommended` |
| Explainability.UncapitalisedNamesAreGeneric | zero_shot_theory_generator/core/explainability.py:11-51 | Matching is case-sensitive and every keyword is capitalised, so a name without capitals is generic |
| Explainability.LoweredNameIsGeneric | zero_shot_theory_generator/core/explainability.py:11-51 | A lower-cased name is always generic |
| Explainability.NoCapitalNoMention | zero_shot_theory_generator/core/explainability.py:11-51 | A string without capitals mentions no capitalised keyword |
| Explainability.SarimaIsTimeSeries | zero_shot_theory_generator/core/explainability.py:11 | "SARIMA" is time-series, through the substring "ARIMA" |
| Explainability.BertNerIsNlp | zero_shot_theory_generator/core/explainability.py:43 | "BERT-NER" is NLP |
| Explainability.DistilBertIsNlp | zero_shot_theory_generator/core/explainability.py:43 | "DistilBERT" is NLP |
| Explainability.YoloIsGeneric | zero_shot_theory_generator/core/explainability.py:58-63 | "YOLO" gets the generic text |
| Explainability.IsolationForestIsGeneric | zero_shot_theory_generator/core/explainability.py:58-63 | "IsolationForest" gets the generic text |
| Explainability.CatBoostIsGeneric | zero_shot_theory_generator/core/explainability.py:58-63 | "CatBoostClassifier" gets the generic text |
| Explainability.MarianMtIsGeneric | zero_shot_theory_generator/core/explainability.py:58-63 | "MarianMT" gets the generic text |
| App.BatchSize | zero_shot_theory_generator/ui/app.py:24 | Always within [8, 64]: n//10 between 80 and 649 rows, clamped below and above |
| App.Plan | zero_shot_theory_generator/ui/app.py:17-54 | Supervised exactly for classification, regression, image and text classification; unsupervised exactly for `unsupervised`; otherwise custom analysis. With `n_rows` defaulting to 100: 10 epochs exactly below 1000 rows, 80/20 exactly above 50, 5 folds exactly above 200, SGD exactly for regression, early stopping exactly above 100. K-means below 10 columns, PCA below 20, Apriori above 2 |
| App.StrategyLines | zero_shot_theory_generator/ui/app.py:30-52 | 6 lines for supervised, 3 for unsupervised, 1 otherwise; the fourth supervised line is `Batch size: ` and the number |
| App.ParadigmAndStrategy | zero_shot_theory_generator/ui/app.py:17-54 | "Supervised Learning" exactly for classification, regression, image and text classification, "Unsupervised Learning" exactly for `unsupervised`, "Unknown/Other" otherwise. The six supervised lines spell the split, folds, epochs, batch size, optimizer and early stopping chosen from `n_rows` (default 100). The three unsupervised lines spell the clustering, reduction and association choices from the column count. Otherwise the single line "Custom analysis required" |
| App.BatchSizeMonotone | zero_shot_theory_generator/ui/app.py:24 | More rows never give a smaller batch |
| App.BatchLineReadsBack | zero_shot_theory_generator/ui/app.py:24-33 | The batch-size line holds decimal digits that read back as a value in [8, 64] |
| App.DefaultRowCount | zero_shot_theory_generator/ui/app.py:23-29 | Without `n_rows` (100): holdout, 3 folds, 10 epochs, batch 10, no early stopping |
| App.UnlistedSupervisedTasks | zero_shot_theory_generator/ui/app.py:21-52 | Binary classification and forecasting get "Unknown/Other" and the custom line |
| FileUtils.SlugAt | zero_shot_theory_generator/utils/file_utils.py:14 | The greedy `[\w-]+/[\w-]+` match at a position: a slug present in the string and not followed by a word character |
| FileUtils.MatchAt | zero_shot_theory_generator/utils/file_utils.py:14 | The first pattern at one position only matches after `kaggle:` or `kaggle.com/`. After `kaggle:` it is the slug 7 characters on. After `kaggle.com/` it is the slug after `datasets/` (20 characters on) when that exists, else the slug 11 characters on |
| FileUtils.LeftmostMatch | zero_shot_theory_generator/utils/file_utils.py:14 | `re.search`: the first position where the pattern matches, none before it; none at all when it reports none |
| FileUtils.ExtractKaggleSlug | zero_shot_theory_generator/utils/file_utils.py:12-20 | Always a slug or `None`. `None` exactly when no prefixed match exists and the stripped input is not a bare slug. The stripped input when only it matches |
| FileUtils.LeftmostWins | zero_shot_theory_generator/utils/file_utils.py:14-16 | The prefixed form, at its leftmost match, wins over the bare form |
| FileUtils.SlugHasOneSlash | zero_shot_theory_generator/utils/file_utils.py:14-17 | A slug holds exactly one '/' |
| FileUtils.ResultHasOneSlash | zero_shot_theory_generator/utils/file_utils.py:12-20 | Every result holds exactly one '/' |
| FileUtils.SlugAtJoin | zero_shot_theory_generator/utils/file_utils.py:14 | An `owner/name` ending at a non-word character is what the group captures |
| FileUtils.ColonForm | zero_shot_theory_generator/utils/file_utils.py:14-16 | `kaggle:owner/name` gives `owner/name` |
| FileUtils.DatasetsForm | zero_shot_theory_generator/utils/file_utils.py:14-16 | `kaggle.com/datasets/owner/name` gives `owner/name` |
| FileUtils.DatasetsBacktrack | zero_shot_theory_generator/utils/file_utils.py:14-16 | `kaggle.com/datasets/name` backtracks over the optional group and gives `datasets/name` |
| FileUtils.BareSlug | zero_shot_theory_generator/utils/file_utils.py:17-19 | A bare `owner/name` comes back unchanged |
| Strings.Lower | zero_shot_theory_generator/core/task_inference.py:15 | `str.lower` on ASCII: same length, every capital replaced by its own lower-case letter (code + 32), other characters unchanged |
| Strings.SplitOnLength | zero_shot_theory_generator/core/task_inference.py:131 | `split("?")` has one more part than there are '?' |
| Strings.JoinSplitOn | zero_shot_theory_generator/core/task_inference.py:131 | Joining the split parts gives the text back |
| Strings.WordsCoverNonSpace | zero_shot_theory_generator/core/task_inference.py:135 | The words of `split()` are exactly the non-whitespace characters, cut into pieces |
| Strings.WordsOfRun | zero_shot_theory_generator/core/task_inference.py:135 | A non-empty run without whitespace is a single word |
| Strings.WordsAtSpace | zero_shot_theory_generator/core/task_inference.py:135 | `split()` cuts at every whitespace character: the words of `a + c + b` for whitespace `c` are the words of `a` then those of `b`. With `WordsOfRun`, the words are the maximal non-whitespace runs |
| Strings.StripLeft | zero_shot_theory_generator/utils/file_utils.py:17 | The result is a suffix of the input, everything dropped is whitespace, and it does not open with whitespace |
| Strings.StripRight | zero_shot_theory_generator/utils/file_utils.py:17 | The result is a prefix of the input, everything dropped is whitespace, and it does not end with whitespace |
| Strings.StripIdempotent | zero_shot_theory_generator/utils/file_utils.py:17 | Stripping twice is stripping once; with the `StripLeft` and `StripRight` contracts, `strip` keeps a middle slice and drops only whitespace around it |
| Strings.NatToStringRoundTrip | zero_shot_theory_generator/ui/app.py:30-37 | The decimal text of a count reads back as that count |
| Lists.FirstIndex | zero_shot_theory_generator/core/task_inference.py:15-17 | The first index whose element passes, none before it; none exactly when nothing passes |
| Lists.FirstIndexFinds | zero_shot_theory_generator/core/task_inference.py:15-17 | An index is the first passing one exactly when `FirstIndex` returns it |
| Lists.CountIsFilterLength | zero_shot_theory_generator/core/task_inference.py:103-120 | `len([c for c in cols if p(c)])` is the count of passing elements |
| Lists.FilterSnoc | zero_shot_theory_generator/core/theory_generator.py:11-12 | Filtering an extended list extends the filtered list exactly when the new element passes |

## Left out

- File, archive and JSON reading, pandas' dtype inference, `nunique` and `isna().mean()` are not modelled. Their outcomes are the `Reader` parameter of `DetectDataset`.
- The OpenAI call and its prompt are not modelled. The outcome is the `remote` parameter of `GenerateTheory`, so the `pipeline` argument, which only feeds the prompt, is dropped.
- `load_dataset_path` and `save_dataframe`: network downloads, Hugging Face and Kaggle clients, filesystem writes.
- `format_output`, `analyze` and the gradio interface in `ui/app.py`; `utils/logger.py`, `config/settings.py`, `main.py` and `setup.py`.
- Unicode: `lower`, `isupper`, `isspace`, `strip` and the regular-expression class `\w` are modelled on ASCII only.
- Floating point: the 15% capitalised-word test is the exact comparison `20 * cap > 3 * max(1, n)`, which agrees with Python's float result. The missing fraction is a `real`.
- Python `set` order: image classes are a `set`, so the list order `list(set(dirs))` produces is not modelled.
- Lines 7-8 of `core/pipeline_suggester.py` compute `target_col` and never use it, so they are not modelled.
- The `data` argument of `explain_pipeline` is unused by the source and not modelled.
- Explainability.ExplainPipeline: the generic text for a truthy non-string is stated through `Advise` and `AdviceText`, not as a literal.
- Explainability example names: only the names listed in the table are proved, one lemma per name and family; other concrete names are covered only by `UncapitalisedNamesAreGeneric` and `LoweredNameIsGeneric`.
