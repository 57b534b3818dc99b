/** `suggest_pipeline(task, meta)`: an if-chain on the task tag that returns a
    recipe record, choosing the model by strict thresholds on the row count,
    the column count or the class count. */
module PipelineSuggester {
  import opened Wrappers
  import opened Metadata
  import opened TaskInference
  import DatasetLoader

  /** The recipe dicts, one constructor per key layout the function returns. */
  datatype Pipeline =
      /** preprocessing, model, optional loss, metrics, optional alternative models */
    | Estimator(preprocessing: seq<string>, model: string, loss: Option<string>,
                metrics: seq<string>, alternativeModels: Option<seq<string>>)
    | Forecaster(preprocessing: seq<string>, featureEngineering: seq<string>, model: string,
                 forecastLoss: string, metrics: seq<string>, timeColumn: string, target: string,
                 forecastHorizon: string)
    | Detector(preprocessing: seq<string>, model: string, metrics: seq<string>,
               alternatives: seq<string>, target: string)
      /** `ratingCol` is `None` when the dict has no `rating_col` key;
          `user_col` and `item_col` are `task.get(...)`, so they may be `None`. */
    | Recommender(preprocessing: seq<string>, model: string, metrics: seq<string>,
                  userCol: Option<string>, itemCol: Option<string>, ratingCol: Option<string>)
    | Clusterer(preprocessing: seq<string>, model: string, metrics: seq<string>, nClusters: string)
      /** The generic unsupervised recipe has no `model` key. */
    | UnsupervisedRecipe(preprocessing: seq<string>, clustering: string,
                         dimensionalityReduction: string, metrics: seq<string>)
      /** `{"pipeline": "unknown"}` */
    | NoPipeline

  /** `pipeline.get("model")`: the recipes with a `model` key. */
  function ModelName(p: Pipeline): (r: Option<string>)
    ensures r.None? <==> p.UnsupervisedRecipe? || p.NoPipeline?
    ensures !(p.UnsupervisedRecipe? || p.NoPipeline?) ==> r == Some(p.model)
  {
    match p
    case Estimator(_, model, _, _, _) => Some(model)
    case Forecaster(_, _, model, _, _, _, _, _) => Some(model)
    case Detector(_, model, _, _, _) => Some(model)
    case Recommender(_, model, _, _, _, _) => Some(model)
    case Clusterer(_, model, _, _) => Some(model)
    case _ => None
  }

  // ---------------------------------------------------------------------------
  // Model choices

  /** Lines 15-22. Logistic regression is chosen exactly for fewer than 100
      rows (the two earlier branches need more than 1000), and the default
      forest covers 100 to 1000 rows and larger tables with neither trigger. */
  function ClassifierModel(highCardinality: bool, nFeatures: nat, nRows: nat): (model: string)
    ensures model == "CatBoostClassifier" <==> highCardinality && nRows > 1000
    ensures model == "XGBoostClassifier" <==> !highCardinality && nFeatures > 20 && nRows > 1000
    ensures model == "LogisticRegression" <==> nRows < 100
    ensures model == "RandomForestClassifier" <==>
      100 <= nRows && !(nRows > 1000 && (highCardinality || nFeatures > 20))
  {
    if highCardinality && nRows > 1000 then "CatBoostClassifier"
    else if nFeatures > 20 && nRows > 1000 then "XGBoostClassifier"
    else if nRows < 100 then "LogisticRegression"
    else "RandomForestClassifier"
  }

  /** Lines 54-59. Linear regression depends on the column count alone. */
  function RegressorModel(nFeatures: nat, nRows: nat): (model: string)
    ensures model == "XGBoostRegressor" <==> nFeatures > 20 && nRows > 1000
    ensures model == "RandomForestRegressor" <==> nFeatures > 10 && !(nFeatures > 20 && nRows > 1000)
    ensures model == "LinearRegression" <==> nFeatures <= 10
  {
    if nFeatures > 20 && nRows > 1000 then "XGBoostRegressor"
    else if nFeatures > 10 then "RandomForestRegressor"
    else "LinearRegression"
  }

  /** Lines 77-109: the forecasting model and its feature-engineering steps.
      Every plan starts with lag features; larger data adds steps. */
  function ForecastPlan(nRows: nat): (plan: (string, seq<string>))
    ensures plan.0 == "LSTM" <==> nRows > 1000
    ensures plan.0 == "Prophet" <==> 100 < nRows <= 1000
    ensures plan.0 == "ARIMA" <==> nRows <= 100
    ensures |plan.1| == (if nRows > 1000 then 3 else if nRows > 100 then 2 else 1)
    ensures plan.1[0] == "LagFeatures"
  {
    if nRows > 1000 then ("LSTM", ["LagFeatures", "RollingStatistics", "SeasonalDecomposition"])
    else if nRows > 100 then ("Prophet", ["LagFeatures", "SeasonalDecomposition"])
    else ("ARIMA", ["LagFeatures"])
  }

  /** Lines 153-159. */
  function ImageModel(nClasses: nat): (model: string)
    ensures model == "EfficientNetB7" <==> nClasses > 100
    ensures model == "ResNet50" <==> 10 < nClasses <= 100
    ensures model == "ResNet18" <==> nClasses <= 10
  {
    if nClasses > 100 then "EfficientNetB7"
    else if nClasses > 10 then "ResNet50"
    else "ResNet18"
  }

  /** Lines 146 and 218. */
  function ClusterModel(nCols: nat): (model: string)
    ensures model == "KMeans" <==> nCols < 10
    ensures model == "KMeans" || model == "DBSCAN"
  {
    if nCols < 10 then "KMeans" else "DBSCAN"
  }

  /** Line 219. */
  function Reduction(nCols: nat): (technique: string)
    ensures technique == "PCA" <==> nCols < 20
    ensures technique == "PCA" || technique == "t-SNE"
  {
    if nCols < 20 then "PCA" else "t-SNE"
  }

  /** Lines 43-48: one-hot encoding is appended exactly when categorical columns are listed. */
  function RegressionPreprocessing(m: Meta): (steps: seq<string>)
    ensures |steps| == (if CategoricalColumns(m) != [] then 3 else 2)
    ensures steps[..2] == ["ImputeMissing", "StandardScaler"]
    ensures ("OneHotEncoder" in steps) <==> CategoricalColumns(m) != []
  {
    var base := ["ImputeMissing", "StandardScaler"];
    if CategoricalColumns(m) != [] then base + ["OneHotEncoder"] else base
  }

  // ---------------------------------------------------------------------------

  /** The tasks served by classical estimators (lines 5-149 and 214-222). */
  predicate IsClassicalTask(t: Task) {
    t.Classification? || t.BinaryClassification? || t.Regression? || t.TimeSeriesForecasting?
    || t.AnomalyDetection? || t.Recommendation? || t.Clustering? || t.Unsupervised?
  }

  /** Lines 5-149 and 214-222: the recipes built from the table's shape. */
  function ClassicalRecipe(inf: Inference, m: Meta): (p: Pipeline)
    requires IsClassicalTask(inf.task)
    ensures p.NoPipeline? <==> inf.task == Classification && !m.Tabular?
    ensures inf.task == Classification && m.Tabular? ==>
      p.Estimator? && p.loss == Some("CrossEntropy")
      && p.model == ClassifierModel(HighCardinalityColumns(m) != [], |m.columns|, m.nRows)
    ensures inf.task == BinaryClassification ==>
      p.Estimator? && p.model == "LogisticRegression" && "auc" in p.metrics
      && p.loss == Some("BinaryCrossentropy")
    ensures inf.task == Regression ==>
      p.Estimator? && p.loss == Some("MSE")
      && p.model == RegressorModel(|Columns(m)|, RowCount(m, 0))
      && p.preprocessing == RegressionPreprocessing(m)
    ensures inf.task == TimeSeriesForecasting ==>
      p.Forecaster? && (p.model, p.featureEngineering) == ForecastPlan(RowCount(m, 0))
      && p.forecastLoss == "MSE" && p.timeColumn == inf.timeCol.GetOr("Period") && p.target == inf.target.GetOr("Revenue")
    ensures inf.task == AnomalyDetection ==>
      p.Detector? && p.model == "IsolationForest" && p.target == inf.target.GetOr("anomaly")
    ensures inf.task == Recommendation ==>
      p.Recommender? && p.userCol == inf.userCol && p.itemCol == inf.itemCol
      && p.ratingCol == inf.ratingCol
      && (p.model == "CollaborativeFiltering" <==> inf.ratingCol.Some?)
      && (p.model == "MatrixFactorization" <==> inf.ratingCol.None?)
    ensures inf.task == Clustering ==> p.Clusterer? && p.model == ClusterModel(|Columns(m)|)
    ensures inf.task == Unsupervised ==>
      p.UnsupervisedRecipe? && (p.preprocessing == [] <==> |Columns(m)| == 0)
      && p.clustering == ClusterModel(|Columns(m)|) && p.dimensionalityReduction == Reduction(|Columns(m)|)
  {
    var nCols := |Columns(m)|;
    if inf.task == Classification then
      if m.Tabular? then
        Estimator(["ImputeMissing", "StandardScaler", "OneHotEncoder"],
                  ClassifierModel(HighCardinalityColumns(m) != [], nCols, m.nRows),
                  Some("CrossEntropy"), ["accuracy", "f1"], None)
      else NoPipeline
    else if inf.task == BinaryClassification then
      Estimator(["ImputeMissing", "StandardScaler", "OneHotEncoder"], "LogisticRegression",
                Some("BinaryCrossentropy"), ["accuracy", "precision", "recall", "auc"], None)
    else if inf.task == Regression then
      Estimator(RegressionPreprocessing(m), RegressorModel(nCols, RowCount(m, 0)),
                Some("MSE"), ["rmse", "mae", "r2"], None)
    else if inf.task == TimeSeriesForecasting then
      var (model, features) := ForecastPlan(RowCount(m, 0));
      Forecaster(["TimeSeriesSplit", "Normalization"], features, model, "MSE", ["rmse", "mae", "mape"],
                 inf.timeCol.GetOr("Period"), inf.target.GetOr("Revenue"), "Auto-detected")
    else if inf.task == AnomalyDetection then
      Detector(["StandardScaler"], "IsolationForest", ["precision", "recall", "f1"],
               ["OneClassSVM", "LocalOutlierFactor"], inf.target.GetOr("anomaly"))
    else if inf.task == Recommendation then
      if inf.ratingCol.Some? then
        Recommender(["SplitTrainTest"], "CollaborativeFiltering", ["rmse", "mae", "ndcg"],
                    inf.userCol, inf.itemCol, inf.ratingCol)
      else
        Recommender(["SplitTrainTest"], "MatrixFactorization", ["recall@k", "precision@k"],
                    inf.userCol, inf.itemCol, None)
    else if inf.task == Clustering then
      Clusterer(["StandardScaler", "PCA"], ClusterModel(nCols),
                ["silhouette_score", "davies_bouldin_index"], "auto")
    else
      UnsupervisedRecipe(if nCols > 0 then ["StandardScaler"] else [], ClusterModel(nCols),
                         Reduction(nCols), ["silhouette_score", "calinski_harabasz"])
  }

  /** Lines 152-211 and 224: pretrained vision and language models, and
      `{"pipeline": "unknown"}` for every other tag. */
  function PretrainedRecipe(inf: Inference, m: Meta): (p: Pipeline)
    requires !IsClassicalTask(inf.task)
    ensures p.NoPipeline? <==> inf.task == Unknown
    ensures inf.task == ImageClassification ==>
      p.Estimator? && p.model == ImageModel(ClassCount(m, 2)) && p.loss == Some("CrossEntropy")
    ensures inf.task in {ObjectDetection, TextClassification, QuestionAnswering,
                         NamedEntityRecognition, Translation} ==>
      p.Estimator? && (p.loss.Some? <==> inf.task == TextClassification)
    ensures inf.task == ObjectDetection ==> p.model == "YOLO"
    ensures inf.task == TextClassification ==> p.model == "DistilBERT" && p.loss == Some("CrossEntropy")
    ensures inf.task == QuestionAnswering ==> p.model == "BERT"
    ensures inf.task == NamedEntityRecognition ==> p.model == "BERT-NER"
    ensures inf.task == Translation ==> p.model == "MarianMT"
  {
    if inf.task == ImageClassification then
      Estimator(["Resize(224x224)", "Normalize(ImageNet)", "DataAugmentation"],
                ImageModel(ClassCount(m, 2)), Some("CrossEntropy"), ["accuracy", "top5_accuracy"], None)
    else if inf.task == ObjectDetection then
      Estimator(["Resize(640x640)", "Normalize"], "YOLO", None, ["mAP", "IoU"], Some(["FasterRCNN", "SSD"]))
    else if inf.task == TextClassification then
      Estimator(["Tokenize", "Truncate"], "DistilBERT", Some("CrossEntropy"), ["f1", "precision", "recall"], None)
    else if inf.task == QuestionAnswering then
      Estimator(["Tokenize", "Truncate"], "BERT", None, ["exact_match", "f1"], Some(["RoBERTa", "T5"]))
    else if inf.task == NamedEntityRecognition then
      Estimator(["Tokenize", "Truncate"], "BERT-NER", None, ["token_f1", "span_f1"], Some(["SpaCy", "Flair"]))
    else if inf.task == Translation then
      Estimator(["Tokenize", "Truncate"], "MarianMT", None, ["bleu", "meteor"], Some(["T5", "M2M100"]))
    else NoPipeline
  }

  /** `suggest_pipeline(task, meta)`. The result is `{"pipeline": "unknown"}`
      exactly for an `unknown` task and for `classification` on non-tabular
      metadata (line 5 tests the metadata type). */
  function SuggestPipeline(inf: Inference, m: Meta): (p: Pipeline)
    ensures p.NoPipeline? <==> inf.task == Unknown || (inf.task == Classification && !m.Tabular?)
    ensures inf.task == Classification && m.Tabular? ==>
      p.Estimator? && p.loss == Some("CrossEntropy")
      && p.model == ClassifierModel(HighCardinalityColumns(m) != [], |m.columns|, m.nRows)
    ensures inf.task == BinaryClassification ==>
      p.Estimator? && p.model == "LogisticRegression" && "auc" in p.metrics
      && p.loss == Some("BinaryCrossentropy")
    ensures inf.task == Regression ==>
      p.Estimator? && p.loss == Some("MSE")
      && p.model == RegressorModel(|Columns(m)|, RowCount(m, 0))
      && p.preprocessing == RegressionPreprocessing(m)
    ensures inf.task == TimeSeriesForecasting ==>
      p.Forecaster? && (p.model, p.featureEngineering) == ForecastPlan(RowCount(m, 0))
      && p.forecastLoss == "MSE" && p.timeColumn == inf.timeCol.GetOr("Period") && p.target == inf.target.GetOr("Revenue")
    ensures inf.task == AnomalyDetection ==>
      p.Detector? && p.model == "IsolationForest" && p.target == inf.target.GetOr("anomaly")
    ensures inf.task == Recommendation ==>
      p.Recommender? && p.userCol == inf.userCol && p.itemCol == inf.itemCol
      && p.ratingCol == inf.ratingCol
      && (p.model == "CollaborativeFiltering" <==> inf.ratingCol.Some?)
      && (p.model == "MatrixFactorization" <==> inf.ratingCol.None?)
    ensures inf.task == Clustering ==> p.Clusterer? && p.model == ClusterModel(|Columns(m)|)
    ensures inf.task == ImageClassification ==>
      p.Estimator? && p.model == ImageModel(ClassCount(m, 2)) && p.loss == Some("CrossEntropy")
    ensures inf.task == Unsupervised ==>
      p.UnsupervisedRecipe? && (p.preprocessing == [] <==> |Columns(m)| == 0)
      && p.clustering == ClusterModel(|Columns(m)|) && p.dimensionalityReduction == Reduction(|Columns(m)|)
    ensures inf.task in {ObjectDetection, TextClassification, QuestionAnswering,
                         NamedEntityRecognition, Translation} ==>
      p.Estimator? && (p.loss.Some? <==> inf.task == TextClassification)
    ensures inf.task == ObjectDetection ==> p.model == "YOLO"
    ensures inf.task == TextClassification ==> p.model == "DistilBERT" && p.loss == Some("CrossEntropy")
    ensures inf.task == QuestionAnswering ==> p.model == "BERT"
    ensures inf.task == NamedEntityRecognition ==> p.model == "BERT-NER"
    ensures inf.task == Translation ==> p.model == "MarianMT"
  {
    if IsClassicalTask(inf.task) then ClassicalRecipe(inf, m) else PretrainedRecipe(inf, m)
  }

  // ---------------------------------------------------------------------------
  // Properties

  /** Line 15: the CatBoost threshold is strict; 1000 rows is not enough. */
  lemma CatBoostBoundary(nFeatures: nat)
    ensures ClassifierModel(true, nFeatures, 1000) != "CatBoostClassifier"
    ensures ClassifierModel(true, nFeatures, 1001) == "CatBoostClassifier"
  {
  }

  /** More rows never remove a feature-engineering step from a forecast plan. */
  lemma {:induction false} ForecastStepsGrow(n: nat, n': nat)
    requires n <= n'
    ensures forall s :: s in ForecastPlan(n).1 ==> s in ForecastPlan(n').1
    ensures |ForecastPlan(n).1| <= |ForecastPlan(n').1|
  {
    var small := ForecastPlan(n).1;
    var large := ForecastPlan(n').1;
    forall s | s in small
      ensures s in large
    {
      if n' > 1000 {
        assert large == ["LagFeatures", "RollingStatistics", "SeasonalDecomposition"];
      } else if n' > 100 {
        assert large == ["LagFeatures", "SeasonalDecomposition"];
        assert small == ["LagFeatures", "SeasonalDecomposition"] || small == ["LagFeatures"];
      } else {
        assert small == ["LagFeatures"];
      }
    }
  }

  /** The loader never lists high-cardinality columns, so tabular
      classification of loaded data is never CatBoost. */
  lemma LoadedNeverCatBoost(inf: Inference, m: Meta, sampleSize: nat)
    requires DatasetLoader.Loaded(m, sampleSize)
    ensures ModelName(SuggestPipeline(inf, m)) != Some("CatBoostClassifier")
  {
  }

  /** Every tabular inference leads to a recipe: `infer_task` never says
      `unknown` for tables, and `classification` is accepted there. */
  lemma TabularAlwaysHasPipeline(m: Meta)
    requires m.Tabular?
    ensures !SuggestPipeline(InferTask(m), m).NoPipeline?
  {
  }

  /** An image folder with more than 20 classes is inferred as object
      detection, so the image-classification branch only ever sees at most
      20 classes and the `n_classes > 100` EfficientNet choice is unreachable
      from an image folder. */
  lemma ImageFolderModels(m: Meta)
    requires m.ImageFolder?
    ensures ModelName(SuggestPipeline(InferTask(m), m)) ==
      Some(if m.nClasses > 20 then "YOLO" else if m.nClasses > 10 then "ResNet50" else "ResNet18")
  {
  }

  /** Image classification inferred from an image-path column of a table:
      tables carry no `n_classes`, so the default of 2 picks ResNet18. */
  lemma TableImageColumnUsesResNet18(inf: Inference, m: Meta)
    requires m.Tabular? && inf.task == ImageClassification
    ensures ModelName(SuggestPipeline(inf, m)) == Some("ResNet18")
  {
  }

  /** The tabular classifiers a loaded table can get. */
  lemma LoadedClassifierModels(inf: Inference, m: Meta, sampleSize: nat)
    requires DatasetLoader.Loaded(m, sampleSize) && m.Tabular? && inf.task == Classification
    ensures ModelName(SuggestPipeline(inf, m)) ==
      Some(if |m.columns| > 20 && m.nRows > 1000 then "XGBoostClassifier"
           else if m.nRows < 100 then "LogisticRegression" else "RandomForestClassifier")
  {
  }
}
