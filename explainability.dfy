/** `explain_pipeline(model)`: a fixed recommendation text chosen by the
    first model family whose keyword occurs (case-sensitively, as a
    substring) in the model name. */
module Explainability {
  import opened Strings

  /** The `model` argument: absent (`None`), a string, or some other value,
      of which only its Python truthiness matters. */
  datatype ModelRef = Absent | Named(name: string) | NonString(truthy: bool)

  /** `not model` */
  predicate Falsy(m: ModelRef) {
    match m
    case Absent => true
    case Named(name) => name == ""
    case NonString(truthy) => !truthy
  }

  datatype Family = TimeSeries | Image | Tree | Linear | Nlp | Cluster | Generic

  // The keyword lists of lines 11, 20, 27, 35, 43 and 51, in that order.

  const TimeSeriesKeywords: seq<string> := ["ARIMA", "Prophet", "LSTM", "GRU", "SARIMA", "VAR", "GARCH"]
  const ImageKeywords: seq<string> := ["ResNet", "CNN", "VGG", "EfficientNet"]
  const TreeKeywords: seq<string> := ["RandomForest", "XGBoost", "GBM", "LightGBM", "DecisionTree"]
  const LinearKeywords: seq<string> := ["LinearRegression", "LogisticRegression", "Lasso", "Ridge"]
  const NlpKeywords: seq<string> := ["BERT", "DistilBERT", "Transformer", "GPT", "RoBERTa"]
  const ClusterKeywords: seq<string> := ["KMeans", "DBSCAN", "Hierarchical", "Spectral"]

  predicate IsTimeSeriesModel(s: string) { MentionsAny(s, TimeSeriesKeywords) }
  predicate IsImageModel(s: string) { MentionsAny(s, ImageKeywords) }
  predicate IsTreeModel(s: string) { MentionsAny(s, TreeKeywords) }
  predicate IsLinearModel(s: string) { MentionsAny(s, LinearKeywords) }
  predicate IsNlpModel(s: string) { MentionsAny(s, NlpKeywords) }
  predicate IsClusterModel(s: string) { MentionsAny(s, ClusterKeywords) }

  /** The family of a model name: the first family test that succeeds. */
  function FamilyOf(s: string): (f: Family)
    ensures f == TimeSeries <==> IsTimeSeriesModel(s)
    ensures f == Image <==> !IsTimeSeriesModel(s) && IsImageModel(s)
    ensures f == Tree <==> !IsTimeSeriesModel(s) && !IsImageModel(s) && IsTreeModel(s)
    ensures f == Linear <==>
      !IsTimeSeriesModel(s) && !IsImageModel(s) && !IsTreeModel(s) && IsLinearModel(s)
    ensures f == Nlp <==>
      !IsTimeSeriesModel(s) && !IsImageModel(s) && !IsTreeModel(s) && !IsLinearModel(s) && IsNlpModel(s)
    ensures f == Cluster <==>
      !IsTimeSeriesModel(s) && !IsImageModel(s) && !IsTreeModel(s) && !IsLinearModel(s)
      && !IsNlpModel(s) && IsClusterModel(s)
    ensures f == Generic <==>
      !IsTimeSeriesModel(s) && !IsImageModel(s) && !IsTreeModel(s) && !IsLinearModel(s)
      && !IsNlpModel(s) && !IsClusterModel(s)
  {
    if IsTimeSeriesModel(s) then TimeSeries
    else if IsImageModel(s) then Image
    else if IsTreeModel(s) then Tree
    else if IsLinearModel(s) then Linear
    else if IsNlpModel(s) then Nlp
    else if IsClusterModel(s) then Cluster
    else Generic
  }

  /** What `explain_pipeline` settles on: the no-model message, or the
      recommendation text of one family. */
  datatype Explanation = NoModel | Recommend(family: Family)

  /** `explain_pipeline(model)` as a decision: a falsy model gets the
      no-model message, a truthy non-string the generic text, and a name
      the text of its family. */
  function Advise(m: ModelRef): (e: Explanation)
    ensures e.NoModel? <==> Falsy(m)
    ensures m.NonString? && m.truthy ==> e == Recommend(Generic)
    ensures m.Named? && m.name != "" ==> e == Recommend(FamilyOf(m.name))
  {
    if Falsy(m) then NoModel
    else match m
      case Named(name) => Recommend(FamilyOf(name))
      case _ => Recommend(Generic)
  }

  /** The first word of every recommendation. */
  const RecommendedLabel := "Recommended"

  /** The no-model message, kept in two pieces so that its opening word can
      be compared with `Recommended`. */
  const NoModelText := "No" + " model specified for explainability analysis."

  /** What follows `Recommended` in the text for each family. */
  function AdviceText(f: Family): string {
    match f
    case TimeSeries => ": \n- Residual analysis to validate forecast quality\n- Feature importance for external regressors\n- Component decomposition (trend, seasonality, residuals)\n- Forecast confidence intervals visualization\n- Rolling validation metrics to evaluate stability"
    case Image => ": \n- Grad-CAM for visualizing CNN activations\n- Feature visualization to understand what neurons are detecting\n- Occlusion sensitivity analysis to identify important image regions"
    case Tree => ": \n- SHAP values for feature importance in tree ensembles\n- Partial dependence plots to understand feature relationships\n- Feature importance plots to identify key predictors\n- ICE plots for individual predictions"
    case Linear => ": \n- Coefficient analysis to understand feature weights\n- Residual plots to validate model assumptions\n- Leverage plots to identify influential points\n- LIME for local explanations of specific predictions"
    case Nlp => ": \n- Attention visualization to understand word relationships\n- LIME for text to explain specific predictions\n- Word importance scoring\n- Counterfactual examples to test model robustness"
    case Cluster => ":\n- Silhouette analysis to validate cluster quality\n- Cluster centroid visualization\n- Feature importance for clustering\n- Dimensionality reduction (t-SNE, UMAP) for visualization"
    case Generic => " explainability techniques:\n- Feature importance analysis\n- Partial dependence plots\n- SHAP values for local and global explanations\n- Counterfactual examples to test model behavior"
  }

  /** The returned strings of lines 7, 12-56 and 59-63. The first five family
      texts carry a space before their first line break, the clustering text
      does not. */
  function Text(e: Explanation): string {
    match e
    case NoModel => NoModelText
    case Recommend(f) => RecommendedLabel + AdviceText(f)
  }

  /** Whatever advice follows `Recommended`, the text opens with that word and
      so is not the no-model message. */
  lemma RecommendationOpening(advice: string)
    ensures (RecommendedLabel + advice)[..|RecommendedLabel|] == RecommendedLabel
    ensures RecommendedLabel + advice != NoModelText
  {
    assert (RecommendedLabel + advice)[0] == 'R' && NoModelText[0] == 'N';
  }

  /** `explain_pipeline(model)`; the optional `data` argument is unused. */
  function ExplainPipeline(m: ModelRef): (text: string)
    ensures Falsy(m) <==> text == NoModelText
    ensures m.Named? && m.name != "" ==> text == Text(Recommend(FamilyOf(m.name)))
    ensures !Falsy(m) ==> text == RecommendedLabel + AdviceText(Advise(m).family)
  {
    match Advise(m)
    case NoModel => NoModelText
    case Recommend(f) =>
      var advice := AdviceText(f);
      RecommendationOpening(advice);
      RecommendedLabel + advice
  }

  // ---------------------------------------------------------------------------
  // Properties

  /** Every keyword of `keys` opens with an upper-case letter. */
  predicate CapitalisedKeys(keys: seq<string>) {
    forall k | 0 <= k < |keys| :: |keys[k]| > 0 && IsUpper(keys[k][0])
  }

  lemma AllKeywordsCapitalised()
    ensures CapitalisedKeys(TimeSeriesKeywords) && CapitalisedKeys(ImageKeywords)
    ensures CapitalisedKeys(TreeKeywords) && CapitalisedKeys(LinearKeywords)
    ensures CapitalisedKeys(NlpKeywords) && CapitalisedKeys(ClusterKeywords)
  {
  }

  /** A string without upper-case letters mentions no capitalised keyword. */
  lemma NoCapitalNoMention(s: string, keys: seq<string>)
    requires CapitalisedKeys(keys)
    requires forall i | 0 <= i < |s| :: !IsUpper(s[i])
    ensures !MentionsAny(s, keys)
  {
    forall k | 0 <= k < |keys|
      ensures !Contains(s, keys[k])
    {
      NotContained(s, keys[k], keys[k][0]);
    }
  }

  /** Matching is case-sensitive: a name written without capitals, such as
      "xgboost" or "resnet50", falls through every family test. */
  lemma UncapitalisedNamesAreGeneric(s: string)
    requires forall i | 0 <= i < |s| :: !IsUpper(s[i])
    ensures FamilyOf(s) == Generic
  {
    AllKeywordsCapitalised();
    NoCapitalNoMention(s, TimeSeriesKeywords);
    NoCapitalNoMention(s, ImageKeywords);
    NoCapitalNoMention(s, TreeKeywords);
    NoCapitalNoMention(s, LinearKeywords);
    NoCapitalNoMention(s, NlpKeywords);
    NoCapitalNoMention(s, ClusterKeywords);
  }

  /** Lower-casing any model name loses its family. */
  lemma LoweredNameIsGeneric(s: string)
    ensures FamilyOf(Lower(s)) == Generic
  {
    UncapitalisedNamesAreGeneric(Lower(s));
  }

  /** Substring matching: "SARIMA" is a time-series model through "ARIMA". */
  lemma SarimaIsTimeSeries()
    ensures FamilyOf("SARIMA") == TimeSeries
  {
    ContainsAt("SARIMA", "ARIMA", 1);
    assert TimeSeriesKeywords[0] == "ARIMA";
  }

  lemma BertNerNotTimeSeries()
    ensures !IsTimeSeriesModel("BERT-NER")
  {
    NoneMentioned("BERT-NER", TimeSeriesKeywords, "AtMUAAH", 0);
  }

  lemma BertNerNotImage()
    ensures !IsImageModel("BERT-NER")
  {
    NoneMentioned("BERT-NER", ImageKeywords, "tCGt", 0);
  }

  lemma BertNerNotTree()
    ensures !IsTreeModel("BERT-NER")
  {
    NoneMentioned("BERT-NER", TreeKeywords, "ttMMe", 0);
  }

  lemma BertNerNotLinear()
    ensures !IsLinearModel("BERT-NER")
  {
    NoneMentioned("BERT-NER", LinearKeywords, "nnoe", 0);
  }

  /** "BERT-NER", the entity-recognition model, has none of the earlier
      families' keywords and contains "BERT". */
  lemma BertNerIsNlp()
    ensures FamilyOf("BERT-NER") == Nlp
  {
    BertNerNotTimeSeries();
    BertNerNotImage();
    BertNerNotTree();
    BertNerNotLinear();
    ContainsAt("BERT-NER", "BERT", 0);
    assert NlpKeywords[0] == "BERT";
  }

  lemma DistilBertNotTimeSeries()
    ensures !IsTimeSeriesModel("DistilBERT")
  {
    NoneMentioned("DistilBERT", TimeSeriesKeywords, "AeMUAAH", 0);
  }

  lemma DistilBertNotImage()
    ensures !IsImageModel("DistilBERT")
  {
    NoneMentioned("DistilBERT", ImageKeywords, "eNGe", 0);
  }

  lemma DistilBertNotTree()
    ensures !IsTreeModel("DistilBERT")
  {
    NoneMentioned("DistilBERT", TreeKeywords, "eoMMe", 0);
  }

  lemma DistilBertNotLinear()
    ensures !IsLinearModel("DistilBERT")
  {
    NoneMentioned("DistilBERT", LinearKeywords, "nnoe", 0);
  }

  /** "DistilBERT", the text-classification model, matches the NLP family
      through its first keyword "BERT", not through "DistilBERT". */
  lemma DistilBertIsNlp()
    ensures FamilyOf("DistilBERT") == Nlp
  {
    DistilBertNotTimeSeries();
    DistilBertNotImage();
    DistilBertNotTree();
    DistilBertNotLinear();
    ContainsAt("DistilBERT", "BERT", 6);
    assert NlpKeywords[0] == "BERT";
  }

  lemma YoloNotTimeSeries()
    ensures !IsTimeSeriesModel("YOLO")
  {
    NoneMentioned("YOLO", TimeSeriesKeywords, "AtMUARH", 0);
  }

  lemma YoloNotImage()
    ensures !IsImageModel("YOLO")
  {
    NoneMentioned("YOLO", ImageKeywords, "tNGt", 0);
  }

  lemma YoloNotTree()
    ensures !IsTreeModel("YOLO")
  {
    NoneMentioned("YOLO", TreeKeywords, "ttMMe", 0);
  }

  lemma YoloNotLinear()
    ensures !IsLinearModel("YOLO")
  {
    NoneMentioned("YOLO", LinearKeywords, "nnoe", 0);
  }

  lemma YoloNotNlp()
    ensures !IsNlpModel("YOLO")
  {
    NoneMentioned("YOLO", NlpKeywords, "TTrTa", 0);
  }

  lemma YoloNotCluster()
    ensures !IsClusterModel("YOLO")
  {
    NoneMentioned("YOLO", ClusterKeywords, "sNll", 0);
  }

  /** "YOLO", the detector suggested for image folders of more than 20
      classes, gets the generic text rather than the image-model text. */
  lemma YoloIsGeneric()
    ensures FamilyOf("YOLO") == Generic
  {
    YoloNotTimeSeries();
    YoloNotImage();
    YoloNotTree();
    YoloNotLinear();
    YoloNotNlp();
    YoloNotCluster();
  }

  lemma IsolationForestNotTimeSeries()
    ensures !IsTimeSeriesModel("IsolationForest")
  {
    NoneMentioned("IsolationForest", TimeSeriesKeywords, "AhMUARH", 0);
  }

  lemma IsolationForestNotImage()
    ensures !IsImageModel("IsolationForest")
  {
    NoneMentioned("IsolationForest", ImageKeywords, "NNGN", 0);
  }

  lemma IsolationForestNotTree()
    ensures !IsTreeModel("IsolationForest")
  {
    NoneMentioned("IsolationForest", TreeKeywords, "mBMMT", 0);
  }

  lemma IsolationForestNotLinear()
    ensures !IsLinearModel("IsolationForest")
  {
    NoneMentioned("IsolationForest", LinearKeywords, "ggLg", 0);
  }

  lemma IsolationForestNotNlp()
    ensures !IsNlpModel("IsolationForest")
  {
    NoneMentioned("IsolationForest", NlpKeywords, "TTmTT", 0);
  }

  lemma IsolationForestNotCluster()
    ensures !IsClusterModel("IsolationForest")
  {
    NoneMentioned("IsolationForest", ClusterKeywords, "MNcc", 0);
  }

  /** The anomaly detector is a forest but not a "RandomForest": generic text. */
  lemma IsolationForestIsGeneric()
    ensures FamilyOf("IsolationForest") == Generic
  {
    IsolationForestNotTimeSeries();
    IsolationForestNotImage();
    IsolationForestNotTree();
    IsolationForestNotLinear();
    IsolationForestNotNlp();
    IsolationForestNotCluster();
  }

  lemma CatBoostNotTimeSeries()
    ensures !IsTimeSeriesModel("CatBoostClassifier")
  {
    NoneMentioned("CatBoostClassifier", TimeSeriesKeywords, "AhMUARH", 0);
  }

  lemma CatBoostNotImage()
    ensures !IsImageModel("CatBoostClassifier")
  {
    NoneMentioned("CatBoostClassifier", ImageKeywords, "NNGN", 0);
  }

  lemma CatBoostNotTree()
    ensures !IsTreeModel("CatBoostClassifier")
  {
    NoneMentioned("CatBoostClassifier", TreeKeywords, "FGMMT", 0);
  }

  lemma CatBoostNotLinear()
    ensures !IsLinearModel("CatBoostClassifier")
  {
    NoneMentioned("CatBoostClassifier", LinearKeywords, "nnLg", 0);
  }

  lemma CatBoostNotNlp()
    ensures !IsNlpModel("CatBoostClassifier")
  {
    NoneMentioned("CatBoostClassifier", NlpKeywords, "TTmTT", 0);
  }

  lemma CatBoostNotCluster()
    ensures !IsClusterModel("CatBoostClassifier")
  {
    NoneMentioned("CatBoostClassifier", ClusterKeywords, "nNcc", 0);
  }

  /** A boosted tree ensemble that no tree keyword names gets the generic text. */
  lemma CatBoostIsGeneric()
    ensures FamilyOf("CatBoostClassifier") == Generic
  {
    CatBoostNotTimeSeries();
    CatBoostNotImage();
    CatBoostNotTree();
    CatBoostNotLinear();
    CatBoostNotNlp();
    CatBoostNotCluster();
  }

  lemma MarianMtNotTimeSeries()
    ensures !IsTimeSeriesModel("MarianMT")
  {
    NoneMentioned("MarianMT", TimeSeriesKeywords, "AtSUARH", 0);
  }

  lemma MarianMtNotImage()
    ensures !IsImageModel("MarianMT")
  {
    NoneMentioned("MarianMT", ImageKeywords, "tNGt", 0);
  }

  lemma MarianMtNotTree()
    ensures !IsTreeModel("MarianMT")
  {
    NoneMentioned("MarianMT", TreeKeywords, "ttBBe", 0);
  }

  lemma MarianMtNotLinear()
    ensures !IsLinearModel("MarianMT")
  {
    NoneMentioned("MarianMT", LinearKeywords, "oooe", 0);
  }

  lemma MarianMtNotNlp()
    ensures !IsNlpModel("MarianMT")
  {
    NoneMentioned("MarianMT", NlpKeywords, "RRePR", 0);
  }

  lemma MarianMtNotCluster()
    ensures !IsClusterModel("MarianMT")
  {
    NoneMentioned("MarianMT", ClusterKeywords, "sNll", 0);
  }

  /** The translation model gets the generic text, not the language-model one. */
  lemma MarianMtIsGeneric()
    ensures FamilyOf("MarianMT") == Generic
  {
    MarianMtNotTimeSeries();
    MarianMtNotImage();
    MarianMtNotTree();
    MarianMtNotLinear();
    MarianMtNotNlp();
    MarianMtNotCluster();
  }
}
