/** `infer_task`: a first-match cascade of rules over the dataset metadata,
    giving one task tag and a confidence. Confidences are kept in hundredths
    (0.95 is 95); they are constants and never enter arithmetic. */
module TaskInference {
  import opened Wrappers
  import opened Strings
  import opened Lists
  import opened Metadata
  import DatasetLoader

  datatype Task =
    | Classification | BinaryClassification | Regression | TimeSeriesForecasting
    | AnomalyDetection | Recommendation | Clustering | ImageClassification
    | ObjectDetection | TextClassification | QuestionAnswering
    | NamedEntityRecognition | Translation | Unsupervised | Unknown

  /** The task dict: its tag, its confidence and the keys some rules add. */
  datatype Inference = Inference(
    task: Task, confidence: nat,
    target: Option<string>, timeCol: Option<string>,
    userCol: Option<string>, itemCol: Option<string>, ratingCol: Option<string>,
    input: Option<string>)

  /** `{"task": t, "confidence": c}` */
  function Bare(t: Task, confidence: nat): Inference {
    Inference(t, confidence, None, None, None, None, None, None)
  }

  /** `{"task": t, "target": target, "confidence": c}` */
  function Targeted(t: Task, target: string, confidence: nat): Inference {
    Bare(t, confidence).(target := Some(target))
  }

  // ---------------------------------------------------------------------------
  // Name tests on columns (lower-cased name, except where noted)

  const ImageColumnNames: set<string> := {"image_path", "image_url", "img", "image"}
  const TimeColumnNames: set<string> :=
    {"date", "time", "datetime", "timestamp", "year", "month", "day", "period", "week"}
  const ForecastTargetNames: set<string> :=
    {"revenue", "sales", "price", "value", "demand", "volume", "consumption", "production", "stock", "return"}
  const UserColumnNames: set<string> := {"user", "user_id", "customer", "customer_id"}
  const ItemColumnNames: set<string> := {"item", "item_id", "product", "product_id"}
  const RatingColumnNames: set<string> := {"rating", "score", "preference", "rank"}
  const RegressionTargetNames: set<string> :=
    {"target", "y", "value", "price", "sales", "revenue", "cases", "count", "amount"}
  const ClassificationTargetNames: set<string> :=
    {"target", "label", "class", "y", "category", "type", "result"}

  predicate IsImageColumn(c: Column) { Lower(c.name) in ImageColumnNames }

  /** `c.get("is_datetime", False) or c["name"].lower() in (...)` */
  predicate IsTimeColumn(c: Column) {
    c.isDatetime.GetOr(false) || Lower(c.name) in TimeColumnNames
  }

  predicate IsForecastTargetColumn(c: Column) { Lower(c.name) in ForecastTargetNames }

  predicate IsAnomalyColumn(c: Column) { IsAnomalyName(Lower(c.name)) }

  predicate IsAnomalyName(n: string) {
    Contains(n, "anomaly") || Contains(n, "outlier") || Contains(n, "fraud") || Contains(n, "error")
  }

  predicate IsUserColumn(c: Column) { Lower(c.name) in UserColumnNames }
  predicate IsItemColumn(c: Column) { Lower(c.name) in ItemColumnNames }
  predicate IsRatingColumn(c: Column) { Lower(c.name) in RatingColumnNames }

  /** `c["dtype"].startswith(("float", "int"))` */
  predicate IsNumeric(c: Column) { StartsWith(c.dtype, "float") || StartsWith(c.dtype, "int") }

  predicate IsRegressionTargetName(c: Column) {
    Lower(c.name) in RegressionTargetNames || EndsWith(Lower(c.name), "_target")
  }

  predicate IsClassificationTargetName(c: Column) {
    var n := Lower(c.name);
    n in ClassificationTargetNames || EndsWith(n, "_class") || EndsWith(n, "_label")
  }

  predicate HasQuantityTerm(c: Column) {
    var n := Lower(c.name);
    Contains(n, "cases") || Contains(n, "count") || Contains(n, "amount")
    || Contains(n, "price") || Contains(n, "value") || Contains(n, "rate")
  }

  /** A column whose name is one of the time columns' names. */
  predicate IsTimeColumnName(cols: seq<Column>, name: string) {
    exists i | 0 <= i < |cols| :: IsTimeColumn(cols[i]) && cols[i].name == name
  }

  // ---------------------------------------------------------------------------
  // The tabular rules, each `None` when it does not fire

  /** Lines 15-17: a column that holds image paths. */
  function ImageRule(cols: seq<Column>): (r: Option<Inference>)
    ensures r.Some? <==> exists i :: 0 <= i < |cols| && IsImageColumn(cols[i])
    ensures r.Some? ==> exists i :: (0 <= i < |cols| && IsImageColumn(cols[i])
      && (forall j :: 0 <= j < i ==> !IsImageColumn(cols[j]))
      && r.value == Bare(ImageClassification, 90).(input := Some(cols[i].name)))
  {
    match FirstIndex(cols, IsImageColumn)
    case Some(i) => Some(Bare(ImageClassification, 90).(input := Some(cols[i].name)))
    case None => None
  }

  function Forecast(timeCol: string, target: string, confidence: nat): Inference {
    Targeted(TimeSeriesForecasting, target, confidence).(timeCol := Some(timeCol))
  }

  /** The target the forecasting rule settles on, and how it was found:
      declared or named like a target (90), or the first numeric column
      listed in `numeric_columns` that is not a time column (85). */
  function ForecastTarget(m: Meta): (r: Option<(string, nat)>)
    requires m.Tabular?
    ensures m.potentialTargets.GetOr([]) != [] ==> r == Some((m.potentialTargets.value[0], 90))
    ensures m.potentialTargets.GetOr([]) == [] ==>
      forall i :: IsFirst(m.columns, IsForecastTargetColumn, i) ==> r == Some((m.columns[i].name, 90))
    ensures (m.potentialTargets.GetOr([]) == []
      && forall i :: 0 <= i < |m.columns| ==> !IsForecastTargetColumn(m.columns[i])) ==>
      forall k :: 0 <= k < |m.numericColumns.GetOr([])|
        && !IsTimeColumnName(m.columns, m.numericColumns.GetOr([])[k])
        && (forall j :: 0 <= j < k ==> IsTimeColumnName(m.columns, m.numericColumns.GetOr([])[j]))
        ==> r == Some((m.numericColumns.GetOr([])[k], 85))
    ensures r.Some? ==> r.value.1 == 90 || r.value.1 == 85
    ensures r.None? <==>
      m.potentialTargets.GetOr([]) == []
      && (forall i :: 0 <= i < |m.columns| ==> !IsForecastTargetColumn(m.columns[i]))
      && (forall n :: n in m.numericColumns.GetOr([]) ==> IsTimeColumnName(m.columns, n))
  {
    var declared := m.potentialTargets.GetOr([]);
    if declared != [] then Some((declared[0], 90))
    else
      FirstIndexFinds(m.columns, IsForecastTargetColumn);
      match FirstIndex(m.columns, IsForecastTargetColumn)
      case Some(k) => Some((m.columns[k].name, 90))
      case None =>
        var numeric := m.numericColumns.GetOr([]);
        match FirstIndex(numeric, n => !IsTimeColumnName(m.columns, n))
        case Some(k) => Some((numeric[k], 85))
        case None => None
  }

  /** Lines 20-53: needs the time-series flag, a time column and a target. */
  function TimeSeriesRule(m: Meta): (r: Option<Inference>)
    requires m.Tabular?
    ensures r.Some? <==>
      (m.potentialTimeseries.GetOr(false) || m.hasDatetime.GetOr(false))
      && (exists i :: 0 <= i < |m.columns| && IsTimeColumn(m.columns[i]))
      && ForecastTarget(m).Some?
    ensures r.Some? ==> r.value.task == TimeSeriesForecasting
    ensures r.Some? ==> forall t :: IsFirst(m.columns, IsTimeColumn, t) ==>
      r.value == Forecast(m.columns[t].name, ForecastTarget(m).value.0, ForecastTarget(m).value.1)
  {
    if !(m.potentialTimeseries.GetOr(false) || m.hasDatetime.GetOr(false)) then None
    else
      FirstIndexFinds(m.columns, IsTimeColumn);
      match FirstIndex(m.columns, IsTimeColumn)
      case None => None
      case Some(t) =>
        match ForecastTarget(m)
        case Some((target, confidence)) => Some(Forecast(m.columns[t].name, target, confidence))
        case None => None
  }

  /** Lines 56-63: a column named like an anomaly flag. */
  function AnomalyRule(cols: seq<Column>): (r: Option<Inference>)
    ensures r.Some? <==> exists i :: 0 <= i < |cols| && IsAnomalyColumn(cols[i])
    ensures r.Some? ==> r.value.task == AnomalyDetection && r.value.confidence == 90
    ensures forall i :: IsFirst(cols, IsAnomalyColumn, i) ==> r == Some(Targeted(AnomalyDetection, cols[i].name, 90))
  {
    FirstIndexFinds(cols, IsAnomalyColumn);
    match FirstIndex(cols, IsAnomalyColumn)
    case Some(i) => Some(Targeted(AnomalyDetection, cols[i].name, 90))
    case None => None
  }

  /** Lines 66-79: a user-like and an item-like column, and a rating column if one exists. */
  function RecommendationRule(cols: seq<Column>): (r: Option<Inference>)
    ensures r.Some? <==>
      (exists i :: 0 <= i < |cols| && IsUserColumn(cols[i]))
      && (exists i :: 0 <= i < |cols| && IsItemColumn(cols[i]))
    ensures r.Some? ==> (r.value.task == Recommendation && r.value.confidence == 85
      && r.value.userCol.Some? && r.value.itemCol.Some?)
    ensures r.Some? ==> (r.value.ratingCol.Some? <==> exists i :: 0 <= i < |cols| && IsRatingColumn(cols[i]))
    ensures forall u, i :: IsFirst(cols, IsUserColumn, u) && IsFirst(cols, IsItemColumn, i) ==>
      r.Some? && r.value.(ratingCol := None)
        == Bare(Recommendation, 85).(userCol := Some(cols[u].name), itemCol := Some(cols[i].name))
    ensures forall k :: IsFirst(cols, IsRatingColumn, k) && r.Some? ==> r.value.ratingCol == Some(cols[k].name)
  {
    FirstIndexFinds(cols, IsUserColumn);
    FirstIndexFinds(cols, IsItemColumn);
    FirstIndexFinds(cols, IsRatingColumn);
    match (FirstIndex(cols, IsUserColumn), FirstIndex(cols, IsItemColumn))
    case (Some(u), Some(i)) =>
      var info := Bare(Recommendation, 85).(userCol := Some(cols[u].name), itemCol := Some(cols[i].name));
      Some(match FirstIndex(cols, IsRatingColumn)
        case Some(k) => info.(ratingCol := Some(cols[k].name))
        case None => info)
    case _ => None
  }

  /** Lines 89-99, for one column: the regression check comes first, then the
      classification check, which needs at most 50 distinct values. */
  function TargetVerdict(c: Column): (r: Option<Inference>)
    ensures r.Some? ==> r.value.target == Some(c.name) && r.value.confidence == 90
    ensures r.Some? && r.value.task == Regression <==> IsRegressionTargetName(c) && IsNumeric(c)
    ensures r.Some? && r.value.task == BinaryClassification <==>
      !(IsRegressionTargetName(c) && IsNumeric(c)) && IsClassificationTargetName(c) && c.nUnique <= 2
    ensures r.Some? && r.value.task == Classification <==>
      !(IsRegressionTargetName(c) && IsNumeric(c)) && IsClassificationTargetName(c) && 2 < c.nUnique <= 50
    ensures r.Some? ==> r.value.task in {Regression, BinaryClassification, Classification}
  {
    if IsRegressionTargetName(c) && IsNumeric(c) then Some(Targeted(Regression, c.name, 90))
    else if IsClassificationTargetName(c) && c.nUnique <= 50 then
      Some(Targeted(if c.nUnique <= 2 then BinaryClassification else Classification, c.name, 90))
    else None
  }

  predicate HasVerdict(c: Column) { TargetVerdict(c).Some? }

  /** Lines 86-99: the verdict of the first column that has one. */
  function ExplicitTargetRule(cols: seq<Column>): (r: Option<Inference>)
    ensures r.None? <==> forall i :: 0 <= i < |cols| ==> TargetVerdict(cols[i]).None?
    ensures r.Some? ==> exists i :: (0 <= i < |cols| && r == TargetVerdict(cols[i])
      && forall j :: 0 <= j < i ==> TargetVerdict(cols[j]).None?)
  {
    match FirstIndex(cols, HasVerdict)
    case Some(i) => TargetVerdict(cols[i])
    case None => None
  }

  predicate IsQuantityColumn(c: Column) { IsNumeric(c) && HasQuantityTerm(c) }

  /** Lines 103-110: a numeric column named like a quantity. */
  function QuantityRule(cols: seq<Column>): (r: Option<Inference>)
    ensures r.Some? <==> exists i :: 0 <= i < |cols| && IsQuantityColumn(cols[i])
    ensures r.Some? ==> r.value.task == Regression && r.value.confidence == 85
    ensures forall i :: IsFirst(cols, IsQuantityColumn, i) ==> r == Some(Targeted(Regression, cols[i].name, 85))
  {
    FirstIndexFinds(cols, IsQuantityColumn);
    match FirstIndex(cols, IsQuantityColumn)
    case Some(i) => Some(Targeted(Regression, cols[i].name, 85))
    case None => None
  }

  /** Line 114: a "labels" column with a single value. */
  predicate IsConstantLabels(c: Column) { Lower(c.name) == "labels" && c.nUnique == 1 }

  /** Line 115: a "cases" column with more than one value. */
  predicate IsVaryingCases(c: Column) { Lower(c.name) == "cases" && c.nUnique > 1 }

  /** Lines 114-117: a constant "labels" column next to a varying "cases" column. */
  function LabelsCasesRule(cols: seq<Column>): (r: Option<Inference>)
    ensures r.Some? <==>
      (exists i :: 0 <= i < |cols| && IsConstantLabels(cols[i]))
      && (exists i :: 0 <= i < |cols| && IsVaryingCases(cols[i]))
    ensures r.Some? ==> r.value == Targeted(Regression, "cases", 90)
  {
    if (exists i | 0 <= i < |cols| :: IsConstantLabels(cols[i]))
      && (exists i | 0 <= i < |cols| :: IsVaryingCases(cols[i]))
    then Some(Targeted(Regression, "cases", 90))
    else None
  }

  /** Lines 120-123: clustering when numeric columns dominate, else unsupervised. */
  function LastResort(m: Meta): (r: Inference)
    requires m.Tabular?
    ensures r.task == Clustering <==>
      Count(m.columns, IsNumeric) > 3 && |m.categoricalColumns.GetOr([])| < Count(m.columns, IsNumeric)
    ensures r == Bare(Clustering, 70) || r == Bare(Unsupervised, 50)
  {
    var numeric := Count(m.columns, IsNumeric);
    if numeric > 3 && |m.categoricalColumns.GetOr([])| < numeric then Bare(Clustering, 70)
    else Bare(Unsupervised, 50)
  }

  /** Lines 13-123: the rules in their fixed order; the first that fires wins. */
  function InferTabular(m: Meta): (r: Inference)
    requires m.Tabular?
    ensures r.task != Unknown
    ensures 0 < r.confidence <= 100
  {
    var cols := m.columns;
    if ImageRule(cols).Some? then ImageRule(cols).value
    else if TimeSeriesRule(m).Some? then TimeSeriesRule(m).value
    else if AnomalyRule(cols).Some? then AnomalyRule(cols).value
    else if RecommendationRule(cols).Some? then RecommendationRule(cols).value
    else if ExplicitTargetRule(cols).Some? then ExplicitTargetRule(cols).value
    else if QuantityRule(cols).Some? then QuantityRule(cols).value
    else if LabelsCasesRule(cols).Some? then LabelsCasesRule(cols).value
    else LastResort(m)
  }

  // ---------------------------------------------------------------------------
  // Text and JSON

  predicate StartsUpper(w: string) { |w| > 0 && IsUpper(w[0]) }

  /** Lines 126-141 on the joined sample. The capitalised-word test
      `cap / max(1, n) > 0.15` is taken as the exact `20 * cap > 3 * max(1, n)`. */
  function InferText(sample: seq<string>): (r: Inference)
    ensures r.task in {QuestionAnswering, NamedEntityRecognition, TextClassification}
    ensures r.task == QuestionAnswering <==> '?' in Join(" ", sample)
    ensures '?' !in Join(" ", sample) ==>
      (r.task == NamedEntityRecognition <==>
        20 * Count(Words(Join(" ", sample)), StartsUpper) > 3 * AtLeastOne(|Words(Join(" ", sample))|))
    ensures r.task == QuestionAnswering ==> r == Bare(QuestionAnswering, 70)
    ensures r.task == NamedEntityRecognition ==> r == Bare(NamedEntityRecognition, 60)
    ensures r.task == TextClassification ==> r == Bare(TextClassification, 80)
  {
    var text := Join(" ", sample);
    SplitOnLength(text, '?');
    if '?' in text && |SplitOn(text, '?')| > 1 then Bare(QuestionAnswering, 70)
    else
      var words := Words(text);
      var capitalised := Count(words, StartsUpper);
      if 20 * capitalised > 3 * AtLeastOne(|words|) then Bare(NamedEntityRecognition, 60)
      else Bare(TextClassification, 80)
  }

  /** `max(1, n)` */
  function AtLeastOne(n: nat): nat { if n >= 1 then n else 1 }

  const TextIndicators: set<string> := {"text", "content", "body", "description", "title"}
  const LabelIndicators: set<string> := {"label", "class", "category", "sentiment"}

  predicate IsTextFieldKey(k: string) { StartsWith(k, "text_") || EndsWith(k, "_text") }

  /** Lines 144-155 on the keys (case-sensitive); `None` falls through to `unknown`. */
  function InferJson(keys: seq<string>): (r: Option<Inference>)
    ensures r.Some? ==> r.value.task in {TextClassification, Translation}
    ensures r.Some? && r.value.task == TextClassification ==> r.value == Bare(TextClassification, 80)
    ensures r.Some? && r.value.task == Translation ==> r.value == Bare(Translation, 70)
    ensures r.Some? && r.value.task == TextClassification <==>
      (exists k :: k in keys && k in TextIndicators) && (exists k :: k in keys && k in LabelIndicators)
    ensures r.None? <==>
      !((exists k :: k in keys && k in TextIndicators) && (exists k :: k in keys && k in LabelIndicators))
      && forall k :: k in keys ==> !IsTextFieldKey(k)
  {
    if (exists k | k in TextIndicators :: k in keys) && (exists k | k in LabelIndicators :: k in keys) then
      Some(Bare(TextClassification, 80))
    else if exists i | 0 <= i < |keys| :: IsTextFieldKey(keys[i]) then Some(Bare(Translation, 70))
    else None
  }

  // ---------------------------------------------------------------------------

  /** `infer_task(meta)`: total, and `unknown` exactly when no rule applies. */
  function InferTask(m: Meta): (r: Inference)
    ensures 0 <= r.confidence <= 100
    ensures r.task == Unknown <==> r.confidence == 0
    ensures m.ImageFolder? ==>
      r == (if m.nClasses > 20 then Bare(ObjectDetection, 80) else Bare(ImageClassification, 95))
    ensures m.Tabular? ==> r == InferTabular(m) && r.task != Unknown
    ensures m.Text? ==> r == InferText(m.sample)
    ensures (m.JsonObject? || m.JsonList? || m.JsonLines?) ==> r == InferJson(m.keys).GetOr(Bare(Unknown, 0))
    ensures m.Text? ==> r.task in {QuestionAnswering, NamedEntityRecognition, TextClassification}
    ensures (m.JsonObject? || m.JsonList? || m.JsonLines?) ==> r.task in {TextClassification, Translation, Unknown}
    ensures (m.TextList? || m.JsonUnknown?) ==> r == Bare(Unknown, 0)
  {
    match m
    case ImageFolder(_, nClasses) =>
      if nClasses > 20 then Bare(ObjectDetection, 80) else Bare(ImageClassification, 95)
    case Tabular(_, _, _, _, _, _, _, _) => InferTabular(m)
    case Text(sample, _) => InferText(sample)
    case JsonLines(keys, _) => InferJson(keys).GetOr(Bare(Unknown, 0))
    case JsonObject(keys) => InferJson(keys).GetOr(Bare(Unknown, 0))
    case JsonList(keys, _) => InferJson(keys).GetOr(Bare(Unknown, 0))
    case _ => Bare(Unknown, 0)
  }

  // ---------------------------------------------------------------------------
  // Properties

  /** Line 137: exactly 15% capitalised words is not enough for entity recognition. */
  lemma CapitalisedThreshold(sample: seq<string>)
    requires '?' !in Join(" ", sample)
    requires |Words(Join(" ", sample))| == 20
    ensures Count(Words(Join(" ", sample)), StartsUpper) <= 3 ==> InferText(sample).task == TextClassification
    ensures Count(Words(Join(" ", sample)), StartsUpper) >= 4 ==> InferText(sample).task == NamedEntityRecognition
  {
  }

  /** Lines 15-17: an image-path column wins over every other tabular rule,
      and the first such column is the input. */
  lemma ImageColumnFirst(m: Meta, i: nat)
    requires m.Tabular? && i < |m.columns| && IsImageColumn(m.columns[i])
    requires forall j :: 0 <= j < i ==> !IsImageColumn(m.columns[j])
    ensures InferTask(m) == Bare(ImageClassification, 90).(input := Some(m.columns[i].name))
  {
    assert FirstIndex(m.columns, IsImageColumn) == Some(i);
  }

  /** Lines 20-53: when no image column exists and the forecasting rule fires,
      its result is the answer, whichever flag set it and however the target
      was found; the anomaly, recommendation and target rules are not reached. */
  lemma TimeSeriesNext(m: Meta)
    requires m.Tabular? && ImageRule(m.columns).None? && TimeSeriesRule(m).Some?
    ensures InferTask(m) == TimeSeriesRule(m).value
    ensures forall t :: IsFirst(m.columns, IsTimeColumn, t) ==>
      InferTask(m) == Forecast(m.columns[t].name, ForecastTarget(m).value.0, ForecastTarget(m).value.1)
  {
  }

  /** Lines 56-63: when neither the image rule nor forecasting fires, the
      first column named like an anomaly flag is the target, whatever user,
      item or target columns follow. */
  lemma AnomalyColumnNext(m: Meta, i: nat)
    requires m.Tabular? && ImageRule(m.columns).None? && TimeSeriesRule(m).None?
    requires IsFirst(m.columns, IsAnomalyColumn, i)
    ensures InferTask(m) == Targeted(AnomalyDetection, m.columns[i].name, 90)
  {
  }

  /** Lines 66-79: next come the first user-like and the first item-like columns. */
  lemma RecommendationNext(m: Meta, u: nat, i: nat)
    requires m.Tabular? && ImageRule(m.columns).None? && TimeSeriesRule(m).None?
    requires AnomalyRule(m.columns).None?
    requires IsFirst(m.columns, IsUserColumn, u) && IsFirst(m.columns, IsItemColumn, i)
    ensures InferTask(m) == RecommendationRule(m.columns).value
    ensures InferTask(m).task == Recommendation && InferTask(m).confidence == 85
    ensures InferTask(m).userCol == Some(m.columns[u].name) && InferTask(m).itemCol == Some(m.columns[i].name)
    ensures forall k :: IsFirst(m.columns, IsRatingColumn, k) ==> InferTask(m).ratingCol == Some(m.columns[k].name)
    ensures (forall k :: 0 <= k < |m.columns| ==> !IsRatingColumn(m.columns[k])) ==> InferTask(m).ratingCol.None?
  {
  }

  /** Lines 86-99: next, the first column with a target verdict decides. */
  lemma ExplicitTargetNext(m: Meta, i: nat)
    requires m.Tabular? && ImageRule(m.columns).None? && TimeSeriesRule(m).None?
    requires AnomalyRule(m.columns).None? && RecommendationRule(m.columns).None?
    requires IsFirst(m.columns, HasVerdict, i)
    ensures InferTask(m) == TargetVerdict(m.columns[i]).value
  {
    FirstIndexFinds(m.columns, HasVerdict);
  }

  /** Lines 103-110: next, the first numeric column named with a quantity term. */
  lemma QuantityNext(m: Meta, i: nat)
    requires m.Tabular? && ImageRule(m.columns).None? && TimeSeriesRule(m).None?
    requires AnomalyRule(m.columns).None? && RecommendationRule(m.columns).None?
    requires ExplicitTargetRule(m.columns).None?
    requires IsFirst(m.columns, IsQuantityColumn, i)
    ensures InferTask(m) == Targeted(Regression, m.columns[i].name, 85)
  {
  }

  /** Lines 114-117: next, a constant "labels" column beside a varying "cases" column. */
  lemma LabelsCasesNext(m: Meta, l: nat, c: nat)
    requires m.Tabular? && ImageRule(m.columns).None? && TimeSeriesRule(m).None?
    requires AnomalyRule(m.columns).None? && RecommendationRule(m.columns).None?
    requires ExplicitTargetRule(m.columns).None? && QuantityRule(m.columns).None?
    requires l < |m.columns| && IsConstantLabels(m.columns[l])
    requires c < |m.columns| && IsVaryingCases(m.columns[c])
    ensures InferTask(m) == Targeted(Regression, "cases", 90)
  {
  }

  /** Lines 120-123: when no rule fires, clustering or the unsupervised default. */
  lemma LastResortNext(m: Meta)
    requires m.Tabular? && ImageRule(m.columns).None? && TimeSeriesRule(m).None?
    requires AnomalyRule(m.columns).None? && RecommendationRule(m.columns).None?
    requires ExplicitTargetRule(m.columns).None? && QuantityRule(m.columns).None?
    requires LabelsCasesRule(m.columns).None?
    ensures InferTask(m) == LastResort(m)
  {
  }

  /** Lines 20-34: with the flag set, a time column and a declared target, the
      task is forecasting whatever anomaly, user/item or target columns exist;
      the time column is the first one. */
  lemma DeclaredTargetForecasts(m: Meta, t: nat)
    requires m.Tabular? && m.hasDatetime == Some(true)
    requires forall j :: 0 <= j < |m.columns| ==> !IsImageColumn(m.columns[j])
    requires t < |m.columns| && IsTimeColumn(m.columns[t])
    requires forall j :: 0 <= j < t ==> !IsTimeColumn(m.columns[j])
    requires m.potentialTargets.GetOr([]) != []
    ensures InferTask(m) == Forecast(m.columns[t].name, m.potentialTargets.value[0], 90)
  {
    assert FirstIndex(m.columns, IsTimeColumn) == Some(t);
    assert ImageRule(m.columns).None?;
  }

  /** Lines 20-53 and 82-91: without a time-series flag the forecasting rule never fires. */
  lemma NoFlagNoForecast(m: Meta)
    requires m.Tabular? && !m.potentialTimeseries.GetOr(false) && !m.hasDatetime.GetOr(false)
    ensures InferTask(m).task != TimeSeriesForecasting
  {
    assert TimeSeriesRule(m).None?;
    var cols := m.columns;
    if ImageRule(cols).None? && AnomalyRule(cols).None? && RecommendationRule(cols).None?
      && ExplicitTargetRule(cols).Some?
    {
      var i :| 0 <= i < |cols| && ExplicitTargetRule(cols) == TargetVerdict(cols[i]);
    }
  }

  /** The loader never sets the time-series flags, so metadata it produced
      never yields forecasting. */
  lemma LoadedNeverForecasts(m: Meta, sampleSize: nat)
    requires DatasetLoader.Loaded(m, sampleSize)
    ensures InferTask(m).task != TimeSeriesForecasting
  {
    if m.Tabular? {
      NoFlagNoForecast(m);
    }
  }

  /** Lines 114-117: the "labels"/"cases" rule can only fire when no "cases"
      column is numeric, since a numeric one is an explicit regression target. */
  lemma CasesRuleNeedsNonNumericCases(m: Meta)
    requires m.Tabular?
    requires ExplicitTargetRule(m.columns).None?
    ensures forall i :: 0 <= i < |m.columns| && Lower(m.columns[i].name) == "cases" ==> !IsNumeric(m.columns[i])
  {
    forall i | 0 <= i < |m.columns| && Lower(m.columns[i].name) == "cases"
      ensures !IsNumeric(m.columns[i])
    {
      assert TargetVerdict(m.columns[i]).None?;
    }
  }
}
