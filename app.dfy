/** `paradigm_and_strategy(task, meta)` of the user interface: the learning
    paradigm of the inferred task and a short list of training settings. */
module App {
  import opened Strings
  import opened Metadata
  import opened TaskInference

  datatype Paradigm = SupervisedLearning | UnsupervisedLearning | UnknownOther

  datatype Optimizer = Adam | Sgd

  /** The settings each branch chooses, before they are written out as text. */
  datatype Strategy =
    | SupervisedPlan(holdout: bool, folds: nat, epochs: nat, batchSize: nat,
                 optimizer: Optimizer, earlyStopping: bool)
    | UnsupervisedPlan(kMeans: bool, pca: bool, apriori: bool)
    | CustomAnalysis

  predicate IsSupervisedTask(t: Task) {
    t == Classification || t == Regression || t == ImageClassification || t == TextClassification
  }

  /** `min(64, max(8, n_rows // 10))` */
  function BatchSize(nRows: nat): (b: nat)
    ensures 8 <= b <= 64
    ensures 80 <= nRows < 650 ==> b == nRows / 10
    ensures nRows < 80 ==> b == 8
    ensures nRows >= 650 ==> b == 64
  {
    var tenth := nRows / 10;
    var atLeast8 := if tenth > 8 then tenth else 8;
    if atLeast8 < 64 then atLeast8 else 64
  }

  /** Lines 17-54: the paradigm and the settings; `n_rows` defaults to 100
      when the metadata has none. */
  function Plan(inf: Inference, m: Meta): (r: (Paradigm, Strategy))
    ensures r.0 == SupervisedLearning <==> IsSupervisedTask(inf.task)
    ensures r.0 == UnsupervisedLearning <==> inf.task == Unsupervised
    ensures r.0 == SupervisedLearning <==> r.1.SupervisedPlan?
    ensures r.0 == UnsupervisedLearning <==> r.1.UnsupervisedPlan?
    ensures r.0 == UnknownOther <==> r.1.CustomAnalysis?
    ensures r.1.SupervisedPlan? ==>
      var n := RowCount(m, 100);
      && r.1.batchSize == BatchSize(n)
      && (r.1.epochs == 10 <==> n < 1000) && (r.1.epochs == 50 <==> n >= 1000)
      && (r.1.holdout <==> n > 50)
      && (r.1.folds == 5 <==> n > 200) && (r.1.folds == 3 <==> n <= 200)
      && (r.1.optimizer == Sgd <==> inf.task == Regression)
      && (r.1.earlyStopping <==> n > 100)
    ensures r.1.UnsupervisedPlan? ==>
      var k := |Columns(m)|;
      (r.1.kMeans <==> k < 10) && (r.1.pca <==> k < 20) && (r.1.apriori <==> k > 2)
  {
    if IsSupervisedTask(inf.task) then
      var n := RowCount(m, 100);
      var optimizer := if inf.task == Regression then Sgd else Adam;
      (SupervisedLearning,
       SupervisedPlan(n > 50, if n > 200 then 5 else 3, if n < 1000 then 10 else 50,
                  BatchSize(n), optimizer, n > 100))
    else if inf.task == Unsupervised then
      var k := |Columns(m)|;
      (UnsupervisedLearning, UnsupervisedPlan(k < 10, k < 20, k > 2))
    else
      (UnknownOther, CustomAnalysis)
  }

  function ParadigmName(p: Paradigm): string {
    match p
    case SupervisedLearning => "Supervised Learning"
    case UnsupervisedLearning => "Unsupervised Learning"
    case UnknownOther => "Unknown/Other"
  }

  const BatchLabel := "Batch size: "

  /** The strategy lines of lines 30-37, 45-49 and 52. */
  function StrategyLines(s: Strategy): (lines: seq<string>)
    ensures |lines| == (match s case SupervisedPlan(_, _, _, _, _, _) => 6 case UnsupervisedPlan(_, _, _) => 3 case CustomAnalysis => 1)
    ensures s.SupervisedPlan? ==> lines[3] == BatchLabel + NatToString(s.batchSize)
  {
    match s
    case SupervisedPlan(holdout, folds, epochs, batchSize, optimizer, earlyStopping) =>
      ["Split: " + (if holdout then "80% train / 20% test" else "Leave-one-out"),
       "Cross-validation: " + NatToString(folds) + "-fold",
       "Epochs: " + NatToString(epochs),
       BatchLabel + NatToString(batchSize),
       "Optimizer: " + (if optimizer == Adam then "Adam" else "SGD"),
       "Early stopping: " + (if earlyStopping then "Yes" else "No")]
    case UnsupervisedPlan(kMeans, pca, apriori) =>
      ["Clustering: " + (if kMeans then "K-means" else "DBSCAN"),
       "Dimensionality Reduction: " + (if pca then "PCA" else "t-SNE"),
       "Association Rule Mining: " + (if apriori then "Apriori" else "None")]
    case CustomAnalysis =>
      ["Custom analysis required"]
  }

  /** `paradigm_and_strategy(task, meta)`: the paradigm's name and the lines. */
  function ParadigmAndStrategy(inf: Inference, m: Meta): (r: (string, seq<string>))
    ensures r.0 == "Supervised Learning" <==> IsSupervisedTask(inf.task)
    ensures r.0 == "Unsupervised Learning" <==> inf.task == Unsupervised
    ensures r.0 == "Unknown/Other" <==> !IsSupervisedTask(inf.task) && inf.task != Unsupervised
    ensures IsSupervisedTask(inf.task) ==>
      var n := RowCount(m, 100);
      && |r.1| == 6
      && r.1[0] == "Split: " + (if n > 50 then "80% train / 20% test" else "Leave-one-out")
      && r.1[1] == "Cross-validation: " + (if n > 200 then "5" else "3") + "-fold"
      && r.1[2] == "Epochs: " + (if n < 1000 then "10" else "50")
      && r.1[3] == BatchLabel + NatToString(BatchSize(n))
      && r.1[4] == "Optimizer: " + (if inf.task == Regression then "SGD" else "Adam")
      && r.1[5] == "Early stopping: " + (if n > 100 then "Yes" else "No")
    ensures inf.task == Unsupervised ==>
      var k := |Columns(m)|;
      r.1 == ["Clustering: " + (if k < 10 then "K-means" else "DBSCAN"),
              "Dimensionality Reduction: " + (if k < 20 then "PCA" else "t-SNE"),
              "Association Rule Mining: " + (if k > 2 then "Apriori" else "None")]
    ensures !IsSupervisedTask(inf.task) && inf.task != Unsupervised ==> r.1 == ["Custom analysis required"]
  {
    var (p, s) := Plan(inf, m);
    (ParadigmName(p), StrategyLines(s))
  }

  // ---------------------------------------------------------------------------
  // Properties

  /** The batch size never shrinks as the row count grows. */
  lemma BatchSizeMonotone(a: nat, b: nat)
    requires a <= b
    ensures BatchSize(a) <= BatchSize(b)
  {
    assert a / 10 <= b / 10 by { DivMonotone(a, b); }
  }

  lemma {:induction false} DivMonotone(a: nat, b: nat)
    requires a <= b
    ensures a / 10 <= b / 10
  {
    assert a == 10 * (a / 10) + a % 10;
    assert b == 10 * (b / 10) + b % 10;
  }

  /** The batch-size line reads back as the chosen batch size, which lies
      between 8 and 64. */
  lemma BatchLineReadsBack(inf: Inference, m: Meta)
    requires IsSupervisedTask(inf.task)
    ensures var lines := ParadigmAndStrategy(inf, m).1;
      |lines| == 6 && lines[3][..12] == BatchLabel
      && (forall i | 12 <= i < |lines[3]| :: IsDigit(lines[3][i]))
      && 8 <= DigitsValue(lines[3][12..]) <= 64
  {
    var s := Plan(inf, m).1;
    var line := BatchLabel + NatToString(s.batchSize);
    assert line[12..] == NatToString(s.batchSize);
    NatToStringRoundTrip(s.batchSize);
  }

  /** Metadata without `n_rows` (an image folder, a text file) is planned as
      100 rows: holdout split, 3 folds, 10 epochs, batch size 10, no early
      stopping. */
  lemma DefaultRowCount(inf: Inference, m: Meta)
    requires IsSupervisedTask(inf.task) && !m.Tabular?
    ensures Plan(inf, m).1 == SupervisedPlan(true, 3, 10, 10, Plan(inf, m).1.optimizer, false)
  {
  }

  /** Binary classification and time-series forecasting are not among the
      supervised tags, so they get the custom-analysis line. */
  lemma UnlistedSupervisedTasks(inf: Inference, m: Meta)
    requires inf.task == BinaryClassification || inf.task == TimeSeriesForecasting
    ensures Plan(inf, m) == (UnknownOther, CustomAnalysis)
  {
  }
}
