/** Concrete tables for which the result of `InferTask` is proved: the rule
    order decided on named columns. */
module InferenceScenarios {
  import opened Wrappers
  import opened Strings
  import opened Lists
  import opened Metadata
  import opened TaskInference
  import DatasetLoader

  const DateColumn := Column("date", "datetime64[ns]", 50, 0.0, None)
  const TargetColumn := Column("target", "float64", 40, 0.0, None)

  /** A date column and a numeric "target" column with the datetime flag:
      forecasting wins over the explicit regression target when a target is declared. */
  lemma TimeSeriesBeatsRegressionTarget()
    ensures InferTask(Tabular(50, [DateColumn, TargetColumn], None, Some(true), Some(["target"]), None, None, None))
      == Forecast("date", "target", 90)
  {
    DateColumnFacts();
    TargetColumnFacts();
  }

  /** The same columns with no declared target: "target" is not among the
      forecasting target names and `numeric_columns` is absent, so the
      forecasting rule falls through and the explicit regression target wins. */
  lemma UndeclaredTargetIsRegression()
    ensures InferTask(Tabular(50, [DateColumn, TargetColumn], None, Some(true), None, None, None, None))
      == Targeted(Regression, "target", 90)
  {
    var m := Tabular(50, [DateColumn, TargetColumn], None, Some(true), None, None, None, None);
    DateColumnFacts();
    TargetColumnFacts();
    assert ForecastTarget(m).None?;
    assert TimeSeriesRule(m).None?;
    assert TargetVerdict(DateColumn).None?;
    assert TargetVerdict(TargetColumn) == Some(Targeted(Regression, "target", 90));
    assert FirstIndex(m.columns, HasVerdict) == Some(1);
  }

  /** Neither "target" nor "label" holds the letters of an anomaly keyword. */
  lemma TargetNameNotAnomaly()
    ensures !IsAnomalyName("target")
  {
    NotContained("target", "anomaly", 'n');
    NotContained("target", "outlier", 'o');
    NotContained("target", "fraud", 'f');
    NotContained("target", "error", 'o');
  }

  lemma LabelNameNotAnomaly()
    ensures !IsAnomalyName("label")
  {
    NotContained("label", "anomaly", 'n');
    NotContained("label", "outlier", 'o');
    NotContained("label", "fraud", 'f');
    NotContained("label", "error", 'o');
  }

  lemma DateColumnFacts()
    ensures IsTimeColumn(DateColumn) && !IsImageColumn(DateColumn) && !IsForecastTargetColumn(DateColumn)
    ensures !IsAnomalyColumn(DateColumn) && !IsUserColumn(DateColumn)
    ensures TargetVerdict(DateColumn).None?
  {
    assert Lower("date") == "date";
  }

  lemma TargetColumnFacts()
    ensures !IsTimeColumn(TargetColumn) && !IsImageColumn(TargetColumn) && !IsForecastTargetColumn(TargetColumn)
    ensures !IsAnomalyColumn(TargetColumn) && !IsUserColumn(TargetColumn)
    ensures TargetVerdict(TargetColumn) == Some(Targeted(Regression, "target", 90))
  {
    TargetNameFacts();
    TargetNotAnomaly();
    TargetVerdictFact();
  }

  lemma TargetNameFacts()
    ensures !IsTimeColumn(TargetColumn) && !IsImageColumn(TargetColumn) && !IsForecastTargetColumn(TargetColumn)
    ensures !IsUserColumn(TargetColumn)
  {
    assert Lower("target") == "target";
  }

  lemma TargetNotAnomaly()
    ensures !IsAnomalyColumn(TargetColumn)
  {
    assert Lower(TargetColumn.name) == "target" by { assert Lower("target") == "target"; }
    TargetNameNotAnomaly();
  }

  lemma TargetVerdictFact()
    ensures TargetVerdict(TargetColumn) == Some(Targeted(Regression, "target", 90))
  {
    assert Lower("target") == "target";
    assert StartsWith(TargetColumn.dtype, "float");
  }

  /** A 50-row table whose only column is "label" with two distinct values. */
  lemma BinaryLabelScenario(dtype: string)
    ensures InferTask(DatasetLoader.TabularMeta(
        DatasetLoader.CsvFrame(50, [DatasetLoader.ColumnSummary("label", dtype, 2, 0.0)]), 100))
      == Targeted(BinaryClassification, "label", 90)
  {
    var c := Column("label", dtype, 2, 0.0, None);
    var m := DatasetLoader.TabularMeta(
        DatasetLoader.CsvFrame(50, [DatasetLoader.ColumnSummary("label", dtype, 2, 0.0)]), 100);
    assert m.columns == [c];
    LabelColumnFacts(c);
    assert FirstIndex(m.columns, HasVerdict) == Some(0);
  }

  lemma LabelColumnFacts(c: Column)
    requires c.name == "label" && c.nUnique == 2
    ensures !IsImageColumn(c) && !IsAnomalyColumn(c) && !IsUserColumn(c)
    ensures TargetVerdict(c) == Some(Targeted(BinaryClassification, "label", 90))
  {
    LabelNotAnomaly(c);
    LabelVerdictFact(c);
    assert Lower("label") == "label";
  }

  lemma LabelNotAnomaly(c: Column)
    requires c.name == "label"
    ensures !IsAnomalyColumn(c)
  {
    assert Lower(c.name) == "label" by { assert Lower("label") == "label"; }
    LabelNameNotAnomaly();
  }

  lemma LabelVerdictFact(c: Column)
    requires c.name == "label" && c.nUnique == 2
    ensures TargetVerdict(c) == Some(Targeted(BinaryClassification, "label", 90))
  {
    assert Lower("label") == "label";
    assert !EndsWith("label", "_target");
  }
}
