/** `generate_theory(meta, task, pipeline)`: a list of rule-based theories
    read off the label columns of a classification dataset, plus the text a
    remote language model returns, or its error message. */
module TheoryGenerator {
  import opened Wrappers
  import opened Strings
  import opened Lists
  import opened Metadata
  import opened TaskInference

  /** The two rule sentences of lines 14 and 16. */
  datatype Theory = MultiClass | Binary

  function Sentence(t: Theory): string {
    match t
    case MultiClass => "Multi-class tasks benefit from deeper architectures with residual connections."
    case Binary => "Binary tasks align well with logistic loss functions."
  }

  /** `c["name"].lower() in ("target", "label")` */
  predicate IsLabelColumn(c: Column) {
    var n := Lower(c.name);
    n == "target" || n == "label"
  }

  /** The rule one label column contributes. */
  function TheoryFor(c: Column): (t: Theory)
    ensures t == MultiClass <==> c.nUnique > 2
    ensures t == Binary <==> c.nUnique <= 2
  {
    if c.nUnique > 2 then MultiClass else Binary
  }

  /** The rules of the label columns among `cols`, in column order. */
  function LabelRules(cols: seq<Column>): seq<Theory> {
    if |cols| == 0 then []
    else
      var last := cols[|cols| - 1];
      LabelRules(cols[..|cols| - 1]) + (if IsLabelColumn(last) then [TheoryFor(last)] else [])
  }

  /** The `base_theories` list: empty unless the task tag is exactly
      `classification`. */
  function Rules(task: Task, cols: seq<Column>): (rules: seq<Theory>)
    ensures task != Classification ==> rules == []
  {
    if task == Classification then LabelRules(cols) else []
  }

  /** Lines 7-16: the loop over `meta.get("columns", [])`. */
  method BaseTheories(m: Meta, inf: Inference) returns (rules: seq<Theory>)
    ensures rules == Rules(inf.task, Columns(m))
  {
    rules := [];
    if inf.task == Classification {
      var cols := Columns(m);
      var i := 0;
      while i < |cols|
        invariant 0 <= i <= |cols|
        invariant rules == LabelRules(cols[..i])
      {
        var c := cols[i];
        assert cols[..i + 1][..i] == cols[..i];
        if IsLabelColumn(c) {
          if c.nUnique > 2 {
            rules := rules + [MultiClass];
          } else {
            rules := rules + [Binary];
          }
        }
        i := i + 1;
      }
      assert cols[..|cols|] == cols;
    }
  }

  /** The returned dict: the rules and the `llm` text. */
  datatype TheoryReport = TheoryReport(rules: seq<Theory>, llm: string)

  /** `generate_theory`: the remote completion is a parameter, either the
      returned content or the text of the exception raised. */
  method GenerateTheory(m: Meta, inf: Inference, remote: Result<string, string>)
    returns (r: TheoryReport)
    ensures r.rules == Rules(inf.task, Columns(m))
    ensures remote.Success? ==> r.llm == remote.value
    ensures remote.Failure? ==> |r.llm| == 11 + |remote.error|
    ensures remote.Failure? ==> r.llm[..11] == "LLM error: " && r.llm[11..] == remote.error
  {
    var base := BaseTheories(m, inf);
    match remote
    case Success(content) =>
      r := TheoryReport(base, content);
    case Failure(e) =>
      r := TheoryReport(base, "LLM error: " + e);
  }

  // ---------------------------------------------------------------------------
  // Properties

  /** The theory of each column, in order. */
  function Theories(cols: seq<Column>): (ts: seq<Theory>)
    ensures |ts| == |cols|
    ensures forall k :: 0 <= k < |cols| ==> ts[k] == TheoryFor(cols[k])
  {
    seq(|cols|, k requires 0 <= k < |cols| => TheoryFor(cols[k]))
  }

  /** One rule per label column, in column order, each decided by that
      column's distinct-value count. */
  lemma {:induction false} RulesFollowLabelColumns(cols: seq<Column>)
    ensures Rules(Classification, cols) == Theories(Filter(cols, IsLabelColumn))
  {
    if |cols| > 0 {
      var init := cols[..|cols| - 1];
      var last := cols[|cols| - 1];
      RulesFollowLabelColumns(init);
      assert cols == init + [last];
      FilterSnoc(init, last, IsLabelColumn);
      TheoriesAppend(Filter(init, IsLabelColumn), if IsLabelColumn(last) then [last] else []);
    }
  }

  lemma TheoriesAppend(a: seq<Column>, b: seq<Column>)
    ensures Theories(a + b) == Theories(a) + Theories(b)
  {
  }

  /** The number of rules is the number of label columns. */
  lemma RuleCount(cols: seq<Column>)
    ensures |Rules(Classification, cols)| == Count(cols, IsLabelColumn)
  {
    RulesFollowLabelColumns(cols);
    CountIsFilterLength(cols, IsLabelColumn);
  }

  /** A binary-classification inference, even with a `target` column, gives
      no rules: only the exact `classification` tag is tested. */
  lemma BinaryTaskHasNoRules(cols: seq<Column>)
    ensures Rules(BinaryClassification, cols) == []
  {
  }

  /** A dataset without a `target` or `label` column gives no rules. */
  lemma {:induction false} NoLabelNoRules(cols: seq<Column>)
    requires forall k :: 0 <= k < |cols| ==> !IsLabelColumn(cols[k])
    ensures Rules(Classification, cols) == []
  {
    if |cols| > 0 {
      NoLabelNoRules(cols[..|cols| - 1]);
    }
  }

  /** A `Label` column is matched case-insensitively. */
  lemma CapitalisedLabelMatches(c: Column)
    requires c.name == "Label"
    ensures IsLabelColumn(c)
  {
    assert Lower("Label") == "label";
  }
}
