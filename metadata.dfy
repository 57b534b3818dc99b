/** The records passed between the stages: JSON values as the loader reads
    them, per-column profiles, and the dataset metadata in each of its shapes.
    Python builds these as dicts; each optional key is an `Option` here, and
    the accessors below give the defaults the code's `meta.get(...)` calls use. */
module Metadata {
  import opened Wrappers

  /** A parsed JSON value; object members keep their textual order, duplicates included. */
  datatype Json =
    | JNull
    | JBool(b: bool)
    | JInt(i: int)
    | JFloat(f: real)
    | JString(s: string)
    | JArray(items: seq<Json>)
    | JObject(members: seq<(string, Json)>)

  /** One tabular column: pandas' dtype name, distinct non-missing values,
      fraction of missing cells, and the optional `is_datetime` flag. */
  datatype Column = Column(name: string, dtype: string, nUnique: nat, missing: real, isDatetime: Option<bool>)

  /** Dataset metadata, tagged by its `type`. The tabular aggregates
      (`potential_timeseries`, `has_datetime`, `potential_targets`,
      `numeric_columns`, `categorical_columns`, `high_cardinality_columns`)
      are optional keys that the loader never fills in. */
  datatype Meta =
    | Tabular(nRows: nat, columns: seq<Column>,
              potentialTimeseries: Option<bool>, hasDatetime: Option<bool>,
              potentialTargets: Option<seq<string>>, numericColumns: Option<seq<string>>,
              categoricalColumns: Option<seq<string>>, highCardinalityColumns: Option<seq<string>>)
    | ImageFolder(classes: set<string>, nClasses: nat)
    | Text(sample: seq<string>, nLines: nat)
    | JsonLines(keys: seq<string>, nLines: nat)
    | JsonObject(keys: seq<string>)
    | JsonList(keys: seq<string>, nItems: nat)
    | TextList(nItems: nat, items: seq<Json>)
    | JsonUnknown(typeName: string)

  /** Tabular metadata as the loader builds it: only `n_rows` and `columns`. */
  function LoadedTable(nRows: nat, columns: seq<Column>): (m: Meta)
    ensures m.Tabular? && m.nRows == nRows && m.columns == columns
    ensures m.potentialTimeseries.None? && m.hasDatetime.None? && m.potentialTargets.None?
    ensures m.numericColumns.None? && m.categoricalColumns.None? && m.highCardinalityColumns.None?
  {
    Tabular(nRows, columns, None, None, None, None, None, None)
  }

  /** `meta.get("columns", [])` */
  function Columns(m: Meta): (cols: seq<Column>)
    ensures m.Tabular? ==> cols == m.columns
    ensures !m.Tabular? ==> cols == []
  {
    if m.Tabular? then m.columns else []
  }

  /** `meta.get("n_rows", default)` */
  function RowCount(m: Meta, default: nat): (n: nat)
    ensures m.Tabular? ==> n == m.nRows
    ensures !m.Tabular? ==> n == default
  {
    if m.Tabular? then m.nRows else default
  }

  /** `meta.get("categorical_columns", [])` */
  function CategoricalColumns(m: Meta): seq<string> {
    if m.Tabular? then m.categoricalColumns.GetOr([]) else []
  }

  /** `meta.get("high_cardinality_columns", [])` */
  function HighCardinalityColumns(m: Meta): seq<string> {
    if m.Tabular? then m.highCardinalityColumns.GetOr([]) else []
  }

  /** `meta.get("n_classes", default)` */
  function ClassCount(m: Meta, default: nat): (n: nat)
    ensures m.ImageFolder? ==> n == m.nClasses
    ensures !m.ImageFolder? ==> n == default
  {
    if m.ImageFolder? then m.nClasses else default
  }
}
