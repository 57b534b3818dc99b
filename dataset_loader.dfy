/** `detect_dataset`: classify a dataset file by its suffix and summarise it.
    The readers the Python code calls (pandas' `read_csv`, `zipfile`,
    `readlines` with `json.loads` per line, `json.load`) are not modelled;
    their outcomes for the path at hand arrive together in a `Reader`. */
module DatasetLoader {
  import opened Wrappers
  import opened Strings
  import opened Metadata

  /** pandas' summary of one column of the sampled frame:
      `str(dtype)`, `nunique()` and `isna().mean()`. */
  datatype ColumnSummary = ColumnSummary(name: string, dtype: string, nUnique: nat, missing: real)

  /** A delimited file as pandas reads it: how many data rows the file holds,
      and one summary per column (in header order) of the rows it kept. */
  datatype CsvFrame = CsvFrame(totalRows: nat, columns: seq<ColumnSummary>)

  /** One line of a text file, newline included, and what `json.loads` made of it. */
  datatype Line = Line(text: string, parsed: Option<Json>)

  /** What each reader yields for the path: a frame or the exception's message;
      the archive's member names, or `None` when `zipfile.is_zipfile` says no;
      the file's lines; the parsed JSON document or the exception's message. */
  datatype Reader = Reader(
    csv: Result<CsvFrame, string>,
    archive: Option<seq<string>>,
    lines: Result<seq<Line>, string>,
    document: Result<Json, string>)

  /** An exception a reader raised and `detect_dataset` let through, or the
      `ValueError` it raises itself when no branch applies. */
  datatype LoadError = ReaderError(message: string) | UnsupportedFormat(message: string)

  function Min(a: nat, b: nat): nat { if a <= b then a else b }

  /** Lines 8-13 and 56-61: one column record per frame column, in order. */
  function TabularMeta(frame: CsvFrame, sampleSize: nat): (m: Meta)
    ensures m.Tabular? && m.nRows <= sampleSize && m.nRows <= frame.totalRows
    ensures m.nRows == sampleSize || m.nRows == frame.totalRows
    ensures |m.columns| == |frame.columns|
    ensures forall i :: 0 <= i < |m.columns| ==>
      var c, s := m.columns[i], frame.columns[i];
      c.name == s.name && c.dtype == s.dtype && c.nUnique == s.nUnique && c.missing == s.missing && c.isDatetime.None?
    ensures m == LoadedTable(m.nRows, m.columns)
  {
    LoadedTable(Min(frame.totalRows, sampleSize),
      seq(|frame.columns|, i requires 0 <= i < |frame.columns| =>
        var s := frame.columns[i];
        Column(s.name, s.dtype, s.nUnique, s.missing, None)))
  }

  predicate NotSlash(c: char) { c != '/' }

  /** `name.split("/")[0]`: everything before the first '/'. */
  function FirstSegment(name: string): (d: string)
    ensures '/' !in d
    ensures StartsWith(name, d)
    ensures '/' in name ==> |d| < |name| && name[|d|] == '/'
    ensures '/' !in name ==> d == name
  {
    var n := Span(name, NotSlash);
    assert forall c :: c in name[..n] ==> c != '/';
    name[..n]
  }

  /** Lines 18-19: the distinct top-level folders among the archive members
      whose name contains '/'; members without '/' do not contribute. */
  function ImageClasses(members: seq<string>): (classes: set<string>)
    ensures forall d :: d in classes <==> exists f :: f in members && '/' in f && FirstSegment(f) == d
    ensures forall d :: d in classes ==> '/' !in d
  {
    set f | f in members && '/' in f :: FirstSegment(f)
  }

  /** Keys of a parsed object in first-occurrence order; a key repeated in the
      text appears once, as in the `dict` that `json` builds. */
  function Distinct(names: seq<string>): (r: seq<string>)
    ensures forall i, j :: 0 <= i < j < |r| ==> r[i] != r[j]
    ensures forall x :: x in r <==> x in names
    ensures |r| <= |names|
    ensures forall i, j, k :: 0 <= i < j < |r| && 0 <= k < |names| && names[k] == r[j] ==> r[i] in names[..k]
  {
    if |names| == 0 then []
    else
      var front := names[..|names| - 1];
      var init := Distinct(front);
      var last := names[|names| - 1];
      assert forall x :: x in names <==> x in front || x == last;
      assert forall k :: 0 <= k < |front| ==> names[..k] == front[..k];
      if last in init then init else init + [last]
  }

  function ObjectKeys(members: seq<(string, Json)>): seq<string> {
    Distinct(seq(|members|, i requires 0 <= i < |members| => members[i].0))
  }

  /** Lines 26-33, applied to the first `sample_size` lines: JSON Lines when
      every kept line parsed and the first is an object, plain text otherwise. */
  function LinesMeta(kept: seq<Line>): (m: Meta)
    ensures m.JsonLines? <==>
      |kept| > 0 && (forall i :: 0 <= i < |kept| ==> kept[i].parsed.Some?) && kept[0].parsed.value.JObject?
    ensures m.JsonLines? ==> m.keys == ObjectKeys(kept[0].parsed.value.members) && m.nLines == |kept|
    ensures m.Text? <==> !m.JsonLines?
    ensures m.Text? ==> m.nLines == |kept| && |m.sample| == Min(5, |kept|)
    ensures m.Text? ==> forall i :: 0 <= i < |m.sample| ==> m.sample[i] == kept[i].text
  {
    if |kept| > 0 && (forall i :: 0 <= i < |kept| ==> kept[i].parsed.Some?) && kept[0].parsed.value.JObject? then
      JsonLines(ObjectKeys(kept[0].parsed.value.members), |kept|)
    else
      Text(seq(Min(5, |kept|), i requires 0 <= i < Min(5, |kept|) => kept[i].text), |kept|)
  }

  /** `str(type(data))` for the JSON values that are neither objects nor arrays. */
  function TypeName(data: Json): string {
    match data
    case JNull => "<class 'NoneType'>"
    case JBool(_) => "<class 'bool'>"
    case JInt(_) => "<class 'int'>"
    case JFloat(_) => "<class 'float'>"
    case JString(_) => "<class 'str'>"
    case JArray(_) => "<class 'list'>"
    case JObject(_) => "<class 'dict'>"
  }

  /** Lines 38-48: the shape of a whole JSON document. */
  function DocumentMeta(data: Json): (m: Meta)
    ensures m.JsonObject? <==> data.JObject?
    ensures m.JsonObject? ==> m.keys == ObjectKeys(data.members)
    ensures m.JsonList? <==> data.JArray? && |data.items| > 0 && data.items[0].JObject?
    ensures m.JsonList? ==> m.keys == ObjectKeys(data.items[0].members) && m.nItems == |data.items|
    ensures m.TextList? <==> data.JArray? && (|data.items| == 0 || !data.items[0].JObject?)
    ensures m.TextList? ==> m.nItems == |data.items| && m.items == data.items[..Min(5, |data.items|)]
    ensures m.JsonUnknown? <==> !data.JObject? && !data.JArray?
    ensures m.JsonObject? || m.JsonList? || m.TextList? || m.JsonUnknown?
  {
    match data
    case JObject(members) => JsonObject(ObjectKeys(members))
    case JArray(items) =>
      if |items| > 0 && items[0].JObject? then JsonList(ObjectKeys(items[0].members), |items|)
      else TextList(|items|, items[..Min(5, |items|)])
    case _ => JsonUnknown(TypeName(data))
  }

  /** The invariants of every metadata value `detect_dataset` returns. */
  predicate Loaded(m: Meta, sampleSize: nat) {
    match m
    case Tabular(nRows, columns, _, _, _, _, _, _) =>
      nRows <= sampleSize && m == LoadedTable(nRows, columns)
      && forall i :: 0 <= i < |columns| ==> columns[i].isDatetime.None?
    case ImageFolder(classes, nClasses) => nClasses == |classes|
    case Text(sample, nLines) => nLines <= sampleSize && |sample| == Min(5, nLines)
    case JsonLines(_, nLines) => 0 < nLines <= sampleSize
    case JsonObject(_) => true
    case JsonList(_, nItems) => nItems > 0
    case TextList(nItems, items) => |items| == Min(5, nItems)
    case JsonUnknown(_) => true
  }

  /** A path that none of the '.csv', '.txt', '.json' branches takes, and that
      is not a readable zip archive: it goes to the final `read_csv` attempt. */
  predicate FallsBack(path: string, reader: Reader) {
    !EndsWith(path, ".csv") && !(EndsWith(path, ".zip") && reader.archive.Some?)
    && !EndsWith(path, ".txt") && !EndsWith(path, ".json")
  }

  /** `detect_dataset(path, sample_size)`. */
  function DetectDataset(path: string, sampleSize: nat, reader: Reader): (r: Result<Meta, LoadError>)
    ensures r.Success? ==> Loaded(r.value, sampleSize)
    ensures EndsWith(path, ".csv") ==>
      (r.Success? <==> reader.csv.Success?) && (r.Success? ==> r.value.Tabular?) && (r.Failure? ==> r.error.ReaderError?)
    ensures EndsWith(path, ".zip") && reader.archive.Some? ==>
      r == Success(ImageFolder(ImageClasses(reader.archive.value), |ImageClasses(reader.archive.value)|))
    ensures EndsWith(path, ".txt") ==>
      (r.Success? <==> reader.lines.Success?) && (r.Success? ==> r.value.Text? || r.value.JsonLines?)
      && (r.Failure? ==> r.error.ReaderError?)
    ensures EndsWith(path, ".json") ==>
      (r.Success? <==> reader.document.Success?) && (r.Failure? ==> r.error.ReaderError?)
      && (r.Success? ==> r.value.JsonObject? || r.value.JsonList? || r.value.TextList? || r.value.JsonUnknown?)
    ensures FallsBack(path, reader) ==>
      (r.Success? <==> reader.csv.Success?) && (r.Success? ==> r.value.Tabular?)
      && (r.Failure? ==> r.error == UnsupportedFormat("Unsupported dataset format: " + path))
    ensures r.Failure? && r.error.UnsupportedFormat? ==> FallsBack(path, reader)
    ensures (EndsWith(path, ".csv") || FallsBack(path, reader)) && reader.csv.Success? ==>
      r == Success(TabularMeta(reader.csv.value, sampleSize))
    ensures EndsWith(path, ".txt") && reader.lines.Success? ==>
      r == Success(LinesMeta(reader.lines.value[..Min(sampleSize, |reader.lines.value|)]))
    ensures EndsWith(path, ".json") && reader.document.Success? ==>
      r == Success(DocumentMeta(reader.document.value))
    ensures EndsWith(path, ".csv") && reader.csv.Failure? ==> r == Failure(ReaderError(reader.csv.error))
    ensures EndsWith(path, ".txt") && reader.lines.Failure? ==> r == Failure(ReaderError(reader.lines.error))
    ensures EndsWith(path, ".json") && reader.document.Failure? ==>
      r == Failure(ReaderError(reader.document.error))
  {
    if EndsWith(path, ".csv") then
      match reader.csv
      case Success(frame) => Success(TabularMeta(frame, sampleSize))
      case Failure(e) => Failure(ReaderError(e))
    else if EndsWith(path, ".zip") && reader.archive.Some? then
      var classes := ImageClasses(reader.archive.value);
      Success(ImageFolder(classes, |classes|))
    else if EndsWith(path, ".txt") then
      match reader.lines
      case Success(lines) => Success(LinesMeta(lines[..Min(sampleSize, |lines|)]))
      case Failure(e) => Failure(ReaderError(e))
    else if EndsWith(path, ".json") then
      match reader.document
      case Success(data) => Success(DocumentMeta(data))
      case Failure(e) => Failure(ReaderError(e))
    else
      match reader.csv
      case Success(frame) => Success(TabularMeta(frame, sampleSize))
      case Failure(_) => Failure(UnsupportedFormat("Unsupported dataset format: " + path))
  }
}
