/**
 * `ResultsExporter`: the response-text lookup `_get_response_text` and the
 * CSV export `export_to_csv`: its header, the row it builds for each result
 * and what ends up written. The CSV text encoding of each value, and the
 * opening and writing of the file, are not modelled.
 */
module Export {
  import opened Values
  import opened Text
  import opened Paths
  import MetricCommon

  /** The values `in` works on. */
  predicate IsContainer(v: Value)
  {
    v.Obj? || v.List? || v.Str?
  }

  /** `key in container`. */
  function Has(container: Value, key: string): bool
    requires IsContainer(container)
  {
    Contains(container, key).value
  }

  /** `_get_response_text(response)`: the first of `text`, `answer`, `content`
      that is present, else `message['content']` when there is one, else "".
      Presence decides, not truthiness; `in` and `[]` behave as on any value. */
  function ResponseText(response: Value): (r: Result<Value>)
    ensures response.Obj? && HasKey(response.fields, "text") ==> r == Ok(Get(response.fields, "text", Null))
    ensures response.Obj? && !HasKey(response.fields, "text") && HasKey(response.fields, "answer") ==>
      r == Ok(Get(response.fields, "answer", Null))
    ensures response.Obj? && !HasKey(response.fields, "text") && !HasKey(response.fields, "answer") && HasKey(response.fields, "content") ==>
      r == Ok(Get(response.fields, "content", Null))
    ensures response.Obj? && !HasKey(response.fields, "text") && !HasKey(response.fields, "answer") && !HasKey(response.fields, "content") ==>
      if !HasKey(response.fields, "message") then r == Ok(Str(""))
      else
        var message := Get(response.fields, "message", Null);
        if message.Obj? then r == Ok(Get(message.fields, "content", Str("")))
        else if !IsContainer(message) then r == Err(TypeError)
        else r.Err? || r == Ok(Str(""))
    ensures !IsContainer(response) ==> r == Err(TypeError)
  {
    if !IsContainer(response) then Err(TypeError)
    else if Has(response, "text") then Index(response, "text")
    else if Has(response, "answer") then Index(response, "answer")
    else if Has(response, "content") then Index(response, "content")
    else if !Has(response, "message") then Ok(Str(""))
    else
      var message :- Index(response, "message");
      if !IsContainer(message) then Err(TypeError)
      else if Has(message, "content") then Index(message, "content")
      else Ok(Str(""))
  }

  /** The export and the metrics disagree on a present but empty `text`: the
      export keeps the empty text, the metrics fall back to `answer`. */
  lemma PresenceNotTruthiness()
    ensures ResponseText(Obj([("text", Str("")), ("answer", Str("x"))])) == Ok(Str(""))
    ensures MetricCommon.MetricResponseText(Obj([("text", Str("")), ("answer", Str("x"))])) == Ok(Str("x"))
  {
  }

  /** The seven columns every export starts with. */
  const BaseColumns: seq<string> :=
    ["test_id", "question", "ground_truth", "response", "response_time_ms", "passed", "overall_score"]

  /** The column of a metric. */
  function MetricColumn(name: string): (column: string)
    ensures |column| == 7 + |name| && column[..7] == "metric_" && column[7..] == name
  {
    "metric_" + name
  }

  /** `[f"metric_{name}" for name in metrics.keys()]`. */
  function MetricColumns(metrics: Fields): (columns: seq<string>)
    ensures |columns| == |metrics|
    ensures forall i | 0 <= i < |metrics| :: columns[i] == MetricColumn(metrics[i].0)
  {
    seq(|metrics|, i requires 0 <= i < |metrics| => MetricColumn(metrics[i].0))
  }

  /** `result.get('evaluation', {}).get('metrics', {})`, which must be a dict
      for its keys or items to be listed. */
  function MetricsOf(result: Value): (r: Result<Fields>)
    ensures r.Ok? ==> result.Obj?
  {
    var evaluation :- DictGet(result, "evaluation", Obj([]));
    var metrics :- DictGet(evaluation, "metrics", Obj([]));
    if metrics.Obj? then Ok(metrics.fields) else Err(AttributeError)
  }

  /** The header, taken from the first result: the base columns, then one
      column per metric of that result, in its order. */
  function Columns(first: Value): (r: Result<seq<string>>)
    ensures r.Ok? <==> MetricsOf(first).Ok?
    ensures r.Ok? ==> r.value == BaseColumns + MetricColumns(MetricsOf(first).value)
  {
    var _ :- DictGet(first, "test_case", Obj([]));
    var metrics :- MetricsOf(first);
    Ok(BaseColumns + MetricColumns(metrics))
  }

  /** The row dict: the seven base entries with their defaults, then the
      result's metric scores under their columns. */
  function Row(result: Value): (r: Result<Fields>)
    ensures r.Ok? ==> MetricsOf(result).Ok?
    ensures r.Ok? ==> forall k | k in Keys(r.value) ::
      k in BaseColumns || NamesMetric(k, MetricsOf(result).value)
  {
    if !result.Obj? then Err(AttributeError)
    else
      var testCase := Get(result.fields, "test_case", Obj([]));
      var evaluation := Get(result.fields, "evaluation", Obj([]));
      if !evaluation.Obj? || !testCase.Obj? then Err(AttributeError)
      else
        var metrics := Get(evaluation.fields, "metrics", Obj([]));
        var text :- ResponseText(Get(result.fields, "response", Obj([])));
        if !metrics.Obj? then Err(AttributeError)
        else
          var base := [("test_id", Get(testCase.fields, "id", Str("unknown"))),
                       ("question", Get(testCase.fields, "question", Str(""))),
                       ("ground_truth", Get(testCase.fields, "ground_truth", Str(""))),
                       ("response", text),
                       ("response_time_ms", Get(result.fields, "response_time_ms", Num(0.0))),
                       ("passed", Get(evaluation.fields, "passed", Bool(false))),
                       ("overall_score", Get(evaluation.fields, "overall_score", Num(0.0)))];
          BaseRowKeys(base);
          Ok(AddMetrics(base, metrics.fields))
  }

  lemma BaseRowKeys(base: Fields)
    requires |base| == 7 && forall i | 0 <= i < 7 :: base[i].0 == BaseColumns[i]
    ensures Keys(base) == BaseColumns
  {
  }

  /** Whether `k` is the column of one of `metrics`. */
  predicate NamesMetric(k: string, metrics: Fields)
  {
    exists i | 0 <= i < |metrics| :: k == MetricColumn(metrics[i].0)
  }

  /** `row[f"metric_{name}"] = value` for each metric in turn. */
  function AddMetrics(row: Fields, metrics: Fields): (r: Fields)
    ensures forall k | k in Keys(r) :: k in Keys(row) || NamesMetric(k, metrics)
    ensures forall i | 0 <= i < |metrics| :: MetricColumn(metrics[i].0) in Keys(r)
    decreases |metrics|
  {
    if |metrics| == 0 then row
    else
      var prior := metrics[..|metrics| - 1];
      var earlier := AddMetrics(row, prior);
      var (name, value) := metrics[|metrics| - 1];
      AddMetricStep(row, prior, earlier, name, value);
      assert metrics == prior + [(name, value)];
      Set(earlier, MetricColumn(name), value)
  }

  /** One more metric column keeps both halves of the contract of `AddMetrics`. */
  lemma AddMetricStep(row: Fields, prior: Fields, earlier: Fields, name: string, value: Value)
    requires forall k | k in Keys(earlier) :: k in Keys(row) || NamesMetric(k, prior)
    requires forall i | 0 <= i < |prior| :: MetricColumn(prior[i].0) in Keys(earlier)
    ensures var metrics, r := prior + [(name, value)], Set(earlier, MetricColumn(name), value);
      && (forall k | k in Keys(r) :: k in Keys(row) || NamesMetric(k, metrics))
      && (forall i | 0 <= i < |metrics| :: MetricColumn(metrics[i].0) in Keys(r))
  {
    var metrics, r := prior + [(name, value)], Set(earlier, MetricColumn(name), value);
    SetKeys(earlier, MetricColumn(name), value);
    forall k | k in Keys(r)
      ensures k in Keys(row) || NamesMetric(k, metrics)
    {
      if k == MetricColumn(name) {
        assert k == MetricColumn(metrics[|prior|].0);
      } else if !(k in Keys(row)) {
        var i :| 0 <= i < |prior| && k == MetricColumn(prior[i].0);
        assert k == MetricColumn(metrics[i].0);
      }
    }
    assert forall i | 0 <= i < |prior| :: metrics[i] == prior[i];
  }

  /** `writer.writerow(row)`: a row with a key that is not a column raises
      `ValueError`; otherwise the values are written in column order, with ""
      for a missing one. */
  function Record(columns: seq<string>, result: Value): (r: Result<seq<Value>>)
    ensures r.Ok? ==> |r.value| == |columns|
    ensures r.Ok? ==> Row(result).Ok? && forall k | k in Keys(Row(result).value) :: k in columns
  {
    var row :- Row(result);
    if exists k | k in Keys(row) :: k !in columns then Err(ValueError("dict contains fields not in fieldnames"))
    else Ok(seq(|columns|, i requires 0 <= i < |columns| => Get(row, columns[i], Str(""))))
  }

  /** What the row loop has written, and whether it got through every result. */
  datatype Written = Written(records: seq<seq<Value>>, complete: bool)

  /** The row loop over `results`, where `record` is what one `writerow` call
      writes or raises. */
  function WriteRows(results: seq<Value>, record: Value -> Result<seq<Value>>): (w: Written)
    ensures |w.records| <= |results|
    ensures w.complete ==> |w.records| == |results|
    decreases |results|
  {
    if |results| == 0 then Written([], true)
    else
      var earlier := WriteRows(results[..|results| - 1], record);
      if !earlier.complete then earlier
      else
        match record(results[|results| - 1])
        case Ok(written) => Written(earlier.records + [written], true)
        case Err(_) => Written(earlier.records, false)
  }

  /** The records written are those of the first results, one each, in order. */
  lemma {:induction false} RecordsInOrder(results: seq<Value>, record: Value -> Result<seq<Value>>, i: nat)
    requires i < |WriteRows(results, record).records|
    ensures record(results[i]) == Ok(WriteRows(results, record).records[i])
    decreases |results|
  {
    var prefix := results[..|results| - 1];
    var earlier := WriteRows(prefix, record);
    var w := WriteRows(results, record);
    if i < |earlier.records| {
      RecordsInOrder(prefix, record, i);
      assert prefix[i] == results[i];
      assert w.records[i] == earlier.records[i];
    } else {
      assert earlier.complete && |earlier.records| == |prefix|;
      var last := record(results[|results| - 1]);
      assert last.Ok? && w.records == earlier.records + [last.value];
    }
  }

  /** What the CSV file holds. */
  datatype CsvFile = CsvFile(header: seq<string>, records: seq<seq<Value>>)

  /** The outcome of `export_to_csv`: the path it returns ("" on failure) and
      the file it wrote, if it got as far as opening one. */
  datatype CsvExport = CsvExport(path: string, file: Option<CsvFile>)

  /** The path written to: `output_path`, or a timestamped name in the export
      directory when that is missing or empty. */
  function CsvPath(outputPath: Option<string>, exportDir: string, timestamp: string): string
  {
    if outputPath.None? || outputPath.value == "" then Join(exportDir, "results_" + timestamp + ".csv")
    else outputPath.value
  }

  /** `export_to_csv(results, output_path)`: every exception inside is caught
      and turns the returned path into "". */
  function ExportedCsv(results: seq<Value>, outputPath: Option<string>, exportDir: string, timestamp: string): (r: CsvExport)
    ensures |results| == 0 ==> r == CsvExport("", None)
    ensures r.file.Some? ==> Columns(results[0]).Ok? && r.file.value.header == Columns(results[0]).value
    ensures r.path != "" ==> r.file.Some? && |r.file.value.records| == |results|
  {
    if |results| == 0 then CsvExport("", None)
    else
      match Columns(results[0])
      case Err(_) => CsvExport("", None)
      case Ok(columns) =>
        var written := WriteRows(results, result => Record(columns, result));
        var path := if written.complete then CsvPath(outputPath, exportDir, timestamp) else "";
        CsvExport(path, Some(CsvFile(columns, written.records)))
  }

  /** `export_to_csv`, with its row loop. */
  method ExportToCsv(results: seq<Value>, outputPath: Option<string>, exportDir: string, timestamp: string)
    returns (r: CsvExport)
    ensures r == ExportedCsv(results, outputPath, exportDir, timestamp)
  {
    if |results| == 0 {
      return CsvExport("", None);
    }
    var path := CsvPath(outputPath, exportDir, timestamp);
    var header := Columns(results[0]);
    if header.Err? {
      return CsvExport("", None);
    }
    var columns := header.value;
    var write := result => Record(columns, result);
    var records: seq<seq<Value>> := [];
    var i := 0;
    while i < |results|
      invariant 0 <= i <= |results|
      invariant WriteRows(results[..i], write) == Written(records, true)
    {
      assert results[..i + 1][..i] == results[..i];
      var record := write(results[i]);
      if record.Err? {
        WriteRowsStops(results, write, i + 1);
        return CsvExport("", Some(CsvFile(columns, records)));
      }
      records := records + [record.value];
      i := i + 1;
    }
    assert results[..i] == results;
    r := CsvExport(path, Some(CsvFile(columns, records)));
  }

  /** Once a row fails, nothing more is written. */
  lemma {:induction false} WriteRowsStops(results: seq<Value>, record: Value -> Result<seq<Value>>, k: nat)
    requires k <= |results| && !WriteRows(results[..k], record).complete
    ensures WriteRows(results, record) == WriteRows(results[..k], record)
    decreases |results| - k
  {
    if k < |results| {
      assert results[..k + 1][..k] == results[..k];
      WriteRowsStops(results, record, k + 1);
    } else {
      assert results[..k] == results;
    }
  }

  /** The defaults of a row: an empty result gives test_id 'unknown', empty
      question, ground truth and response, time 0, not passed and score 0. */
  lemma RowDefaults()
    ensures Row(Obj([])) == Ok([("test_id", Str("unknown")), ("question", Str("")), ("ground_truth", Str("")),
                                ("response", Str("")), ("response_time_ms", Num(0.0)), ("passed", Bool(false)),
                                ("overall_score", Num(0.0))])
  {
    assert ResponseText(Obj([])) == Ok(Str(""));
  }

  /** A result whose metric names are among the first result's ones fits the
      header: none of its row keys is missing from the columns. */
  lemma SameMetricsFit(first: Value, result: Value)
    requires Columns(first).Ok? && Row(result).Ok?
    requires forall name | name in Keys(MetricsOf(result).value) :: name in Keys(MetricsOf(first).value)
    ensures forall k | k in Keys(Row(result).value) :: k in Columns(first).value
  {
    var firstMetrics := MetricsOf(first).value;
    var metrics := MetricsOf(result).value;
    forall k | k in Keys(Row(result).value) && k !in BaseColumns ensures k in Columns(first).value {
      var i :| 0 <= i < |metrics| && k == MetricColumn(metrics[i].0);
      assert Keys(metrics)[i] == metrics[i].0;
      MetricColumnListed(firstMetrics, metrics[i].0);
    }
  }

  lemma MetricColumnListed(metrics: Fields, name: string)
    requires name in Keys(metrics)
    ensures MetricColumn(name) in BaseColumns + MetricColumns(metrics)
  {
    var j :| 0 <= j < |metrics| && Keys(metrics)[j] == name;
    assert (BaseColumns + MetricColumns(metrics))[7 + j] == MetricColumn(name);
  }

  /** A result carrying a metric the first result lacks makes the writer
      raise: the export returns "" after the rows before it. */
  lemma NewMetricAborts(columns: seq<string>, result: Value, name: string)
    requires Row(result).Ok? && MetricColumn(name) in Keys(Row(result).value) && MetricColumn(name) !in columns
    ensures Record(columns, result).Err?
  {
  }
}
