/**
 * `ResultHandler.save_results`: the file name it derives, the path it writes
 * and the document it writes there. The clock readings (the timestamp in the
 * default name and the ISO time stored in the document) are parameters.
 */
module ResultHandler {
  import opened Values
  import opened Text
  import opened Paths

  /** The `.json` extension rule: a name that already ends in '.json' is kept,
      any other gets '.json' appended. */
  function WithJsonSuffix(filename: string): (r: string)
    ensures EndsWith(r, ".json")
    ensures EndsWith(filename, ".json") ==> r == filename
    ensures !EndsWith(filename, ".json") ==> r == filename + ".json"
  {
    if EndsWith(filename, ".json") then filename
    else
      assert (filename + ".json")[|filename|..] == ".json";
      filename + ".json"
  }

  /** Applying the rule to its own result changes nothing. */
  lemma WithJsonSuffixIdempotent(filename: string)
    ensures WithJsonSuffix(WithJsonSuffix(filename)) == WithJsonSuffix(filename)
  {
  }

  /** The file name used: a missing or empty `filename` gives
      'evaluation_results_<timestamp>.json'. */
  function ResultFilename(filename: Option<string>, timestamp: string): (r: string)
    ensures EndsWith(r, ".json")
    ensures filename.None? || filename == Some("") ==> r == "evaluation_results_" + timestamp + ".json"
    ensures filename.Some? && filename.value != "" ==> r == WithJsonSuffix(filename.value)
  {
    var name := if filename.None? || filename.value == "" then "evaluation_results_" + timestamp + ".json" else filename.value;
    assert name == "evaluation_results_" + timestamp + ".json" ==> EndsWith(name, ".json") by {
      assert ("evaluation_results_" + timestamp + ".json")[|"evaluation_results_" + timestamp|..] == ".json";
    }
    WithJsonSuffix(name)
  }

  /** What `save_results` writes: where, and the document. */
  datatype Saved = Saved(path: string, document: Value)

  /** `save_results(results, output_dir, filename)`, with `timestamp` the
      '%Y%m%d_%H%M%S' reading used for a default name and `isoTime` the
      reading stored in the document. */
  function SaveResults(results: Value, outputDir: string, filename: Option<string>, timestamp: string, isoTime: string): (r: Saved)
    ensures r.path == Join(outputDir, ResultFilename(filename, timestamp))
    ensures EndsWith(r.path, ".json")
    ensures r.document.Obj? && Keys(r.document.fields) == ["timestamp", "results"]
    ensures Lookup(r.document.fields, "results") == Some(results)
    ensures Lookup(r.document.fields, "timestamp") == Some(Str(isoTime))
  {
    var name := ResultFilename(filename, timestamp);
    var path := Join(outputDir, name);
    EndsWithTransitive(path, name, ".json");
    Saved(path, Obj([("timestamp", Str(isoTime)), ("results", results)]))
  }

  lemma EndsWithTransitive(s: string, t: string, u: string)
    requires EndsWith(s, t) && EndsWith(t, u)
    ensures EndsWith(s, u)
  {
    assert s[|s| - |u|..] == t[|t| - |u|..];
  }
}
