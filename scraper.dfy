/**
 * The pure parts of the documentation scraper: where a page is saved (the
 * folder chosen from `URL_TO_FOLDER_MAP` and the file name), which links of a
 * page it follows, how it collapses blank lines in the converted markdown, and
 * how it trims the page title. Fetching, HTML parsing and HTML-to-markdown
 * conversion are not modelled: their results are parameters.
 */
module Scraper {
  import opened Text
  import opened Paths
  import opened Values

  const OutputDir: string := "deepeval-docs"
  const DocsPathPrefix: string := "/docs/"

  const FolderRoot: string := ""
  const FolderEvaluation: string := "evaluation"
  const FolderSynthesizer: string := "synthesizer"
  const FolderMetrics: string := "metrics"
  const FolderMetricsMultimodal: string := "metrics/multimodal"
  const FolderBenchmarks: string := "benchmarks"
  const FolderRedTeaming: string := "red-teaming"
  const FolderRedTeamingVulnerabilities: string := "red-teaming/vulnerabilities"
  const FolderOthers: string := "others"

  const VulnerabilitiesSection: string := "red-teaming-vulnerabilities"

  /** `SECTIONS`: the pages the scraper starts from, in the groups the
      source declares them in. */
  const Sections: seq<string> :=
    // Getting Started
    ["getting-started"] +
    // Evaluation
    ["evaluation-introduction",
     "evaluation-test-cases",
     "evaluation-datasets",
     "evaluation-conversation-simulator"] +
    // Synthesizer
    ["synthesizer-introduction",
     "synthesizer-generate-from-docs",
     "synthesizer-generate-from-contexts",
     "synthesizer-generate-from-scratch",
     "synthesizer-generate-from-goldens"] +
    // Metrics
    ["metrics-introduction",
     "metrics-llm-evals",
     "metrics-dag",
     "metrics-answer-relevancy",
     "metrics-faithfulness",
     "metrics-contextual-precision",
     "metrics-contextual-recall",
     "metrics-contextual-relevancy"] +
    ["metrics-task-completion",
     "metrics-tool-correctness",
     "metrics-bias",
     "metrics-toxicity",
     "metrics-summarization",
     "metrics-prompt-alignment",
     "metrics-hallucination",
     "metrics-json-correctness"] +
    ["metrics-ragas",
     "metrics-custom",
     "metrics-conversational-g-eval",
     "multimodal-metrics-image-coherence"] +
    // Benchmarks
    ["benchmarks-introduction"] +
    // Red Teaming
    ["red-teaming-introduction",
     "red-teaming-attack-enhancements",
     VulnerabilitiesSection,
     VulnerabilitiesSection + "-bias",
     VulnerabilitiesSection + "-misinformation",
     VulnerabilitiesSection + "-toxicity",
     VulnerabilitiesSection + "-illegal-activities",
     VulnerabilitiesSection + "-personal-safety"] +
    [VulnerabilitiesSection + "-pii-leakage",
     VulnerabilitiesSection + "-prompt-leakage",
     VulnerabilitiesSection + "-unauthorized-access",
     VulnerabilitiesSection + "-intellectual-property",
     VulnerabilitiesSection + "-excessive-agency",
     VulnerabilitiesSection + "-robustness",
     VulnerabilitiesSection + "-graphic-content",
     VulnerabilitiesSection + "-competition"] +
    // Others
    ["data-privacy",
     "miscellaneous"]

  /** `URL_TO_FOLDER_MAP`, in declaration order. */
  const UrlToFolderMap: seq<(string, string)> :=
    // Getting Started
    [("getting-started", FolderRoot)] +
    // Evaluation
    [("evaluation-introduction", FolderEvaluation),
     ("evaluation-test-cases", FolderEvaluation),
     ("evaluation-datasets", FolderEvaluation),
     ("evaluation-conversation-simulator", FolderEvaluation)] +
    // Synthesizer
    [("synthesizer-introduction", FolderSynthesizer),
     ("synthesizer-generate-from-docs", FolderSynthesizer),
     ("synthesizer-generate-from-contexts", FolderSynthesizer),
     ("synthesizer-generate-from-scratch", FolderSynthesizer),
     ("synthesizer-generate-from-goldens", FolderSynthesizer)] +
    // Metrics
    [("metrics-introduction", FolderMetrics),
     ("metrics-llm-evals", FolderMetrics),
     ("metrics-dag", FolderMetrics),
     ("metrics-answer-relevancy", FolderMetrics),
     ("metrics-faithfulness", FolderMetrics),
     ("metrics-contextual-precision", FolderMetrics),
     ("metrics-contextual-recall", FolderMetrics),
     ("metrics-contextual-relevancy", FolderMetrics)] +
    [("metrics-task-completion", FolderMetrics),
     ("metrics-tool-correctness", FolderMetrics),
     ("metrics-bias", FolderMetrics),
     ("metrics-toxicity", FolderMetrics),
     ("metrics-summarization", FolderMetrics),
     ("metrics-prompt-alignment", FolderMetrics),
     ("metrics-hallucination", FolderMetrics),
     ("metrics-json-correctness", FolderMetrics)] +
    [("metrics-ragas", FolderMetrics),
     ("metrics-custom", FolderMetrics),
     ("metrics-conversational-g-eval", FolderMetrics),
     ("multimodal-metrics-image-coherence", FolderMetricsMultimodal)] +
    // Benchmarks
    [("benchmarks-introduction", FolderBenchmarks)] +
    // Red Teaming
    [("red-teaming-introduction", FolderRedTeaming),
     ("red-teaming-attack-enhancements", FolderRedTeaming),
     (VulnerabilitiesSection, FolderRedTeaming),
     (VulnerabilitiesSection + "-bias", FolderRedTeamingVulnerabilities),
     (VulnerabilitiesSection + "-misinformation", FolderRedTeamingVulnerabilities),
     (VulnerabilitiesSection + "-toxicity", FolderRedTeamingVulnerabilities),
     (VulnerabilitiesSection + "-illegal-activities", FolderRedTeamingVulnerabilities),
     (VulnerabilitiesSection + "-personal-safety", FolderRedTeamingVulnerabilities)] +
    [(VulnerabilitiesSection + "-pii-leakage", FolderRedTeamingVulnerabilities),
     (VulnerabilitiesSection + "-prompt-leakage", FolderRedTeamingVulnerabilities),
     (VulnerabilitiesSection + "-unauthorized-access", FolderRedTeamingVulnerabilities),
     (VulnerabilitiesSection + "-intellectual-property", FolderRedTeamingVulnerabilities),
     (VulnerabilitiesSection + "-excessive-agency", FolderRedTeamingVulnerabilities),
     (VulnerabilitiesSection + "-robustness", FolderRedTeamingVulnerabilities),
     (VulnerabilitiesSection + "-graphic-content", FolderRedTeamingVulnerabilities),
     (VulnerabilitiesSection + "-competition", FolderRedTeamingVulnerabilities)] +
    // Others
    [("data-privacy", FolderOthers),
     ("miscellaneous", FolderOthers)]

  /** `list(URL_TO_FOLDER_MAP.keys())`. */
  function MapKeys(entries: seq<(string, string)>): (keys: seq<string>)
    ensures |keys| == |entries|
    ensures forall i | 0 <= i < |entries| :: keys[i] == entries[i].0
  {
    seq(|entries|, i requires 0 <= i < |entries| => entries[i].0)
  }

  /** Every section has a folder entry: the sections are exactly the map's
      keys, in the same order. */
  lemma SectionsAreMapKeys()
    ensures Sections == MapKeys(UrlToFolderMap)
    ensures forall s | s in Sections :: s in MapKeys(UrlToFolderMap)
  {
  }

  /** The folder loop of `get_filename_from_url`: the value of the first key,
      in declaration order, that occurs in the path; "" when none does. */
  function FolderOf(entries: seq<(string, string)>, path: string): (folder: string)
    ensures (forall i | 0 <= i < |entries| :: !IsSubstring(entries[i].0, path)) ==> folder == ""
    decreases |entries|
  {
    if |entries| == 0 then ""
    else if IsSubstring(entries[0].0, path) then entries[0].1
    else FolderOf(entries[1..], path)
  }

  /** The folder comes from the first key that occurs in the path. */
  lemma {:induction false} FirstMatchingKey(entries: seq<(string, string)>, path: string)
    requires exists j | 0 <= j < |entries| :: IsSubstring(entries[j].0, path)
    ensures exists i | 0 <= i < |entries| ::
      && IsSubstring(entries[i].0, path)
      && FolderOf(entries, path) == entries[i].1
      && forall k | 0 <= k < i :: !IsSubstring(entries[k].0, path)
    decreases |entries|
  {
    if !IsSubstring(entries[0].0, path) {
      var j :| 0 <= j < |entries| && IsSubstring(entries[j].0, path);
      assert entries[1..][j - 1] == entries[j];
      FirstMatchingKey(entries[1..], path);
      var i :| 0 <= i < |entries| - 1 && IsSubstring(entries[1..][i].0, path) && FolderOf(entries[1..], path) == entries[1..][i].1
               && forall k | 0 <= k < i :: !IsSubstring(entries[1..][k].0, path);
      forall k | 0 <= k < i + 1 ensures !IsSubstring(entries[k].0, path) {
        if k > 0 {
          assert entries[k] == entries[1..][k - 1];
        }
      }
      assert IsSubstring(entries[i + 1].0, path) && FolderOf(entries, path) == entries[i + 1].1;
    } else {
      assert IsSubstring(entries[0].0, path) && FolderOf(entries, path) == entries[0].1;
    }
  }

  /** A key that begins with an earlier key is never chosen: whenever it
      occurs in a path, so does the earlier one. So a non-empty folder whose
      every key begins with the same earlier key is never chosen. */
  lemma ShadowedFolderUnused(entries: seq<(string, string)>, path: string, folder: string, j: nat)
    requires folder != "" && j < |entries|
    requires forall i | 0 <= i < |entries| && entries[i].1 == folder :: j < i && StartsWith(entries[i].0, entries[j].0)
    ensures FolderOf(entries, path) != folder
  {
    if exists k | 0 <= k < |entries| :: IsSubstring(entries[k].0, path) {
      FirstMatchingKey(entries, path);
      var i :| 0 <= i < |entries| && IsSubstring(entries[i].0, path) && FolderOf(entries, path) == entries[i].1
               && forall k | 0 <= k < i :: !IsSubstring(entries[k].0, path);
      if entries[i].1 == folder {
        PrefixIsSubstring(entries[j].0, entries[i].0);
        SubstringTransitive(entries[j].0, entries[i].0, path);
      }
    }
  }

  /** Only the thirteen keys that begin 'red-teaming-vulnerabilities-' map to
      'red-teaming/vulnerabilities'. */
  lemma VulnerabilityKeys()
    ensures forall i | 0 <= i < |UrlToFolderMap| && UrlToFolderMap[i].1 == FolderRedTeamingVulnerabilities ::
      33 < i && StartsWith(UrlToFolderMap[i].0, UrlToFolderMap[33].0)
  {
  }

  /** The key 'red-teaming-vulnerabilities' is declared before the thirteen keys
      it begins, so whenever one of those occurs in a path it does too and wins:
      no page is ever saved under 'red-teaming/vulnerabilities'. */
  lemma VulnerabilitiesFolderUnused(path: string)
    ensures FolderOf(UrlToFolderMap, path) != FolderRedTeamingVulnerabilities
  {
    VulnerabilityKeys();
    ShadowedFolderUnused(UrlToFolderMap, path, FolderRedTeamingVulnerabilities, 33);
  }

  lemma PrefixIsSubstring(prefix: string, s: string)
    requires StartsWith(s, prefix)
    ensures IsSubstring(prefix, s)
  {
  }

  /** Subfolder names as they are joined into a path: relative, and with no
      trailing separator. */
  predicate SubfolderNames(entries: seq<(string, string)>)
  {
    forall i | 0 <= i < |entries| :: entries[i].1 == "" || (entries[i].1[0] != '/' && entries[i].1[|entries[i].1| - 1] != '/')
  }

  lemma FolderOfSubfolder(entries: seq<(string, string)>, path: string)
    requires SubfolderNames(entries)
    ensures var folder := FolderOf(entries, path); folder == "" || (folder[0] != '/' && folder[|folder| - 1] != '/')
    decreases |entries|
  {
    if |entries| > 0 && !IsSubstring(entries[0].0, path) {
      assert SubfolderNames(entries[1..]) by {
        forall i | 0 <= i < |entries| - 1 ensures entries[1..][i] == entries[i + 1] { }
      }
      FolderOfSubfolder(entries[1..], path);
    }
  }

  lemma FolderNamesAreSubfolders()
    ensures SubfolderNames(UrlToFolderMap)
  {
  }

  /** `s.lstrip('/')`. */
  function DropLeadingSlashes(s: string): (r: string)
    ensures EndsWith(s, r)
    ensures |r| > 0 ==> r[0] != '/'
    ensures forall j | 0 <= j < |s| - |r| :: s[j] == '/'
    decreases |s|
  {
    if |s| > 0 && s[0] == '/' then
      var r := DropLeadingSlashes(s[1..]);
      assert s[|s| - |r|..] == s[1..][|s| - 1 - |r|..];
      assert forall j | 1 <= j < |s| - |r| :: s[j] == s[1..][j - 1];
      r
    else s
  }

  /** `s.rstrip('/')`. */
  function DropTrailingSlashes(s: string): (r: string)
    ensures r <= s
    ensures |r| > 0 ==> r[|r| - 1] != '/'
    ensures forall j | |r| <= j < |s| :: s[j] == '/'
    decreases |s|
  {
    if |s| > 0 && s[|s| - 1] == '/' then DropTrailingSlashes(s[..|s| - 1]) else s
  }

  /** `s.split('/')[-1]`: what follows the last '/', or all of `s`. */
  function LastSegment(s: string): (r: string)
    ensures EndsWith(s, r)
    ensures forall j | 0 <= j < |r| :: r[j] != '/'
    ensures |r| < |s| ==> s[|s| - |r| - 1] == '/'
    decreases |s|
  {
    if |s| == 0 || s[|s| - 1] == '/' then ""
    else
      var r := LastSegment(s[..|s| - 1]) + [s[|s| - 1]];
      assert s[|s| - |r|..] == s[..|s| - 1][|s| - |r|..] + [s[|s| - 1]];
      r
  }

  /** `path.strip('/').split('/')[-1]`. */
  function PageName(path: string): string
  {
    LastSegment(DropTrailingSlashes(DropLeadingSlashes(path)))
  }

  /** `page_name.replace('-', '_') + '.md'`. */
  function FileName(pageName: string): string
  {
    ReplaceAll(pageName, "-", "_") + ".md"
  }

  /** The file name is the page name with every '-' turned into '_' and
      nothing else changed, followed by '.md'. */
  lemma FileNameOfPage(pageName: string)
    ensures var name := FileName(pageName);
      && |name| == |pageName| + 3
      && EndsWith(name, ".md")
      && (forall i | 0 <= i < |pageName| :: name[i] == if pageName[i] == '-' then '_' else pageName[i])
      && (forall i | 0 <= i < |name| :: name[i] != '-')
  {
    ReplaceCharPointwise(pageName, '-', '_');
    var name := FileName(pageName);
    assert name[|pageName|..] == ".md";
    forall i | 0 <= i < |name| ensures name[i] != '-' {
      if i >= |pageName| {
        assert name[i] == ".md"[i - |pageName|];
      }
    }
  }

  /** The page name never holds a '/', so neither does its file name. */
  lemma PageFileName(path: string)
    ensures forall i | 0 <= i < |FileName(PageName(path))| :: FileName(PageName(path))[i] != '/'
    ensures EndsWith(FileName(PageName(path)), ".md")
  {
    FileNameOfPage(PageName(path));
  }

  /** The `if folder:` join: `os.path.join(OUTPUT_DIR, folder, filename)`,
      or `os.path.join(OUTPUT_DIR, filename)` for the root folder "". */
  function FilePath(folder: string, name: string): string
  {
    if folder != "" then Join(Join(OutputDir, folder), name) else Join(OutputDir, name)
  }

  lemma FilePathLayout(folder: string, name: string)
    requires folder == "" || (folder[0] != '/' && folder[|folder| - 1] != '/')
    requires |name| > 0 && name[0] != '/'
    ensures folder == "" ==> FilePath(folder, name) == OutputDir + "/" + name
    ensures folder != "" ==> FilePath(folder, name) == OutputDir + "/" + folder + "/" + name
  {
    assert !StartsWith(name, "/");
    if folder != "" {
      assert !StartsWith(folder, "/");
      var dir := Join(OutputDir, folder);
      assert dir == OutputDir + "/" + folder;
      assert !EndsWith(dir, "/") by {
        assert dir[|dir| - 1] == folder[|folder| - 1];
      }
    }
  }

  /** `get_filename_from_url` for a URL whose path is `path`. */
  function FileFor(path: string): string
  {
    FilePath(FolderOf(UrlToFolderMap, path), FileName(PageName(path)))
  }

  /** The file lands in the folder of the first matching key, or directly in
      the output directory when that folder is the root "" or no key matches. */
  lemma FileForLayout(path: string)
    ensures var folder := FolderOf(UrlToFolderMap, path); var name := FileName(PageName(path));
      && (folder == "" ==> FileFor(path) == OutputDir + "/" + name)
      && (folder != "" ==> FileFor(path) == OutputDir + "/" + folder + "/" + name)
  {
    PageFileName(path);
    FolderNamesAreSubfolders();
    FolderOfSubfolder(UrlToFolderMap, path);
    FilePathLayout(FolderOf(UrlToFolderMap, path), FileName(PageName(path)));
  }

  /** A path that holds no key of the map is saved directly under the output
      directory. */
  lemma UnmappedPageAtRoot(path: string)
    requires forall i | 0 <= i < |UrlToFolderMap| :: !IsSubstring(UrlToFolderMap[i].0, path)
    ensures FileFor(path) == OutputDir + "/" + FileName(PageName(path))
  {
    FileForLayout(path);
  }

  /** `get_filename_from_url`, with its loop over the map and its `break`. */
  method FilenameFromUrl(path: string) returns (r: string)
    ensures r == FileFor(path)
  {
    var pageName := PageName(path);
    var folder := "";
    var i := 0;
    while i < |UrlToFolderMap|
      invariant 0 <= i <= |UrlToFolderMap|
      invariant FolderOf(UrlToFolderMap[i..], path) == FolderOf(UrlToFolderMap, path)
    {
      if IsSubstring(UrlToFolderMap[i].0, path) {
        folder := UrlToFolderMap[i].1;
        break;
      }
      assert UrlToFolderMap[i..][1..] == UrlToFolderMap[i + 1..];
      i := i + 1;
    }
    assert folder == FolderOf(UrlToFolderMap, path);
    var filename := ReplaceAll(pageName, "-", "_") + ".md";
    if folder != "" {
      r := Join(Join(OutputDir, folder), filename);
    } else {
      r := Join(OutputDir, filename);
    }
  }

  /** What `extract_doc_links` keeps of one `href`: the path with every
      '/docs/' removed, when the href starts with '/docs/' and that path is
      neither empty nor a '#' fragment. */
  function DocLink(href: string): (r: Option<string>)
    ensures r.Some? ==> StartsWith(href, DocsPathPrefix) && r.value == ReplaceAll(href, DocsPathPrefix, "")
    ensures r.Some? ==> |r.value| > 0 && r.value[0] != '#'
    ensures (&& StartsWith(href, DocsPathPrefix)
             && ReplaceAll(href, DocsPathPrefix, "") != ""
             && ReplaceAll(href, DocsPathPrefix, "")[0] != '#') ==> r.Some?
  {
    if !StartsWith(href, DocsPathPrefix) then None
    else
      var path := ReplaceAll(href, DocsPathPrefix, "");
      if path != "" && !StartsWith(path, "#") then Some(path) else None
  }

  /** `links` after the loop over the first `|hrefs|` anchors. */
  function DocLinks(hrefs: seq<string>): (links: seq<string>)
    ensures |links| <= |hrefs|
    decreases |hrefs|
  {
    if |hrefs| == 0 then []
    else
      var earlier := DocLinks(hrefs[..|hrefs| - 1]);
      match DocLink(hrefs[|hrefs| - 1])
      case Some(path) => earlier + [path]
      case None => earlier
  }

  /** `extract_doc_links(element)`, given the `href` of every anchor of the
      element in document order, or `None` for a missing element. */
  method ExtractDocLinks(element: Option<seq<string>>) returns (links: seq<string>)
    ensures element.None? ==> links == []
    ensures element.Some? ==> links == DocLinks(element.value)
  {
    links := [];
    if element.Some? {
      var hrefs := element.value;
      var i := 0;
      while i < |hrefs|
        invariant 0 <= i <= |hrefs|
        invariant links == DocLinks(hrefs[..i])
      {
        assert hrefs[..i + 1][..i] == hrefs[..i];
        var href := hrefs[i];
        if StartsWith(href, DocsPathPrefix) {
          var path := ReplaceAll(href, DocsPathPrefix, "");
          if path != "" && !StartsWith(path, "#") {
            links := links + [path];
          }
        }
        i := i + 1;
      }
      assert hrefs[..i] == hrefs;
    }
  }

  /** A link is extracted exactly when some anchor yields it. */
  lemma {:induction false} DocLinksMember(hrefs: seq<string>, link: string)
    ensures link in DocLinks(hrefs) <==> exists i | 0 <= i < |hrefs| :: DocLink(hrefs[i]) == Some(link)
    decreases |hrefs|
  {
    if |hrefs| > 0 {
      var init := hrefs[..|hrefs| - 1];
      DocLinksMember(init, link);
      if exists i | 0 <= i < |hrefs| :: DocLink(hrefs[i]) == Some(link) {
        var i :| 0 <= i < |hrefs| && DocLink(hrefs[i]) == Some(link);
        if i < |hrefs| - 1 {
          assert init[i] == hrefs[i];
        }
      }
      if exists i | 0 <= i < |init| :: DocLink(init[i]) == Some(link) {
        var i :| 0 <= i < |init| && DocLink(init[i]) == Some(link);
        assert hrefs[i] == init[i];
      }
    }
  }

  /** Links come out in anchor order: the links of two anchor lists one
      after the other are the links of each, one after the other. */
  lemma {:induction false} DocLinksAppend(first: seq<string>, second: seq<string>)
    ensures DocLinks(first + second) == DocLinks(first) + DocLinks(second)
    decreases |second|
  {
    if |second| == 0 {
      assert first + second == first;
    } else {
      var both := first + second;
      var init := second[..|second| - 1];
      assert both[..|both| - 1] == first + init;
      assert both[|both| - 1] == second[|second| - 1];
      DocLinksAppend(first, init);
    }
  }

  /** Repeated anchors give repeated links, and every '/docs/' is removed, not
      only the leading one. */
  lemma DocLinkExamples()
    ensures DocLinks(["/docs/a", "/docs/a"]) == ["a", "a"]
    ensures DocLink("/docs/a/docs/b") == Some("ab")
    ensures DocLink("/docs/") == None
    ensures DocLink("/docs/#top") == None
    ensures DocLink("/blog/docs/a") == None
  {
    var prefix := DocsPathPrefix;
    assert ReplaceAll("", prefix, "") == "";
    assert ReplaceAll("b", prefix, "") == "b";
    assert "/docs/b"[|prefix|..] == "b";
    assert ReplaceAll("/docs/b", prefix, "") == "b";
    assert ReplaceAll("a/docs/b", prefix, "") == "a" + ReplaceAll("/docs/b", prefix, "");
    assert "/docs/a/docs/b"[|prefix|..] == "a/docs/b";
    assert ReplaceAll("/docs/a/docs/b", prefix, "") == "ab";
    assert ReplaceAll("a", prefix, "") == "a";
    assert "/docs/a"[|prefix|..] == "a";
    assert ReplaceAll("/docs/a", prefix, "") == "a";
    var twice := ["/docs/a", "/docs/a"];
    assert twice[..1] == ["/docs/a"] && twice[..1][..0] == [];
    assert DocLinks(twice[..1]) == ["a"];
    assert "/docs/#top"[|prefix|..] == "#top";
    assert ReplaceAll("/docs/#top", prefix, "")[0] == '#';
    assert "/docs/"[|prefix|..] == "";
  }

  /** Length of the run of '\n' that starts `s`. */
  function NewlineRun(s: string): (n: nat)
    ensures n <= |s|
    ensures forall i | 0 <= i < n :: s[i] == '\n'
    ensures n < |s| ==> s[n] != '\n'
  {
    if |s| == 0 || s[0] != '\n' then 0 else 1 + NewlineRun(s[1..])
  }

  /** `re.sub(r'\n{3,}', '\n\n', s)`: scanning left to right, every maximal
      run of three or more newlines becomes two; shorter runs stay. */
  function CollapseNewlines(s: string): (r: string)
    ensures |r| <= |s|
    ensures |s| > 0 && s[0] != '\n' ==> |r| > 0 && r[0] == s[0]
    decreases |s|
  {
    if |s| == 0 then ""
    else if s[0] != '\n' then [s[0]] + CollapseNewlines(s[1..])
    else
      var n := NewlineRun(s);
      (if n >= 3 then "\n\n" else s[..n]) + CollapseNewlines(s[n..])
  }

  /** No three newlines in a row. */
  predicate NoTripleNewline(s: string)
  {
    forall i | 0 <= i < |s| - 2 :: !(s[i] == '\n' && s[i + 1] == '\n' && s[i + 2] == '\n')
  }

  /** `NoTripleNewline` is `'\n\n\n' not in s`. */
  lemma NoTripleNewlineIsNotSubstring(s: string)
    ensures NoTripleNewline(s) <==> !IsSubstring("\n\n\n", s)
  {
    var triple := "\n\n\n";
    SubstringIffOccurs(triple, s);
    if !NoTripleNewline(s) {
      var i :| 0 <= i < |s| - 2 && s[i] == '\n' && s[i + 1] == '\n' && s[i + 2] == '\n';
      assert s[i..i + 3] == triple;
      assert OccursAt(triple, s, i);
    }
    if IsSubstring(triple, s) {
      var i: nat :| OccursAt(triple, s, i);
      var window := s[i..i + 3];
      assert window[0] == s[i] && window[1] == s[i + 1] && window[2] == s[i + 2];
    }
  }

  lemma NoTripleInSuffix(s: string, k: nat)
    requires k <= |s| && NoTripleNewline(s)
    ensures NoTripleNewline(s[k..])
  {
    var t := s[k..];
    forall i | 0 <= i < |t| - 2 ensures !(t[i] == '\n' && t[i + 1] == '\n' && t[i + 2] == '\n') {
      assert t[i] == s[k + i] && t[i + 1] == s[k + i + 1] && t[i + 2] == s[k + i + 2];
    }
  }

  lemma NoTripleAfterChar(c: char, t: string)
    requires c != '\n' && NoTripleNewline(t)
    ensures NoTripleNewline([c] + t)
  {
    var r := [c] + t;
    forall i | 1 <= i < |r| - 2 ensures !(r[i] == '\n' && r[i + 1] == '\n' && r[i + 2] == '\n') {
      assert r[i] == t[i - 1] && r[i + 1] == t[i] && r[i + 2] == t[i + 1];
    }
  }

  lemma NoTripleAfterNewlines(a: string, t: string)
    requires 1 <= |a| <= 2 && NoTripleNewline(t) && (|t| == 0 || t[0] != '\n')
    ensures NoTripleNewline(a + t)
  {
    var r := a + t;
    forall i | 0 <= i < |r| - 2 ensures !(r[i] == '\n' && r[i + 1] == '\n' && r[i + 2] == '\n') {
      if i < |a| {
        assert r[|a|] == t[0];
      } else {
        assert r[i] == t[i - |a|] && r[i + 1] == t[i - |a| + 1] && r[i + 2] == t[i - |a| + 2];
      }
    }
  }

  /** The collapsed text has no three newlines in a row. */
  lemma {:induction false} CollapsedHasNoTriple(s: string)
    ensures NoTripleNewline(CollapseNewlines(s))
    decreases |s|
  {
    if |s| > 0 {
      if s[0] != '\n' {
        CollapsedHasNoTriple(s[1..]);
        NoTripleAfterChar(s[0], CollapseNewlines(s[1..]));
      } else {
        var n := NewlineRun(s);
        CollapsedHasNoTriple(s[n..]);
        NoTripleAfterNewlines(if n >= 3 then "\n\n" else s[..n], CollapseNewlines(s[n..]));
      }
    }
  }

  /** Text without three newlines in a row is left as it is. */
  lemma {:induction false} CollapseKeepsText(s: string)
    requires NoTripleNewline(s)
    ensures CollapseNewlines(s) == s
    decreases |s|
  {
    if |s| > 0 {
      if s[0] != '\n' {
        NoTripleInSuffix(s, 1);
        CollapseKeepsText(s[1..]);
        assert [s[0]] + s[1..] == s;
      } else {
        var n := NewlineRun(s);
        if |s| > 2 {
          assert !(s[0] == '\n' && s[1] == '\n' && s[2] == '\n');
        }
        assert n < 3;
        NoTripleInSuffix(s, n);
        CollapseKeepsText(s[n..]);
        assert s[..n] + s[n..] == s;
      }
    }
  }

  /** Collapsing twice is collapsing once. */
  lemma CollapseIdempotent(s: string)
    ensures CollapseNewlines(CollapseNewlines(s)) == CollapseNewlines(s)
  {
    CollapsedHasNoTriple(s);
    CollapseKeepsText(CollapseNewlines(s));
  }

  /** A run of four newlines becomes two; a run of two is kept. */
  lemma CollapseExamples()
    ensures CollapseNewlines("a\n\n\n\nb") == "a\n\nb"
    ensures CollapseNewlines("a\n\nb") == "a\n\nb"
  {
    assert NewlineRun("\n\n\n\nb") == 4;
    assert "\n\n\n\nb"[4..] == "b";
    assert "a\n\n\n\nb"[1..] == "\n\n\n\nb";
    assert NoTripleNewline("a\n\nb");
    CollapseKeepsText("a\n\nb");
  }

  /** Number of whitespace characters (`\s`, the same set as `str.isspace`)
      from position `i` on. */
  function SpaceRun(s: string, i: nat): (n: nat)
    requires i <= |s|
    ensures i + n <= |s|
    ensures forall j | i <= j < i + n :: IsSpace(s[j])
    ensures i + n < |s| ==> !IsSpace(s[i + n])
    decreases |s| - i
  {
    if i < |s| && IsSpace(s[i]) then 1 + SpaceRun(s, i + 1) else 0
  }

  /** Whether `\s*\|.*$` matches from position `i`: whitespace, then a '|',
      then no line break up to the end, or up to a final '\n' (before which
      `$` matches too). */
  predicate SiteSuffixAt(s: string, i: nat)
    requires i <= |s|
  {
    var k := i + SpaceRun(s, i);
    k < |s| && s[k] == '|' && forall j | k < j < |s| - 1 :: s[j] != '\n'
  }

  /** The leftmost position from `i` on where the site-name pattern matches. */
  function FirstSiteSuffix(s: string, i: nat): (r: Option<nat>)
    requires i <= |s|
    ensures r.Some? ==> i <= r.value < |s| && SiteSuffixAt(s, r.value)
    ensures r.Some? ==> forall j | i <= j < r.value :: !SiteSuffixAt(s, j)
    ensures r.None? ==> forall j | i <= j < |s| :: !SiteSuffixAt(s, j)
    decreases |s| - i
  {
    if i == |s| then None
    else if SiteSuffixAt(s, i) then Some(i)
    else FirstSiteSuffix(s, i + 1)
  }

  /** `re.sub(r'\s*\|.*$', '', title)`: the leftmost match runs to the end of
      the text (or to its final '\n'), so at most one match is removed. */
  function RemoveSiteName(s: string): string
  {
    match FirstSiteSuffix(s, 0)
    case None => s
    case Some(i) => s[..i] + (if s[|s| - 1] == '\n' then "\n" else "")
  }

  /** `get_page_title`, given the text of the first `<h1>` and of the
      `<title>`, each when the page has one. */
  function PageTitle(h1: Option<string>, title: Option<string>): (r: string)
    ensures h1.Some? ==> r == Strip(h1.value)
    ensures h1.None? && title.None? ==> r == "Untitled"
  {
    if h1.Some? then Strip(h1.value)
    else if title.Some? then RemoveSiteName(Strip(title.value))
    else "Untitled"
  }

  /** A title without '|' is left as it is. */
  lemma TitleWithoutBarKept(s: string)
    requires forall j | 0 <= j < |s| :: s[j] != '|'
    ensures RemoveSiteName(s) == s
  {
  }

  /** From a single-line title, the first '|' and everything after it goes,
      together with the whitespace right before it. */
  lemma SingleLineTitleTrimmed(s: string, p: nat)
    requires forall j | 0 <= j < |s| :: s[j] != '\n'
    requires p < |s| && s[p] == '|' && forall j | 0 <= j < p :: s[j] != '|'
    ensures RemoveSiteName(s) == TrimRight(s[..p])
  {
    var kept := TrimRight(s[..p]);
    var m := |kept|;
    TrimRightDropsSpace(s[..p]);
    assert forall j | m <= j < p :: IsSpace(s[j]) by {
      forall j | m <= j < p ensures IsSpace(s[j]) {
        assert s[..p][j] == s[j];
      }
    }
    assert SpaceRun(s, m) == p - m;
    assert SiteSuffixAt(s, m);
    forall j | 0 <= j < m ensures !SiteSuffixAt(s, j) {
      assert s[m - 1] == kept[m - 1];
      assert j + SpaceRun(s, j) <= m - 1;
    }
    assert FirstSiteSuffix(s, 0) == Some(m);
    assert s[..m] == kept;
  }

  /** A single-line `<title>` of the form 'Page | Site' becomes 'Page'. */
  lemma SiteNameRemoved(page: string, site: string)
    requires |page| > 0 && !IsSpace(page[|page| - 1])
    requires forall j | 0 <= j < |page| :: page[j] != '|' && page[j] != '\n'
    requires forall j | 0 <= j < |site| :: site[j] != '\n'
    ensures RemoveSiteName(page + " | " + site) == page
  {
    var title := page + " | " + site;
    var p := |page| + 1;
    assert title[p] == '|';
    assert forall j | 0 <= j < |title| :: title[j] != '\n' by {
      forall j | 0 <= j < |title| ensures title[j] != '\n' {
        if j >= |page| + 3 {
          assert title[j] == site[j - |page| - 3];
        }
      }
    }
    SingleLineTitleTrimmed(title, p);
    assert title[..p] == page + " ";
    assert (page + " ")[..|page|] == page;
  }
}
