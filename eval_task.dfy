/**
 * The post-run evaluator (scripts/eval_task.py). The filesystem is a map from the path of
 * each existing regular file to its text; the printed lines are the findings, in order.
 */
module EvalTask {
  import Text
  import Paths

  const DEFAULT_WORK_DIR := "project_workspace"
  const REPORT_NAME := "incident_report.md"
  const PLOT_NAME := "server_health.png"
  const KEYWORDS: seq<string> := ["spike", "latency"]

  /** Existing regular files and their contents. */
  type Files = map<string, string>

  /** One line the script prints. */
  datatype Finding =
    | ReportMissing(path: string)
    | KeywordMissing(keyword: string)
    | ReportOk
    | PlotMissing(path: string)
    | PlotOk

  /** The text of a printed line. */
  function Render(f: Finding): string {
    match f
    case ReportMissing(p) => "FAIL: " + p + " not found"
    case KeywordMissing(kw) => "FAIL: keyword '" + kw + "' not in report"
    case ReportOk => "report: OK (contains expected keywords)"
    case PlotMissing(p) => "FAIL: " + p + " not found"
    case PlotOk => "plot: OK"
  }

  /** `sys.argv[1] if len(sys.argv) > 1 else "project_workspace"`. */
  function WorkDir(argv: seq<string>): (d: string)
    ensures |argv| > 1 ==> d == argv[1]
    ensures |argv| <= 1 ==> d == DEFAULT_WORK_DIR
  {
    if |argv| > 1 then argv[1] else DEFAULT_WORK_DIR
  }

  function ReportPath(argv: seq<string>): string {
    Paths.Join(WorkDir(argv), REPORT_NAME)
  }

  function PlotPath(argv: seq<string>): string {
    Paths.Join(WorkDir(argv), PLOT_NAME)
  }

  /** Every keyword occurs in the lower-cased report. */
  predicate HasKeywords(report: string) {
    forall kw :: kw in KEYWORDS ==> Text.Contains(Text.Lower(report), kw)
  }

  /** The keyword check does not depend on how the report is capitalised. */
  lemma KeywordCheckIgnoresCase(report: string)
    ensures HasKeywords(Text.Upper(report)) <==> HasKeywords(report)
  {
    Text.LowerOfUpper(report);
  }

  /** The keywords of `kws` that `text` lacks, as failures, in the order of `kws`. */
  function MissingKeywords(text: string, kws: seq<string>): (m: seq<Finding>)
    ensures |m| <= |kws|
    ensures forall f :: f in m ==> f.KeywordMissing?
    ensures forall kw :: KeywordMissing(kw) in m <==> kw in kws && !Text.Contains(text, kw)
    ensures m == [] <==> forall kw :: kw in kws ==> Text.Contains(text, kw)
  {
    if kws == [] then []
    else
      var init, last := kws[..|kws| - 1], kws[|kws| - 1];
      assert kws == init + [last];
      MissingKeywords(text, init) + (if Text.Contains(text, last) then [] else [KeywordMissing(last)])
  }

  /** The lines the report half of `main()` prints. */
  function ReportFindings(reportPath: string, files: Files): (fs: seq<Finding>)
    ensures reportPath !in files ==> fs == [ReportMissing(reportPath)]
    ensures forall f :: f in fs ==> !f.PlotOk? && !f.PlotMissing?
    ensures ReportOk in fs <==> reportPath in files && HasKeywords(files[reportPath])
  {
    if reportPath !in files then [ReportMissing(reportPath)]
    else
      var missing := MissingKeywords(Text.Lower(files[reportPath]), KEYWORDS);
      missing + (if missing == [] then [ReportOk] else [])
  }

  /**
   * The keyword loop of `main()` on the lower-cased report: `ok` stays true exactly while
   * every keyword seen so far occurs, and each missing keyword is reported once, in order.
   */
  method CheckKeywords(text: string) returns (ok: bool, missing: seq<Finding>)
    ensures missing == MissingKeywords(text, KEYWORDS)
    ensures ok <==> forall kw :: kw in KEYWORDS ==> Text.Contains(text, kw)
    ensures ok <==> missing == []
  {
    ok := true;
    missing := [];
    for i := 0 to |KEYWORDS|
      invariant missing == MissingKeywords(text, KEYWORDS[..i])
      invariant ok <==> forall j :: 0 <= j < i ==> Text.Contains(text, KEYWORDS[j])
      invariant ok <==> missing == []
    {
      assert KEYWORDS[..i + 1][..i] == KEYWORDS[..i];
      if !Text.Contains(text, KEYWORDS[i]) {
        missing := missing + [KeywordMissing(KEYWORDS[i])];
        ok := false;
      }
    }
    assert KEYWORDS[..|KEYWORDS|] == KEYWORDS;
  }

  /**
   * The report half of `main()`: a missing report is one failure and skips the keyword
   * check; otherwise each missing keyword is a failure, and "report: OK" follows when none is.
   */
  method CheckReport(reportPath: string, files: Files) returns (ok: bool, findings: seq<Finding>)
    ensures findings == ReportFindings(reportPath, files)
    ensures ok <==> reportPath in files && HasKeywords(files[reportPath])
    ensures reportPath in files ==>
      findings == MissingKeywords(Text.Lower(files[reportPath]), KEYWORDS) + (if ok then [ReportOk] else [])
  {
    if reportPath !in files {
      findings := [ReportMissing(reportPath)];
      ok := false;
    } else {
      var missing;
      ok, missing := CheckKeywords(Text.Lower(files[reportPath]));
      findings := if ok then missing + [ReportOk] else missing;
    }
  }

  /** The line printed about the plot. */
  function PlotFinding(plotPath: string, files: Files): Finding {
    if plotPath in files then PlotOk else PlotMissing(plotPath)
  }

  /**
   * What the printed lines say: each failure line appears exactly when its check fails,
   * and each OK line exactly when its check passes.
   */
  lemma PrintedLines(reportPath: string, plotPath: string, files: Files)
    ensures var lines := ReportFindings(reportPath, files) + [PlotFinding(plotPath, files)];
      && (ReportMissing(reportPath) in lines <==> reportPath !in files)
      && (ReportOk in lines <==> reportPath in files && HasKeywords(files[reportPath]))
      && (forall kw :: KeywordMissing(kw) in lines <==>
            reportPath in files && kw in KEYWORDS && !Text.Contains(Text.Lower(files[reportPath]), kw))
      && (PlotOk in lines <==> plotPath in files)
      && (PlotMissing(plotPath) in lines <==> plotPath !in files)
      && lines[|lines| - 1] == PlotFinding(plotPath, files)
  {
    var report := ReportFindings(reportPath, files);
    var lines := report + [PlotFinding(plotPath, files)];
    assert forall f :: f in lines <==> f in report || f == PlotFinding(plotPath, files);
    if reportPath in files {
      var missing := MissingKeywords(Text.Lower(files[reportPath]), KEYWORDS);
      assert forall f :: f in report ==> f in missing || f == ReportOk;
    }
  }

  /**
   * `main()`: the exit status is 0 exactly when the report exists, mentions every keyword
   * in any case, and the plot exists; a missing plot fails the run on its own. The lines
   * printed are the report's lines followed by one line about the plot.
   */
  method Evaluate(argv: seq<string>, files: Files) returns (exitCode: int, findings: seq<Finding>)
    ensures exitCode == 0 || exitCode == 1
    ensures exitCode == 0 <==>
      ReportPath(argv) in files && HasKeywords(files[ReportPath(argv)]) && PlotPath(argv) in files
    ensures findings == ReportFindings(ReportPath(argv), files) + [PlotFinding(PlotPath(argv), files)]
  {
    var reportPath, plotPath := ReportPath(argv), PlotPath(argv);
    var ok, reportFindings := CheckReport(reportPath, files);
    var plotFinding;
    if plotPath !in files {
      plotFinding := PlotMissing(plotPath);
      ok := false;
    } else {
      plotFinding := PlotOk;
    }
    findings := reportFindings + [plotFinding];
    exitCode := if ok then 0 else 1;
  }
}
