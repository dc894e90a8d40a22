/**
 * The HTTP service's in-memory run registry (api/main.py). `RUNS` maps a run id to a dict of
 * string fields; a run is registered as "running" when it starts and replaced by a
 * "completed" or "failed" entry when the workflow returns or raises. The endpoints that read
 * it answer 404 unless the run, its status and the artifact file all check out.
 */
module Api {
  import opened Wrappers
  import Config
  import Paths
  import Orchestration

  /** An entry of `RUNS`: a dict from field name to text. */
  type Entry = map<string, string>

  const STATUS := "status"
  const WORK_DIR := "work_dir"
  const ARTIFACT_REPORT := "artifact_report"
  const ARTIFACT_PLOT := "artifact_plot"
  const ERROR := "error"

  const RUNNING := "running"
  const COMPLETED := "completed"
  const FAILED := "failed"

  const START_MESSAGE := "Workflow started. Poll GET /runs/{run_id} for status and artifact paths."
  const RUN_NOT_FOUND := "Run not found"
  const NOT_FOUND_OR_NOT_COMPLETED := "Run not found or not completed"
  const ARTIFACT_NOT_FOUND := "Artifact not found"

  function RunningEntry(workDir: string): Entry {
    map[STATUS := RUNNING, WORK_DIR := workDir]
  }

  function CompletedEntry(workDir: string, report: string, plot: string): Entry {
    map[STATUS := COMPLETED, WORK_DIR := workDir, ARTIFACT_REPORT := report, ARTIFACT_PLOT := plot]
  }

  function FailedEntry(error: string): Entry {
    map[STATUS := FAILED, ERROR := error]
  }

  /** `entry.get(key)`. */
  function Field(e: Entry, key: string): Option<string> {
    if key in e then Some(e[key]) else None
  }

  /** The only statuses the service writes. */
  predicate KnownStatus(e: Entry) {
    STATUS in e && (e[STATUS] == RUNNING || e[STATUS] == COMPLETED || e[STATUS] == FAILED)
  }

  /** The entry `_run_sync` stores for the workflow's outcome: its paths, or the error text. */
  function OutcomeEntry<R>(w: Result<Orchestration.WorkflowResult<R>, string>): (e: Entry)
    ensures KnownStatus(e)
    ensures e[STATUS] == COMPLETED <==> w.Success?
    ensures w.Success? ==>
      && e.Keys == {STATUS, WORK_DIR, ARTIFACT_REPORT, ARTIFACT_PLOT}
      && e[WORK_DIR] == w.value.workDir
      && e[ARTIFACT_REPORT] == w.value.artifactReport
      && e[ARTIFACT_PLOT] == w.value.artifactPlot
    ensures w.Failure? ==> e.Keys == {STATUS, ERROR} && e[STATUS] == FAILED && e[ERROR] == w.error
  {
    match w
    case Success(r) => CompletedEntry(r.workDir, r.artifactReport, r.artifactPlot)
    case Failure(err) => FailedEntry(err)
  }

  /**
   * Whatever the setup and the chat do, the entry a background run leaves for a non-empty directory is
   * either the completed entry naming the two artifacts inside that directory, or a failure.
   */
  lemma SyncedEntryNamesItsOwnArtifacts<R>(env: Config.Env, workDir: string,
                                           prepare: Orchestration.Prepare,
                                           chat: Orchestration.ChatRequest -> Result<R, string>)
    requires workDir != ""
    ensures var e := OutcomeEntry(Orchestration.RunWorkflow(env, Some(Orchestration.DEFAULT_TASK_PROMPT), Some(workDir), None, false, prepare, chat));
      || e == CompletedEntry(workDir, Paths.Join(workDir, Orchestration.REPORT_NAME), Paths.Join(workDir, Orchestration.PLOT_NAME))
      || e[STATUS] == FAILED
  {
    var w := Orchestration.RunWorkflow(env, Some(Orchestration.DEFAULT_TASK_PROMPT), Some(workDir), None, false, prepare, chat);
    if w.Success? {
      assert w.value.workDir == workDir;
    }
  }

  datatype RunResponse = RunResponse(runId: string, status: string, message: string)
  datatype HttpError = HttpError(statusCode: int, detail: string)
  datatype FileResponse = FileResponse(path: string, mediaType: string)

  class RunRegistry {
    var runs: map<string, Entry>

    ghost predicate Valid()
      reads this
    {
      forall id :: id in runs ==> KnownStatus(runs[id])
    }

    /** `RUNS = {}` at start-up. */
    constructor ()
      ensures Valid() && runs == map[]
    {
      runs := map[];
    }

    /**
     * `POST /run`: register the run under `freshId` (the generated uuid) as running in its
     * own directory under the workspace, and answer "started". Scheduling the workflow in
     * the background is left to the caller, who later calls RunSync.
     */
    method RunAnalysis(env: Config.Env, freshId: string) returns (resp: RunResponse)
      requires Valid()
      modifies this
      ensures Valid()
      ensures runs == old(runs)[freshId := RunningEntry(Paths.Join(Config.GetWorkspaceDir(env), freshId))]
      ensures freshId !in old(runs) ==> |runs| == |old(runs)| + 1
      ensures resp == RunResponse(freshId, "started", START_MESSAGE)
    {
      var baseDir := Config.GetWorkspaceDir(env);
      var workDir := Paths.Join(baseDir, freshId);
      runs := runs[freshId := RunningEntry(workDir)];
      resp := RunResponse(freshId, "started", START_MESSAGE);
    }

    /**
     * `_run_sync(work_dir, run_id)`: run the workflow with the default task in `workDir` and
     * replace the run's entry with its outcome. Only `runs[runId]` is written.
     */
    method RunSync<R>(env: Config.Env, workDir: string, runId: string, prepare: Orchestration.Prepare,
                      chat: Orchestration.ChatRequest -> Result<R, string>)
      requires Valid()
      modifies this
      ensures Valid()
      ensures runs.Keys == old(runs).Keys + {runId}
      ensures forall id :: id in old(runs) && id != runId ==> runs[id] == old(runs)[id]
      ensures runs[runId] == OutcomeEntry(Orchestration.RunWorkflow(env, Some(Orchestration.DEFAULT_TASK_PROMPT), Some(workDir), None, false, prepare, chat))
    {
      var result := Orchestration.RunWorkflow(env, Some(Orchestration.DEFAULT_TASK_PROMPT), Some(workDir), None, false, prepare, chat);
      runs := runs[runId := OutcomeEntry(result)];
    }

    /** `GET /runs/{run_id}`: the stored entry as it is, or 404. */
    function GetRun(runId: string): (r: Result<Entry, HttpError>)
      reads this
      ensures r.Failure? <==> runId !in runs
      ensures r.Success? ==> r.value == runs[runId]
      ensures r.Failure? ==> r.error == HttpError(404, RUN_NOT_FOUND)
    {
      if runId !in runs then Failure(HttpError(404, RUN_NOT_FOUND)) else Success(runs[runId])
    }

    /** The run exists, has completed, and its `key` field names an existing file. */
    ghost predicate Servable(runId: string, key: string, isFile: string -> bool)
      reads this
    {
      && runId in runs
      && Field(runs[runId], STATUS) == Some(COMPLETED)
      && Truthy(Field(runs[runId], key))
      && isFile(runs[runId][key])
    }

    /** The artifact endpoints' shared gate: 404 for a missing or unfinished run, then for a missing file. */
    function ServeArtifact(runId: string, key: string, mediaType: string, isFile: string -> bool)
      : (r: Result<FileResponse, HttpError>)
      reads this
      ensures r.Success? <==> Servable(runId, key, isFile)
      ensures r.Success? ==> r.value == FileResponse(runs[runId][key], mediaType)
      ensures r.Failure? ==> r.error.statusCode == 404
      ensures !(runId in runs && Field(runs[runId], STATUS) == Some(COMPLETED)) ==>
        r == Failure(HttpError(404, NOT_FOUND_OR_NOT_COMPLETED))
      ensures runId in runs && Field(runs[runId], STATUS) == Some(COMPLETED) && r.Failure? ==>
        r.error == HttpError(404, ARTIFACT_NOT_FOUND)
    {
      if runId !in runs || Field(runs[runId], STATUS) != Some(COMPLETED) then
        Failure(HttpError(404, NOT_FOUND_OR_NOT_COMPLETED))
      else
        var path := Field(runs[runId], key);
        if !Truthy(path) || !isFile(path.value) then Failure(HttpError(404, ARTIFACT_NOT_FOUND))
        else Success(FileResponse(path.value, mediaType))
    }

    /** `GET /runs/{run_id}/incident_report`: the report as Markdown. */
    function GetIncidentReport(runId: string, isFile: string -> bool): (r: Result<FileResponse, HttpError>)
      reads this
      ensures r.Success? <==> Servable(runId, ARTIFACT_REPORT, isFile)
      ensures r.Success? ==> r.value == FileResponse(runs[runId][ARTIFACT_REPORT], "text/markdown")
      ensures r.Failure? ==> r.error.statusCode == 404
    {
      ServeArtifact(runId, ARTIFACT_REPORT, "text/markdown", isFile)
    }

    /** `GET /runs/{run_id}/server_health.png`: the plot as PNG. */
    function GetServerHealthPlot(runId: string, isFile: string -> bool): (r: Result<FileResponse, HttpError>)
      reads this
      ensures r.Success? <==> Servable(runId, ARTIFACT_PLOT, isFile)
      ensures r.Success? ==> r.value == FileResponse(runs[runId][ARTIFACT_PLOT], "image/png")
      ensures r.Failure? ==> r.error.statusCode == 404
    {
      ServeArtifact(runId, ARTIFACT_PLOT, "image/png", isFile)
    }
  }

  /** A run that is still running, or has failed, never serves an artifact. */
  lemma UnfinishedRunsServeNothing(reg: RunRegistry, runId: string, workDir: string, error: string, isFile: string -> bool)
    requires runId in reg.runs
    requires reg.runs[runId] == RunningEntry(workDir) || reg.runs[runId] == FailedEntry(error)
    ensures reg.GetIncidentReport(runId, isFile) == Failure(HttpError(404, NOT_FOUND_OR_NOT_COMPLETED))
    ensures reg.GetServerHealthPlot(runId, isFile) == Failure(HttpError(404, NOT_FOUND_OR_NOT_COMPLETED))
  {
    assert Field(reg.runs[runId], STATUS) != Some(COMPLETED);
  }

  /**
   * A completed run serves exactly the two files of its working directory: the report
   * endpoint succeeds iff the report file exists there, and likewise for the plot.
   */
  lemma CompletedRunServesItsArtifacts(reg: RunRegistry, runId: string, workDir: string, isFile: string -> bool)
    requires runId in reg.runs
    requires reg.runs[runId] == CompletedEntry(workDir,
      Paths.Join(workDir, Orchestration.REPORT_NAME), Paths.Join(workDir, Orchestration.PLOT_NAME))
    ensures reg.GetIncidentReport(runId, isFile).Success? <==> isFile(Paths.Join(workDir, Orchestration.REPORT_NAME))
    ensures reg.GetServerHealthPlot(runId, isFile).Success? <==> isFile(Paths.Join(workDir, Orchestration.PLOT_NAME))
    ensures reg.GetIncidentReport(runId, isFile).Success? && reg.GetServerHealthPlot(runId, isFile).Success? ==>
      reg.GetIncidentReport(runId, isFile).value.path != reg.GetServerHealthPlot(runId, isFile).value.path
  {
    Orchestration.ArtifactPathsAreDistinctFiles(workDir);
    var e := reg.runs[runId];
    assert e[ARTIFACT_REPORT] == Paths.Join(workDir, Orchestration.REPORT_NAME);
    assert e[ARTIFACT_PLOT] == Paths.Join(workDir, Orchestration.PLOT_NAME);
  }

  /** Distinct run ids get distinct working directories under the same workspace. */
  lemma RunDirectoriesAreDistinct(env: Config.Env, id1: string, id2: string)
    requires '/' !in id1 && '/' !in id2 && id1 != id2
    ensures Paths.Join(Config.GetWorkspaceDir(env), id1) != Paths.Join(Config.GetWorkspaceDir(env), id2)
  {
    Paths.JoinInjective(Config.GetWorkspaceDir(env), id1, id2);
  }
}
