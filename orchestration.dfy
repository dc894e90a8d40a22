/**
 * The workflow entry point (src/cognitionflow/orchestration.py): default the arguments,
 * configure the memory store, start the chat with the task prompt, and report where the
 * two artifacts are expected. Creating the working directory and the memory store are
 * foreign calls, passed in as the function `prepare`; building the agents and running the
 * chat are foreign calls too, passed in as the single function `chat`.
 */
module Orchestration {
  import opened Wrappers
  import Config
  import Paths

  /** The mission line of `DEFAULT_TASK_PROMPT`; the rest of its text is opaque here. */
  const DEFAULT_TASK_PROMPT := "**Mission:** Perform a Root Cause Analysis on server instability."
  const DEFAULT_MEMORY_DIR := "./tmp/agent_memory_db"
  const RECALL_THRESHOLD: real := 1.5
  const REPORT_NAME := "incident_report.md"
  const PLOT_NAME := "server_health.png"

  /** The arguments `create_memory` is called with. */
  datatype MemorySettings = MemorySettings(pathToDbDir: string, resetDb: bool, recallThreshold: real)

  /**
   * `os.makedirs(work_dir, exist_ok=True)` followed by `create_memory(...)`: the text of the
   * error either of them raises, or `None` when both succeed.
   */
  type Prepare = (string, MemorySettings) -> Option<string>

  /** Everything the foreign agent/chat call receives. */
  datatype ChatRequest = ChatRequest(workDir: string, memory: MemorySettings, llmConfig: Config.LlmConfig, message: string)

  /** The dict `run_workflow` returns. */
  datatype WorkflowResult<R> = WorkflowResult(result: R, workDir: string, artifactReport: string, artifactPlot: string)

  function ResolveTask(taskPrompt: Option<string>): (t: string)
    ensures Truthy(taskPrompt) ==> t == taskPrompt.value
    ensures !Truthy(taskPrompt) ==> t == DEFAULT_TASK_PROMPT
    ensures t != ""
  {
    OrDefault(taskPrompt, DEFAULT_TASK_PROMPT)
  }

  function ResolveWorkDir(env: Config.Env, workDir: Option<string>): (d: string)
    ensures Truthy(workDir) ==> d == workDir.value
    ensures !Truthy(workDir) ==> d == Config.GetWorkspaceDir(env)
  {
    OrDefault(workDir, Config.GetWorkspaceDir(env))
  }

  function ResolveMemoryDir(memoryDir: Option<string>): (d: string)
    ensures Truthy(memoryDir) ==> d == memoryDir.value
    ensures !Truthy(memoryDir) ==> d == DEFAULT_MEMORY_DIR
    ensures d != ""
  {
    OrDefault(memoryDir, DEFAULT_MEMORY_DIR)
  }

  /** The settings `create_memory` is called with. */
  function Memory(memoryDir: Option<string>, resetMemory: bool): (m: MemorySettings)
    ensures m.pathToDbDir == ResolveMemoryDir(memoryDir)
    ensures m.resetDb == resetMemory && m.recallThreshold == 1.5
  {
    MemorySettings(ResolveMemoryDir(memoryDir), resetMemory, RECALL_THRESHOLD)
  }

  /** The request the chat is started with once the configuration `cfg` is known. */
  function Request(env: Config.Env, taskPrompt: Option<string>, workDir: Option<string>,
                   memoryDir: Option<string>, resetMemory: bool, cfg: Config.LlmConfig): ChatRequest
  {
    ChatRequest(ResolveWorkDir(env, workDir), Memory(memoryDir, resetMemory), cfg, ResolveTask(taskPrompt))
  }

  /**
   * `run_workflow(task_prompt, work_dir, memory_dir, reset_memory)`. The working directory and
   * the memory store are set up first, and their error is raised before anything else; then a
   * configuration error is raised before the chat starts; an error of the chat propagates;
   * otherwise the result echoes the resolved working directory and names the two artifact
   * paths inside it.
   */
  function RunWorkflow<R>(env: Config.Env, taskPrompt: Option<string>, workDir: Option<string>,
                          memoryDir: Option<string>, resetMemory: bool,
                          prepare: Prepare, chat: ChatRequest -> Result<R, string>)
    : (r: Result<WorkflowResult<R>, string>)
    ensures var setup := prepare(ResolveWorkDir(env, workDir), Memory(memoryDir, resetMemory));
      && (setup.Some? ==> r == Failure(setup.value))
      && (setup.None? && Config.GetConfig(env).Failure? ==> r == Failure(Config.MISSING_KEY_MESSAGE))
    ensures prepare(ResolveWorkDir(env, workDir), Memory(memoryDir, resetMemory)).None? && Config.GetConfig(env).Success? ==>
      var req := Request(env, taskPrompt, workDir, memoryDir, resetMemory, Config.GetConfig(env).value);
      && req.message == ResolveTask(taskPrompt)
      && req.workDir == ResolveWorkDir(env, workDir)
      && req.memory == Memory(memoryDir, resetMemory)
      && (chat(req).Failure? ==> r == Failure(chat(req).error))
      && (chat(req).Success? ==> r.Success? && r.value.result == chat(req).value)
    ensures r.Success? ==>
      && prepare(ResolveWorkDir(env, workDir), Memory(memoryDir, resetMemory)).None?
      && Config.GetConfig(env).Success?
      && r.value.workDir == ResolveWorkDir(env, workDir)
      && r.value.artifactReport == Paths.Join(r.value.workDir, REPORT_NAME)
      && r.value.artifactPlot == Paths.Join(r.value.workDir, PLOT_NAME)
  {
    match prepare(ResolveWorkDir(env, workDir), Memory(memoryDir, resetMemory))
    case Some(e) => Failure(e)
    case None =>
      match Config.GetConfig(env)
      case Failure(e) => Failure(e)
      case Success(cfg) =>
        var req := Request(env, taskPrompt, workDir, memoryDir, resetMemory, cfg);
        match chat(req)
        case Failure(e) => Failure(e)
        case Success(result) =>
          Success(WorkflowResult(result, req.workDir,
            Paths.Join(req.workDir, REPORT_NAME), Paths.Join(req.workDir, PLOT_NAME)))
  }

  /** The two artifact paths of a working directory lie in it, carry their file names, and differ. */
  lemma ArtifactPathsAreDistinctFiles(dir: string)
    ensures dir <= Paths.Join(dir, REPORT_NAME) && dir <= Paths.Join(dir, PLOT_NAME)
    ensures Paths.BaseName(Paths.Join(dir, REPORT_NAME)) == REPORT_NAME
    ensures Paths.BaseName(Paths.Join(dir, PLOT_NAME)) == PLOT_NAME
    ensures Paths.Join(dir, REPORT_NAME) != Paths.Join(dir, PLOT_NAME)
  {
    assert '/' !in REPORT_NAME && '/' !in PLOT_NAME;
    Paths.JoinBaseName(dir, REPORT_NAME);
    Paths.JoinBaseName(dir, PLOT_NAME);
  }

  /** Whatever the chat does, a successful workflow names two distinct files in its directory. */
  lemma WorkflowArtifactsAreDistinctFiles<R>(env: Config.Env, taskPrompt: Option<string>, workDir: Option<string>,
                                             memoryDir: Option<string>, resetMemory: bool,
                                             prepare: Prepare, chat: ChatRequest -> Result<R, string>)
    requires RunWorkflow(env, taskPrompt, workDir, memoryDir, resetMemory, prepare, chat).Success?
    ensures var w := RunWorkflow(env, taskPrompt, workDir, memoryDir, resetMemory, prepare, chat).value;
      && w.workDir <= w.artifactReport && w.workDir <= w.artifactPlot
      && Paths.BaseName(w.artifactReport) == REPORT_NAME
      && Paths.BaseName(w.artifactPlot) == PLOT_NAME
      && w.artifactReport != w.artifactPlot
  {
    var w := RunWorkflow(env, taskPrompt, workDir, memoryDir, resetMemory, prepare, chat).value;
    ArtifactPathsAreDistinctFiles(w.workDir);
  }
}
