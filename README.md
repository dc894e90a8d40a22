# CognitionFlow core, modelled in Dafny

CognitionFlow is a demo service for root-cause analysis by LLM agents. `build_agents` configures three autogen agents: an Executor that runs code and stops on `PIPELINE_COMPLETE`, an Engineer and a Reviewer. `run_workflow` sets up a working directory and a memory store, starts a chat with the task prompt and returns where the two artifacts are expected. As written, its call of `build_agents` does not match that function's signature (see "Left out"). The HTTP service starts such runs in the background, records their outcome, and serves the incident report and the server-health plot that the run produced. Almost all of the work is delegated to autogen, SQLite, FastAPI and ChromaDB. This project models the small decision rules and state updates that the repository itself implements, and proves properties about them:

- `config.dfy` (`Config`): provider selection from the environment. A Groq key wins over an OpenAI key, a missing key is an error, and a default applies only when a variable is absent. It also covers the workspace directory and the model/temperature overrides.
- `agents.dfy` (`Agents`): the completion predicate, the fallback from engineer-prompt mode to prompt, and how `build_agents` defaults its arguments and configures the Executor.
- `orchestration.dfy` (`Orchestration`): `run_workflow`. It defaults the task, work dir and memory dir, sets them up, checks the configuration, builds the chat request and returns the artifact paths.
- `db.dfy` (`Db`): the `runs` table as class `RunStore`, holding a map from id to row. It covers the upsert of `save_run`, lookup by id, history ordered by `started_at DESC` with `LIMIT`/`OFFSET`, and the status counts of `get_metrics`.
- `api.dfy` (`Api`): the in-memory `RUNS` registry as class `RunRegistry`. It covers the running → completed | failed updates and the 404 gates of the endpoints.
- `eval_task.dfy` (`EvalTask`): the post-run evaluator. Its verdict depends on a file map: the report must exist and mention "spike" and "latency" in any case, and the plot must exist.
- `text.dfy`, `paths.dfy`, `wrappers.dfy`: Python's `in` and `lower()` on strings, POSIX `os.path.join` with its inverse `basename`, and `Option`/`Result` with Python truthiness.

The code's foreign inputs become parameters:
- the process environment is a `map<string, string>`;
- the filesystem is an `isFile: string -> bool` predicate for the API, and a map from each existing file's path to its text for the evaluator;
- the generated uuid is a `freshId` argument;
- `os.makedirs(work_dir)` and `create_memory(...)` in `run_workflow` form one function `prepare`, which returns the text of the error they raise, if any;
- constructing the agents and running the chat form one function `chat: ChatRequest -> Result<R, string>`, where a `Failure` stands for a raised exception.

Facts about the code that the model keeps:
- The completion token counts anywhere in the content, including inside a code fence (src/cognitionflow/agents.py:120, `Agents.FencedTokenCompletes`).
- A run's entry starts with status "running" (api/main.py:81), and is replaced by "completed" or "failed".
- The Executor allows at most 20 consecutive auto replies (src/cognitionflow/agents.py:151).
- The Groq default model is `llama-3.1-8b-instant` (src/cognitionflow/config.py:37). The test at tests/test_config.py:23 expects `openai/gpt-oss-120b` instead; the model follows config.py.

## Model

| member | source | states |
|---|---|---|
| Text.Lower | scripts/eval_task.py:20 | `lower()` keeps the length and maps each character to its lower-case form, ASCII letters only |
| Text.ContainsIff | src/cognitionflow/agents.py:120 | the left-to-right scan used for Python's `in` holds iff the token occurs at some index |
| Text.ContainsWithin | src/cognitionflow/agents.py:120 | adding text on either side never removes an occurrence |
| Text.LowerOfUpper | scripts/eval_task.py:20 | lower-casing an upper-cased text gives the same as lower-casing the text |
| Paths.Join | src/cognitionflow/orchestration.py:64-65 | `os.path.join`: an absolute second part replaces the first; otherwise the result starts with the directory and ends with the name, with at most one added separator |
| Paths.BaseName | src/cognitionflow/orchestration.py:64-65 | the base name contains no '/' and is no longer than the path |
| Paths.BaseNameAfterSeparator | src/cognitionflow/orchestration.py:64-65 | a slash-free name after a separator (or at the start) is its path's base name |
| Paths.JoinBaseName | src/cognitionflow/orchestration.py:64-65 | `basename(join(d, n)) == n` for every slash-free name `n` |
| Paths.JoinInjective | api/main.py:78 | distinct slash-free names joined to the same directory give distinct paths |
| Config.GetConfig | src/cognitionflow/config.py:22-52 | fails with the missing-key message iff neither key is non-empty. On success there is exactly one entry. A non-empty Groq key wins, with the Groq key and the Groq base URL. Otherwise the OpenAI key is used, with `base_url` present iff OPENAI_BASE_URL is non-empty. Model, temperature and timeout default to "llama-3.1-8b-instant"/"gpt-4o", "0.1" and "600" only when their variable is absent (`os.environ.get(k, default)`: an empty value is kept) |
| Config.MissingKeyMessageNamesBothKeys | src/cognitionflow/config.py:29-32 | the missing-key error names both GROQ_API_KEY and OPENAI_API_KEY |
| Config.GetWorkspaceDir | src/cognitionflow/config.py:55-58 | COGNITIONFLOW_WORKSPACE when present (even if empty), otherwise "project_workspace" |
| Config.GetConfigWithOverrides | src/cognitionflow/config.py:190-205 | fails with the same error as `get_config`. Otherwise it keeps one entry, the API key, the base URL and the timeout. It replaces the model only for a non-empty model string, and the temperature whenever one is given, 0 included |
| Agents.IsPipelineComplete | src/cognitionflow/agents.py:117-120 | true iff "PIPELINE_COMPLETE" occurs in the content; false when "content" is missing, None or empty |
| Agents.CompletionIsMonotone | src/cognitionflow/agents.py:119-120 | prepending or appending text to completing content keeps it completing |
| Agents.FencedTokenCompletes | src/cognitionflow/agents.py:120 | the token inside a fenced code block still completes: there is no fence exemption |
| Agents.EngineerPrompt | src/cognitionflow/agents.py:146 | "standard", "detailed" and "concise" select their own prompt; every other mode gets the standard prompt |
| Agents.BuildAgents | src/cognitionflow/agents.py:127-173 | a falsy work_dir falls back to the workspace dir, and a missing llm_config to `get_config()`, whose error it propagates. All three agents share the configuration. The Executor never asks for human input, runs code without Docker, allows at most 20 consecutive auto replies, and stops exactly on `is_pipeline_complete` |
| Orchestration.ResolveTask | src/cognitionflow/orchestration.py:39 | a None or empty task prompt becomes the default task; a non-empty one passes through unchanged |
| Orchestration.ResolveWorkDir | src/cognitionflow/orchestration.py:40 | a falsy work_dir falls back to the workspace directory |
| Orchestration.ResolveMemoryDir | src/cognitionflow/orchestration.py:41 | a falsy memory_dir falls back to "./tmp/agent_memory_db" |
| Orchestration.RunWorkflow | src/cognitionflow/orchestration.py:29-66 | an error of setting up the work dir or the memory store is raised first. Then a configuration error is raised before the chat. Otherwise the chat gets exactly the resolved task prompt, and memory with recall threshold 1.5 and the caller's reset flag. The chat's error propagates. A result echoes the resolved work_dir and names `join(work_dir, "incident_report.md")` and `join(work_dir, "server_health.png")` |
| Orchestration.ArtifactPathsAreDistinctFiles | src/cognitionflow/orchestration.py:64-65 | both artifact paths lie in the work dir, have the expected base names, and differ |
| Orchestration.WorkflowArtifactsAreDistinctFiles | src/cognitionflow/orchestration.py:61-66 | whatever the chat returns, a successful workflow names two distinct files inside its directory |
| Db.Upsert | api/db.py:67-87 | a new id adds exactly one row holding the given fields, with config stored only when it is a non-empty dict (None and {} store NULL). An existing id keeps the row count, its config and its started_at, and overwrites status, completed_at, duration_ms, artifact_report, artifact_plot and error (NULLs included). Every other row is unchanged |
| Db.UpsertIdempotent | api/db.py:67-76 | saving the same arguments twice leaves the table as saving them once |
| Db.TextLeTotal | api/db.py:96 | SQLite's binary text order is total |
| Db.TextLeTransitive | api/db.py:96 | SQLite's binary text order is transitive |
| Db.StartedNoLaterTotal | api/db.py:96 | any two rows are comparable by started_at, NULL lowest |
| Db.StartedNoLaterTransitive | api/db.py:96 | the started_at order on rows is transitive |
| Db.InsertKeepsOrder | api/db.py:96 | inserting a row keeps the sequence in `started_at DESC` order and adds exactly that row |
| Db.InsertPending | api/db.py:96-100 | moving one more row of the table into the sorted part keeps that part sorted and complete |
| Db.Window | api/db.py:96-97 | `LIMIT l OFFSET o` (l, o ≥ 0) is the contiguous slice starting at o, of length min(l, max(0, n - o)) |
| Db.ConsecutivePages | api/db.py:92-100 | the pages (l, o) and (l, o + l) together form the page (2l, o) |
| Db.StatusCountsBounded | api/db.py:119-121 | completed runs plus failed runs never exceed the row count |
| Db.RunStore.constructor | api/db.py:35-51 | a freshly initialised table is empty |
| Db.RunStore.SaveRun | api/db.py:54-88 | the table becomes the upsert of the old table, and every row stays under its own id |
| Db.RunStore.GetRunById | api/db.py:103-110 | the row stored under the id, or None iff the id is unknown |
| Db.RunStore.GetRunHistory | api/db.py:92-100 | a window of some ordering of all the table's rows, latest started_at first with NULL last. For non-negative limit and offset its length is min(limit, max(0, n - offset)) |
| Db.RunStore.GetMetrics | api/db.py:114-135 | total = row count, successful = rows with status "completed", failed = rows with status "failed", successful + failed ≤ total, all zero on an empty table |
| Api.OutcomeEntry | api/main.py:35-42 | success stores exactly {status "completed", work_dir, artifact_report, artifact_plot} from the result; failure stores exactly {status "failed", error}, dropping work_dir |
| Api.SyncedEntryNamesItsOwnArtifacts | api/main.py:29-42 | whatever the setup and the chat do, for a non-empty work dir the stored entry is either the completed entry naming the two artifacts inside that directory, or a failure |
| Api.RunRegistry.constructor | api/main.py:24 | the registry starts empty |
| Api.RunRegistry.RunAnalysis | api/main.py:71-88 | adds exactly the fresh id with status "running" and work_dir = join(workspace, id), leaves other entries unchanged, and answers "started" |
| Api.RunRegistry.RunSync | api/main.py:27-42 | writes only `RUNS[run_id]`, with the outcome entry of the workflow run on the default task in that directory; only known statuses are ever stored |
| Api.RunRegistry.GetRun | api/main.py:91-96 | 404 "Run not found" iff the id is absent; otherwise the stored entry unchanged |
| Api.RunRegistry.ServeArtifact | api/main.py:102-106 | succeeds iff the run exists, its status is "completed", and the stored path is non-empty and names an existing file; otherwise 404, with "Run not found or not completed" for the first two gates and "Artifact not found" for the path gate |
| Api.RunRegistry.GetIncidentReport | api/main.py:99-107 | serves the stored report path as text/markdown exactly when the artifact gate passes, else 404 |
| Api.RunRegistry.GetServerHealthPlot | api/main.py:110-118 | serves the stored plot path as image/png exactly when the artifact gate passes, else 404 |
| Api.UnfinishedRunsServeNothing | api/main.py:102-103 | a running or failed run answers 404 "Run not found or not completed" on both artifact endpoints |
| Api.CompletedRunServesItsArtifacts | api/main.py:99-118 | for a run completed in directory d, each endpoint succeeds iff its file exists in d, and the two served paths differ |
| Api.RunDirectoriesAreDistinct | api/main.py:76-78 | distinct run ids get distinct working directories |
| EvalTask.KeywordCheckIgnoresCase | scripts/eval_task.py:20 | the keyword verdict is the same for a report and its upper-cased version |
| EvalTask.MissingKeywords | scripts/eval_task.py:21-23 | a failure for exactly the keywords the text lacks, in keyword order; empty iff every keyword occurs |
| EvalTask.ReportFindings | scripts/eval_task.py:15-26 | a missing report prints exactly its one failure line; "report: OK" is printed iff the report exists and has every keyword; no plot line is printed here |
| EvalTask.CheckKeywords | scripts/eval_task.py:20-24 | the loop reports exactly the missing keywords in order, and `ok` holds iff every keyword occurs |
| EvalTask.CheckReport | scripts/eval_task.py:15-26 | prints exactly the report's lines: the missing-report failure alone, or the missing keywords in order followed by "report: OK" when none is missing; `ok` iff the report exists and has both keywords |
| EvalTask.Evaluate | scripts/eval_task.py:10-34 | the work dir is argv[1] when given, else "project_workspace". Exit status 0 iff the report exists, its lower-cased text contains "spike" and "latency", and the plot exists. A missing plot alone forces exit status 1. The printed lines are exactly the report's lines followed by one plot line |
| EvalTask.PrintedLines | scripts/eval_task.py:15-32 | in the printed lines, the missing-report, missing-keyword and missing-plot failures appear exactly when their check fails; "report: OK" and "plot: OK" appear exactly when theirs passes; the plot line comes last |

## Left out

- Loading `.env` files (config.py:6-19 and every `load_env()` call): the environment is given as a map.
- Parsing of temperature and timeout. The model keeps the environment text that `float()`/`int()` would parse ("0.1", "600" by default). A malformed value, which raises ValueError in the source, is not modelled.
- Config.GetConfig: stated over the environment as given. Python's `os.environ` holds only strings, so the model cannot express a variable set to a non-string.
- Agents.BuildAgents: a falsy `llm_config` is modelled as `None` only; an empty dict, which the source also replaces by `get_config()`, has no counterpart in the configuration datatype.
- The autogen agent objects and chat (agents.py:148-171, orchestration.py:56-59): agents are records of their constructor settings, and the chat is the opaque `chat` parameter. The prompt texts are opaque constants. The default task prompt keeps only its mission line.
- The call of `build_agents` in orchestration.py:50-54 passes `memory=` and unpacks two values, but agents.py:127-131, 173 takes no memory parameter and returns three. As written this raises TypeError. The model keeps both sides as written: `Agents.BuildAgents` follows agents.py, and `Orchestration.RunWorkflow` treats the call and the chat as the opaque `chat`, whose `Failure` covers that TypeError.
- Vector memory (memory.py, scripts/eval_memory.py): only the arguments `create_memory` receives are modelled.
- SQLite plumbing (`get_db`, `_ensure_db_dir`, init on import) and JSON serialisation: the table is a map, and a stored config is the dict itself.
- Db.RunStore.GetMetrics: `success_rate` is the exact percentage, not rounded to one decimal, and `avg_duration_ms` is left out. Both are floating-point results.
- Db.RunStore.GetRunHistory: the order among rows with equal `started_at` is not fixed, and the contract allows any of them. A negative LIMIT means no limit and a negative OFFSET counts as 0, as in SQLite.
- FastAPI plumbing: the app, its lifespan, `/health`, response models, `FileResponse` streaming, the `os.makedirs` of `run_analysis` (api/main.py:79) and the background-task scheduling. `RunAnalysis` registers the run, and `RunSync` is what the background task later runs.
- Concurrency: the shared `RUNS` dict across worker threads is modelled as one sequential object.
- What `os.makedirs` and `create_memory` do inside `run_workflow` (orchestration.py:43-49) is the opaque `prepare`. Their errors are raised before the configuration check, as in the source. `prepare` is left arbitrary. A `prepare` that stands for the real calls fails on an empty work dir, because `os.makedirs("")` raises FileNotFoundError.
- Text.Lower: only ASCII letters are case-mapped. Python's `str.lower()` also maps other characters, for example the Kelvin sign to "k".
- Printed output: the evaluator's lines are a sequence of findings, and `Render` gives each one's text. Writing to stdout and `sys.exit` are left to the caller.
- Reading a report file that exists but cannot be opened or decoded is not modelled.
- The `__getattr__` lazy import in `__init__.py` is import plumbing.
