/**
 * The agent team (src/cognitionflow/agents.py): the completion predicate the Executor
 * uses to stop, the Engineer's prompt chosen by mode, and how `build_agents` fills in
 * its arguments. The agents themselves are autogen objects; here they are records of
 * the settings they are constructed with.
 */
module Agents {
  import opened Wrappers
  import Text
  import Config

  const PIPELINE_COMPLETE := "PIPELINE_COMPLETE"
  const MAX_CONSECUTIVE_AUTO_REPLY := 20

  /** A chat message: its keys mapped to a string or to `None`. */
  type Message = map<string, Option<string>>

  /** `msg.get("content") or ""`. */
  function Content(msg: Message): string {
    if "content" in msg && msg["content"].Some? then msg["content"].value else ""
  }

  /** `is_pipeline_complete(msg)`: the completion token occurs anywhere in the content. */
  function IsPipelineComplete(msg: Message): (r: bool)
    ensures r <==> exists i :: Text.OccursAt(Content(msg), PIPELINE_COMPLETE, i)
    ensures "content" !in msg || msg["content"] == None || msg["content"] == Some("") ==> !r
  {
    Text.ContainsIff(Content(msg), PIPELINE_COMPLETE);
    Text.Contains(Content(msg), PIPELINE_COMPLETE)
  }

  /** Adding text before or after completing content keeps it completing. */
  lemma CompletionIsMonotone(msg: Message, before: string, after: string)
    requires IsPipelineComplete(msg)
    ensures IsPipelineComplete(msg["content" := Some(before + Content(msg) + after)])
  {
    Text.ContainsWithin(before, Content(msg), after, PIPELINE_COMPLETE);
  }

  /** There is no code-fence exemption: the token inside a fenced block still completes. */
  lemma FencedTokenCompletes(before: string, code: string, after: string)
    ensures IsPipelineComplete(map["content" := Some(before + "```python\n" + code + PIPELINE_COMPLETE + "\n```" + after)])
  {
    Text.ContainsIff(PIPELINE_COMPLETE, PIPELINE_COMPLETE);
    assert PIPELINE_COMPLETE[0..|PIPELINE_COMPLETE|] == PIPELINE_COMPLETE;
    assert Text.OccursAt(PIPELINE_COMPLETE, PIPELINE_COMPLETE, 0);
    Text.ContainsWithin(before + "```python\n" + code, PIPELINE_COMPLETE, "\n```" + after, PIPELINE_COMPLETE);
    assert before + "```python\n" + code + PIPELINE_COMPLETE + "\n```" + after
        == (before + "```python\n" + code) + PIPELINE_COMPLETE + ("\n```" + after);
  }

  /** The system prompts; their texts are opaque here. */
  datatype Prompt =
    | EngineerStandard
    | EngineerDetailed
    | EngineerConcise
    | ReviewerPrompt
    | ExecutorPrompt

  /** `ENGINEER_PROMPTS`, keyed by agent mode. */
  const ENGINEER_PROMPTS: map<string, Prompt> :=
    map["standard" := EngineerStandard, "detailed" := EngineerDetailed, "concise" := EngineerConcise]

  /** `ENGINEER_PROMPTS.get(mode, ENGINEER_PROMPTS["standard"])`. */
  function EngineerPrompt(mode: string): (p: Prompt)
    ensures mode == "standard" ==> p == EngineerStandard
    ensures mode == "detailed" ==> p == EngineerDetailed
    ensures mode == "concise" ==> p == EngineerConcise
    ensures mode != "standard" && mode != "detailed" && mode != "concise" ==> p == EngineerStandard
  {
    if mode in ENGINEER_PROMPTS then ENGINEER_PROMPTS[mode] else ENGINEER_PROMPTS["standard"]
  }

  /** The settings the Executor (a user proxy that runs code) is constructed with. */
  datatype Executor = Executor(
    name: string,
    humanInputMode: string,
    maxConsecutiveAutoReply: nat,
    terminatesOnCompletion: bool,   // `is_termination_msg=is_pipeline_complete`
    workDir: string,
    useDocker: bool,
    llmConfig: Config.LlmConfig,
    systemMessage: Prompt)

  /** The settings an assistant agent (Engineer, Reviewer) is constructed with. */
  datatype Assistant = Assistant(name: string, systemMessage: Prompt, llmConfig: Config.LlmConfig)

  datatype Team = Team(executor: Executor, engineer: Assistant, reviewer: Assistant)

  /** Whether the Executor stops auto-replying on receiving `msg`. */
  function ExecutorStops(executor: Executor, msg: Message): bool {
    executor.terminatesOnCompletion && IsPipelineComplete(msg)
  }

  /**
   * `build_agents(work_dir, llm_config, agent_mode)`: a falsy work directory falls back to the
   * workspace directory and a missing configuration to `get_config()`, whose error propagates.
   */
  function BuildAgents(env: Config.Env, workDir: Option<string>, llmConfig: Option<Config.LlmConfig>, agentMode: string)
    : (r: Result<Team, string>)
    ensures r.Failure? <==> llmConfig.None? && Config.GetConfig(env).Failure?
    ensures r.Failure? ==> r.error == Config.MISSING_KEY_MESSAGE
    ensures r.Success? ==>
      var t := r.value;
      && (Truthy(workDir) ==> t.executor.workDir == workDir.value)
      && (!Truthy(workDir) ==> t.executor.workDir == Config.GetWorkspaceDir(env))
      && (llmConfig.Some? ==> t.executor.llmConfig == llmConfig.value)
      && (llmConfig.None? ==> t.executor.llmConfig == Config.GetConfig(env).value)
      && t.engineer.llmConfig == t.executor.llmConfig
      && t.reviewer.llmConfig == t.executor.llmConfig
      && t.executor.name == "Executor" && t.engineer.name == "Engineer" && t.reviewer.name == "Reviewer"
      && t.executor.humanInputMode == "NEVER"
      && t.executor.maxConsecutiveAutoReply == MAX_CONSECUTIVE_AUTO_REPLY
      && !t.executor.useDocker
      && t.executor.systemMessage == ExecutorPrompt
      && t.engineer.systemMessage == EngineerPrompt(agentMode)
      && t.reviewer.systemMessage == ReviewerPrompt
      && (forall msg :: ExecutorStops(t.executor, msg) <==> IsPipelineComplete(msg))
  {
    var dir := OrDefault(workDir, Config.GetWorkspaceDir(env));
    var config := if llmConfig.Some? then Success(llmConfig.value) else Config.GetConfig(env);
    if config.Failure? then
      Failure(config.error)
    else
      var cfg := config.value;
      Success(Team(
        Executor("Executor", "NEVER", MAX_CONSECUTIVE_AUTO_REPLY, true, dir, false, cfg, ExecutorPrompt),
        Assistant("Engineer", EngineerPrompt(agentMode), cfg),
        Assistant("Reviewer", ReviewerPrompt, cfg)))
  }
}
