/**
 * Agent records (model/types.rs, model/source.rs, model/prepared.rs).
 * The enum-typed run settings of the execution engine are carried as their
 * string tokens.
 */
module ModelTypes {
  import opened Wrappers
  import opened Values
  import opened Naming
  import opened McpTypes

  /** Typed run settings that become one profile of the engine's configuration. */
  datatype AgentRun = AgentRun(
    model: Option<string>,
    modelProvider: Option<string>,
    approvalPolicy: Option<string>,
    disableResponseStorage: Option<bool>,
    modelReasoningEffort: Option<string>,
    modelReasoningSummary: Option<string>,
    modelVerbosity: Option<string>,
    chatgptBaseUrl: Option<string>,
    sandboxMode: Option<string>,
    includePlanTool: Option<bool>,
    includeApplyPatchTool: Option<bool>,
    includeViewImageTool: Option<bool>,
    toolsWebSearchRequest: Option<bool>)

  /** `AgentRun::default()`: nothing set. */
  const EmptyRun := AgentRun(None, None, None, None, None, None, None, None, None, None, None, None, None)

  /** Optional toggle policy for the engine's built-in tools. */
  datatype AgentTogglePolicy = AgentTogglePolicy(
    includePlanTool: Option<bool>,
    includeApplyPatchTool: Option<bool>,
    includeViewImageTool: Option<bool>,
    toolsWebSearchRequest: Option<bool>)

  datatype AgentConfig = AgentConfig(
    name: string,
    description: string,
    tags: Option<seq<string>>,
    toggles: Option<AgentTogglePolicy>,
    mcpToolRefs: Option<seq<McpToolRef>>,
    instructionsFile: Option<string>,
    instructions: Option<string>,
    run: Option<AgentRun>,
    mcpServers: Option<Toml>)

  datatype AgentSource = AgentSource(variant: AgentVariant, path: string)

  /** An agent after loading and before its servers and instructions are converted. */
  datatype ResolvedAgent = ResolvedAgent(
    source: AgentSource,
    config: AgentConfig,
    toolName: string,
    mcpServers: ServerMap)

  /** The engine's stdio server configuration (`env` only when non-empty). */
  datatype McpServerConfig = McpServerConfig(command: string, args: seq<string>, env: Option<map<string, string>>)

  /** A fully prepared agent bound to its tool name. */
  datatype PreparedAgent = PreparedAgent(
    toolName: string,
    name: string,
    description: string,
    tags: Option<seq<string>>,
    provider: AgentVariant,
    mcpServers: map<string, McpServerConfig>,
    instructions: Option<string>,
    run: Option<AgentRun>)
}
