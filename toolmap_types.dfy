/**
 * Mapping tables from provider-specific tool names to the engine's built-in
 * toggles or to MCP servers (toolmap/types.rs). `default_mapping` fills its
 * tables by inserting fixed entries; they are written here as map constants.
 */
module ToolMapTypes {

  /** Providers that own a mapping table. */
  datatype ProviderId = Codex | Anthropic | Vscode

  /** Built-in toggles of the engine; terminal access needs none. */
  datatype BuiltinToggle = Plan | ApplyPatch | ViewImage | WebSearch | TerminalAccess

  /** Where a mapped tool goes: a built-in toggle, or a named tool of a stdio server with its launch details. */
  datatype MappingDest =
    | Builtin(toggle: BuiltinToggle)
    | McpTool(serverKey: string, tool: string, command: string, args: seq<string>, env: map<string, string>)

  /** One provider's table (`map` in the Rust struct, `dests` here) and its aliases. */
  datatype ToolMappingTable = ToolMappingTable(dests: map<string, MappingDest>, aliases: map<string, string>)

  datatype LoadedMapping = LoadedMapping(vscode: ToolMappingTable, anthropic: ToolMappingTable)

  /** VS Code "memory" runs the reference memory server through npx. */
  const MemoryDest := McpTool("memory", "memory", "npx", ["-y", "@modelcontextprotocol/server-memory"], map[])

  const VscodeMap: map<string, MappingDest> := map[
    "memory" := MemoryDest,
    "edit" := Builtin(ApplyPatch),
    "new" := Builtin(ApplyPatch),
    "search" := Builtin(WebSearch),
    "fetch" := Builtin(WebSearch),
    "githubRepo" := Builtin(WebSearch),
    "runCommands" := Builtin(TerminalAccess)]

  /** Placeholders for VS Code tools without a mapping; only "Find Usages" is renamed. */
  const VscodeAliases: map<string, string> := map[
    "Find Usages" := "usages",
    "runTasks" := "runTasks",
    "notebooks" := "notebooks",
    "extensions" := "extensions",
    "usages" := "usages",
    "vscodeAPI" := "vscodeAPI",
    "problems" := "problems",
    "changes" := "changes",
    "testFailure" := "testFailure",
    "openSimpleBrowser" := "openSimpleBrowser"]

  const AnthropicMap: map<string, MappingDest> := map[
    "plan" := Builtin(Plan),
    "apply_patch" := Builtin(ApplyPatch),
    "view_image" := Builtin(ViewImage),
    "web_search" := Builtin(WebSearch),
    "Bash" := Builtin(TerminalAccess),
    "Glob" := Builtin(TerminalAccess),
    "Grep" := Builtin(TerminalAccess),
    "Read" := Builtin(TerminalAccess),
    "BashOutput" := Builtin(TerminalAccess),
    "KillBash" := Builtin(TerminalAccess)]

  /** Claude tool names sent to the closest built-in toggle. */
  const AnthropicAliases: map<string, string> := map[
    "Edit" := "apply_patch",
    "MultiEdit" := "apply_patch",
    "Write" := "apply_patch",
    "NotebookEdit" := "apply_patch",
    "WebSearch" := "web_search",
    "WebFetch" := "web_search",
    "TodoWrite" := "plan"]

  /** `default_mapping` */
  const DefaultMapping := LoadedMapping(
    ToolMappingTable(VscodeMap, VscodeAliases),
    ToolMappingTable(AnthropicMap, AnthropicAliases))

  /** The VS Code table: edits go to apply_patch, web-ish tools to web_search, commands to the terminal, memory to a server. */
  lemma VscodeMapContents()
    ensures VscodeMap.Keys == {"memory", "edit", "new", "search", "fetch", "githubRepo", "runCommands"}
    ensures VscodeMap["edit"] == VscodeMap["new"] == Builtin(ApplyPatch)
    ensures VscodeMap["search"] == VscodeMap["fetch"] == VscodeMap["githubRepo"] == Builtin(WebSearch)
    ensures VscodeMap["runCommands"] == Builtin(TerminalAccess)
    ensures VscodeMap["memory"] == McpTool("memory", "memory", "npx", ["-y", "@modelcontextprotocol/server-memory"], map[])
  {
  }

  /** VS Code aliases rename only "Find Usages", and never lead to a mapped tool. */
  lemma VscodeAliasesContents()
    ensures VscodeAliases.Keys == {"Find Usages", "runTasks", "notebooks", "extensions", "usages",
      "vscodeAPI", "problems", "changes", "testFailure", "openSimpleBrowser"}
    ensures VscodeAliases["Find Usages"] == "usages"
    ensures forall a | a in VscodeAliases && a != "Find Usages" :: VscodeAliases[a] == a
    ensures forall a | a in VscodeAliases :: VscodeAliases[a] !in VscodeMap
  {
  }

  /** The Anthropic table: the four toggles by their own names, and Claude's terminal tools consumed. */
  lemma AnthropicMapContents()
    ensures AnthropicMap.Keys == {"plan", "apply_patch", "view_image", "web_search",
      "Bash", "Glob", "Grep", "Read", "BashOutput", "KillBash"}
    ensures AnthropicMap["plan"] == Builtin(Plan) && AnthropicMap["apply_patch"] == Builtin(ApplyPatch)
    ensures AnthropicMap["view_image"] == Builtin(ViewImage) && AnthropicMap["web_search"] == Builtin(WebSearch)
    ensures forall k | k in ["Bash", "Glob", "Grep", "Read", "BashOutput", "KillBash"] :: AnthropicMap[k] == Builtin(TerminalAccess)
    ensures forall k | k in AnthropicMap :: AnthropicMap[k].Builtin?
  {
  }

  /** Anthropic aliases: the editing family to apply_patch, web tools to web_search, TodoWrite to plan; every target is mapped. */
  lemma AnthropicAliasesContents()
    ensures AnthropicAliases.Keys == {"Edit", "MultiEdit", "Write", "NotebookEdit", "WebSearch", "WebFetch", "TodoWrite"}
    ensures forall k | k in ["Edit", "MultiEdit", "Write", "NotebookEdit"] :: AnthropicAliases[k] == "apply_patch"
    ensures AnthropicAliases["WebSearch"] == AnthropicAliases["WebFetch"] == "web_search"
    ensures AnthropicAliases["TodoWrite"] == "plan"
    ensures forall a | a in AnthropicAliases :: AnthropicAliases[a] in AnthropicMap
  {
  }
}
