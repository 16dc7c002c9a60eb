/**
 * The protocol handler (handler.rs): a registry of prepared agents keyed by
 * tool name, one tool definition per registry entry, and the `call_tool`
 * path: look the tool up, check `task` and `cwd` in that order, run the
 * agent and answer with `{ok, output}`.
 *
 * Protocol messages are datatypes; the JSON text of the answer is left to the
 * serializer, so a call answers with the payload's two fields.
 */
module Handler {
  import opened Wrappers
  import opened Strings
  import opened Paths
  import opened Values
  import opened ModelTypes
  import opened CodexRunner

  /** One property of a tool's input schema. */
  datatype PropertySchema = PropertySchema(typeName: string, description: string)

  /** A tool definition as listed to clients. */
  datatype Tool = Tool(
    name: string,
    description: string,
    required: seq<string>,
    properties: map<string, PropertySchema>)

  datatype RpcError =
    | MethodNotFound(message: string)
    | InternalError(message: string)
    | InvalidParams(message: string)

  /** The answer to a call: `{"ok": .., "output": ..}`. */
  datatype CallPayload = CallPayload(ok: bool, output: string)

  datatype Request =
    | Initialize(clientProtocol: string)
    | ListTools
    | CallTool(tool: string, arguments: Option<map<string, Json>>)
    /** Any other client request, by method name. */
    | OtherRequest(methodName: string)
    | CustomRequest

  datatype Response =
    | Initialized(protocolVersion: string)
    | ToolList(tools: seq<Tool>)
    | CallResult(payload: CallPayload)

  // ------------------------------------------------------------ the registry

  /** The registry after inserting every agent in order: a later tool name replaces an earlier one. */
  function Registry(agents: seq<PreparedAgent>): map<string, PreparedAgent> {
    if |agents| == 0 then map[]
    else
      var last := agents[|agents| - 1];
      Registry(agents[..|agents| - 1])[last.toolName := last]
  }

  /** The tool names present are exactly the agents' tool names, each bound to an agent of that name. */
  lemma {:induction false} RegistryEntries(agents: seq<PreparedAgent>)
    ensures forall i | 0 <= i < |agents| :: agents[i].toolName in Registry(agents)
    ensures forall k | k in Registry(agents) :: Registry(agents)[k].toolName == k && Registry(agents)[k] in agents
  {
    if |agents| > 0 {
      var init := agents[..|agents| - 1];
      RegistryEntries(init);
      assert forall a | a in init :: a in agents;
    }
  }

  /** An agent whose tool name does not recur later is the one the registry keeps. */
  lemma {:induction false} RegistryLastWins(agents: seq<PreparedAgent>, i: nat)
    requires i < |agents|
    requires forall j | i < j < |agents| :: agents[j].toolName != agents[i].toolName
    ensures agents[i].toolName in Registry(agents) && Registry(agents)[agents[i].toolName] == agents[i]
  {
    if i < |agents| - 1 {
      RegistryLastWins(agents[..|agents| - 1], i);
    }
  }

  /** With distinct tool names every agent gets its own entry. */
  lemma RegistryOfDistinct(agents: seq<PreparedAgent>)
    requires forall i, j | 0 <= i < j < |agents| :: agents[i].toolName != agents[j].toolName
    ensures forall i | 0 <= i < |agents| :: agents[i].toolName in Registry(agents) && Registry(agents)[agents[i].toolName] == agents[i]
  {
    forall i | 0 <= i < |agents| ensures agents[i].toolName in Registry(agents) && Registry(agents)[agents[i].toolName] == agents[i] {
      RegistryLastWins(agents, i);
    }
  }

  // ----------------------------------------------------------- tool listing

  const DescriptionPrefix := "task, cwd: string — "

  /** The tags joined for the description; empty when there are none. */
  function TagText(tags: Option<seq<string>>): string {
    if tags.Some? && |tags.value| > 0 then Join(tags.value, ", ") else ""
  }

  /** The description `tool_definitions` builds (handler.rs:55-67): the input names, the agent's description, then its tags when they print as something. */
  function Description(a: PreparedAgent): string {
    var t := TagText(a.tags);
    var base := DescriptionPrefix + a.description;
    if t == "" then base else base + " [tags: " + t + "]"
  }

  /**
   * A tool description begins with the fixed prefix and the agent's own
   * description, and all that follows is a " [tags: …]" suffix, present only
   * when the tags print as something.
   */
  lemma DescriptionLayout(a: PreparedAgent)
    ensures var d, base := Description(a), DescriptionPrefix + a.description;
      && StartsWith(d, base)
      && d[|base|..] == if TagText(a.tags) == "" then "" else " [tags: " + TagText(a.tags) + "]"
  {
    var base := DescriptionPrefix + a.description;
    var d := Description(a);
    if TagText(a.tags) != "" {
      assert d == base + (" [tags: " + TagText(a.tags) + "]");
    }
    assert d[..|base|] == base;
  }

  /** Tags that print as nothing (none, an empty list, a single empty tag) add nothing. */
  lemma UntaggedDescription(a: PreparedAgent)
    requires a.tags.None? || a.tags.value == [] || a.tags.value == [""]
    ensures Description(a) == DescriptionPrefix + a.description
  {
  }

  const TaskProperty := PropertySchema("string", "Task to perform")
  const CwdProperty := PropertySchema("string", "Working directory (must be an absolute path).")

  /** The `Tool` `tool_definitions` builds for one registry entry (handler.rs:50-96): its name, description and a schema requiring `task` and `cwd`. */
  function ToolFor(name: string, a: PreparedAgent): Tool {
    Tool(name, Description(a), ["task", "cwd"], map["task" := TaskProperty, "cwd" := CwdProperty])
  }

  // ------------------------------------------------------------ tool calls

  /** `arguments.get(key).and_then(as_str)` */
  function ArgString(args: Option<map<string, Json>>, key: string): Option<string> {
    if args.Some? && key in args.value && args.value[key].JStr? then Some(args.value[key].s) else None
  }

  /** `call_tool` as a function: lookup, `task`, `cwd`, absolute `cwd`, then the run. */
  function CallSpec(registry: map<string, PreparedAgent>, tool: string, args: Option<map<string, Json>>, engine: Engine)
    : Result<CallPayload, RpcError>
  {
    if tool !in registry then Err(MethodNotFound("Unknown tool '" + tool + "'"))
    else
      var task := ArgString(args, "task");
      if task.None? then Err(InternalError("missing required 'task' string"))
      else
        var cwd := ArgString(args, "cwd");
        if cwd.None? then Err(InternalError("missing required 'cwd' string"))
        else if !IsAbsolute(cwd.value) then
          Err(InvalidParams("invalid 'cwd': got '" + cwd.value + "', expected an absolute path"))
        else match ExecSpec(registry[tool], task.value, cwd.value, engine)
          case Err(_) => Ok(CallPayload(false, ""))
          case Ok(out) => Ok(CallPayload(out.ok, out.stdout))
  }

  /** An unknown tool is refused before any argument is looked at. */
  lemma UnknownToolFirst(registry: map<string, PreparedAgent>, tool: string, args: Option<map<string, Json>>, engine: Engine)
    requires tool !in registry
    ensures CallSpec(registry, tool, args, engine).Err? && CallSpec(registry, tool, args, engine).error.MethodNotFound?
  {
  }

  /** The checks run in order: `task`, then `cwd`, then whether `cwd` is absolute. */
  lemma ValidationOrder(registry: map<string, PreparedAgent>, tool: string, args: Option<map<string, Json>>, engine: Engine)
    requires tool in registry
    ensures ArgString(args, "task").None? ==>
      CallSpec(registry, tool, args, engine) == Err(InternalError("missing required 'task' string"))
    ensures ArgString(args, "task").Some? && ArgString(args, "cwd").None? ==>
      CallSpec(registry, tool, args, engine) == Err(InternalError("missing required 'cwd' string"))
    ensures ArgString(args, "task").Some? && ArgString(args, "cwd").Some? && !IsAbsolute(ArgString(args, "cwd").value) ==>
      CallSpec(registry, tool, args, engine).Err? && CallSpec(registry, tool, args, engine).error.InvalidParams?
    ensures CallSpec(registry, tool, args, engine).Ok? <==>
      ArgString(args, "task").Some? && ArgString(args, "cwd").Some? && IsAbsolute(ArgString(args, "cwd").value)
  {
  }

  /**
   * A call that passes the checks reaches the engine with the agent's
   * settings and a cwd the runner accepts; its payload is the run's stdout
   * and its ok flag, or `{false, ""}` when the run cannot start.
   */
  lemma PayloadOfRun(registry: map<string, PreparedAgent>, tool: string, task: string, cwd: string,
                     args: map<string, Json>, engine: Engine)
    requires tool in registry && "task" in args && args["task"] == JStr(task) && "cwd" in args && args["cwd"] == JStr(cwd)
    requires IsAbsolute(cwd)
    ensures var r := CallSpec(registry, tool, Some(args), engine);
      && (engine.base.Err? ==> r == Ok(CallPayload(false, "")))
      && (engine.base.Ok? ==>
            var launched := engine.launch(ConfigFor(engine.base.value, registry[tool]), OverridesFor(registry[tool], cwd), task);
            && (launched.Err? ==> r == Ok(CallPayload(false, "")))
            && (launched.Ok? ==>
                  && r.Ok?
                  && (r.value.ok <==> ShutdownComplete in launched.value.events)
                  && r.value.output == DrainSpec(launched.value).stdout))
  {
    if engine.base.Ok? {
      var launched := engine.launch(ConfigFor(engine.base.value, registry[tool]), OverridesFor(registry[tool], cwd), task);
      if launched.Ok? {
        OkIffShutdown(launched.value);
      }
    }
  }

  /** stderr never reaches the payload: the receive failure, which only stderr shows, changes nothing. */
  lemma PayloadIgnoresStderr(registry: map<string, PreparedAgent>, tool: string, args: Option<map<string, Json>>,
                             base: EngineConfig, events: seq<EventMsg>, f1: string, f2: string)
    ensures var e1 := Engine(Ok(base), (c, o, t) => Ok(EventStream(events, f1)));
      var e2 := Engine(Ok(base), (c, o, t) => Ok(EventStream(events, f2)));
      CallSpec(registry, tool, args, e1) == CallSpec(registry, tool, args, e2)
  {
  }

  // ---------------------------------------------------------------- the handler

  /** The keys of a map in its (unspecified) iteration order: each exactly once. */
  method KeyOrder(keys: set<string>) returns (names: seq<string>)
    ensures |names| == |keys|
    ensures forall i | 0 <= i < |names| :: names[i] in keys
    ensures forall i, j | 0 <= i < j < |names| :: names[i] != names[j]
    ensures forall k | k in keys :: k in names
  {
    names := [];
    var rest := keys;
    while rest != {}
      invariant rest <= keys
      invariant |names| + |rest| == |keys|
      invariant forall i | 0 <= i < |names| :: names[i] in keys && names[i] !in rest
      invariant forall i, j | 0 <= i < j < |names| :: names[i] != names[j]
      invariant forall k | k in keys :: k in names || k in rest
      decreases |rest|
    {
      var k :| k in rest;
      names := names + [k];
      rest := rest - {k};
    }
  }

  /**
   * `tools` lists the registry: one tool per entry with distinct names, each
   * named after its entry, described by its agent, and taking the required
   * string arguments `task` and `cwd`.
   */
  predicate ListsRegistry(tools: seq<Tool>, registry: map<string, PreparedAgent>) {
    && |tools| == |registry|
    && (forall i | 0 <= i < |tools| ::
          && tools[i].name in registry
          && tools[i].description == Description(registry[tools[i].name])
          && tools[i].required == ["task", "cwd"]
          && tools[i].properties == map["task" := TaskProperty, "cwd" := CwdProperty])
    && (forall i, j | 0 <= i < j < |tools| :: tools[i].name != tools[j].name)
    && (forall k | k in registry :: exists i | 0 <= i < |tools| :: tools[i].name == k)
  }

  /** `AgentsServerHandler`: the agents by tool name. */
  class AgentsServerHandler {
    var agentsByTool: map<string, PreparedAgent>

    /** Insert every agent under its tool name, in order. */
    constructor(agents: seq<PreparedAgent>)
      ensures agentsByTool == Registry(agents)
    {
      var m: map<string, PreparedAgent> := map[];
      for i := 0 to |agents|
        invariant m == Registry(agents[..i])
      {
        assert agents[..i + 1][..i] == agents[..i];
        m := m[agents[i].toolName := agents[i]];
      }
      assert agents[..|agents|] == agents;
      agentsByTool := m;
    }

    /** One tool per registry entry (in the map's iteration order). */
    method ToolDefinitions() returns (tools: seq<Tool>)
      ensures ListsRegistry(tools, agentsByTool)
    {
      var registry := agentsByTool;
      var names := KeyOrder(registry.Keys);
      tools := seq(|names|, i requires 0 <= i < |names| => ToolFor(names[i], registry[names[i]]));
      assert forall i | 0 <= i < |tools| :: tools[i].name == names[i];
      forall k | k in registry ensures exists i | 0 <= i < |tools| :: tools[i].name == k {
        var i :| 0 <= i < |names| && names[i] == k;
        assert tools[i].name == k;
      }
    }

    method CallTool(tool: string, args: Option<map<string, Json>>, engine: Engine) returns (r: Result<CallPayload, RpcError>)
      ensures r == CallSpec(agentsByTool, tool, args, engine)
    {
      if tool !in agentsByTool {
        return Err(MethodNotFound("Unknown tool '" + tool + "'"));
      }
      var ra := agentsByTool[tool];
      var task := ArgString(args, "task");
      if task.None? {
        return Err(InternalError("missing required 'task' string"));
      }
      var cwd := ArgString(args, "cwd");
      if cwd.None? {
        return Err(InternalError("missing required 'cwd' string"));
      }
      if !IsAbsolute(cwd.value) {
        return Err(InvalidParams("invalid 'cwd': got '" + cwd.value + "', expected an absolute path"));
      }
      var result := ExecTask(ra, task.value, cwd.value, engine);
      if result.Err? {
        return Ok(CallPayload(false, ""));
      }
      return Ok(CallPayload(result.value.ok, result.value.stdout));
    }

    /**
     * `handle_request`. `serverProtocol` is the server's protocol version and
     * `negotiate` the protocol library's compatibility check (an error, or
     * the version to switch to, if any).
     */
    method HandleRequest(request: Request, serverProtocol: string,
                         negotiate: (string, string) -> Result<Option<string>, string>, engine: Engine)
      returns (r: Result<Response, RpcError>)
      ensures request.Initialize? ==>
        var n := negotiate(request.clientProtocol, serverProtocol);
        && (n.Err? ==> r == Err(InternalError(n.error)))
        && (n.Ok? ==> r == Ok(Initialized(n.value.GetOr(serverProtocol))))
      ensures request.ListTools? ==> r.Ok? && r.value.ToolList? && ListsRegistry(r.value.tools, agentsByTool)
      ensures request.CallTool? ==>
        var c := CallSpec(agentsByTool, request.tool, request.arguments, engine);
        && (c.Err? ==> r == Err(c.error))
        && (c.Ok? ==> r == Ok(CallResult(c.value)))
      ensures request.OtherRequest? ==> r == Err(MethodNotFound("No handler is implemented for '" + request.methodName + "'."))
      ensures request.CustomRequest? ==> r == Err(MethodNotFound("No handler is implemented for custom requests."))
    {
      match request {
        case Initialize(client) =>
          var n := negotiate(client, serverProtocol);
          if n.Err? {
            return Err(InternalError(n.error));
          }
          var version := serverProtocol;
          if n.value.Some? {
            version := n.value.value;
          }
          return Ok(Initialized(version));
        case ListTools =>
          var tools := ToolDefinitions();
          return Ok(ToolList(tools));
        case CallTool(tool, args) =>
          var c := CallTool(tool, args, engine);
          if c.Err? {
            return Err(c.error);
          }
          return Ok(CallResult(c.value));
        case OtherRequest(m) =>
          return Err(MethodNotFound("No handler is implemented for '" + m + "'."));
        case CustomRequest =>
          return Err(MethodNotFound("No handler is implemented for custom requests."));
      }
    }
  }

  /** A handler over one agent lists one tool, and its schema requires `task` and `cwd`. */
  lemma SingleAgentSchema(a: PreparedAgent)
    ensures |Registry([a])| == 1
    ensures var t := ToolFor(a.toolName, Registry([a])[a.toolName]);
      t.name == a.toolName && "task" in t.required && "cwd" in t.required
  {
    assert [a][..0] == [];
    assert Registry([a]) == map[a.toolName := a];
  }
}
