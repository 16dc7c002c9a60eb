/** Shared types for MCP server discovery and tool references (mcp/types.rs). */
module McpTypes {
  import opened Wrappers

  /** Transport of a server: stdio only (HTTP is not supported by switchboard-mcp either). */
  datatype McpTransport = Stdio(command: string, args: seq<string>, env: map<string, string>)

  /** Where a server definition was found. */
  datatype McpProvider = Claude | Vscode | Cursor | Mapping

  datatype McpServerOrigin = McpServerOrigin(provider: McpProvider, path: Option<string>, note: Option<string>)

  /** A server definition with origin metadata. */
  datatype NormalizedMcpServer = NormalizedMcpServer(key: string, transport: McpTransport, origin: McpServerOrigin)

  /** Discovered servers keyed by name. */
  type ServerMap = map<string, NormalizedMcpServer>

  /** Every entry is stored under its own `key`. */
  predicate KeysConsistent(m: ServerMap) {
    forall k | k in m :: m[k].key == k
  }

  /** A reference to an MCP tool: a bare name, or `server::tool`. */
  datatype McpToolRef = Bare(tool: string) | Namespaced(serverKey: string, tool: string)
}
