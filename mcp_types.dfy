/** The one MCP protocol type the core handles: a tool descriptor. */
module McpTypes {
  import opened Wrappers
  import opened Json

  /** `types.Tool`: a name, an optional description and a JSON-schema dict for the arguments. */
  datatype Tool = Tool(name: string, description: Option<string>, inputSchema: seq<(string, Value)>)
}
