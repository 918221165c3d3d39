/**
 * The request handlers of the gateway (smartmcp/server.py): the state
 * holding the active tool set, `handle_list_tools` and `handle_call_tool`.
 *
 * The embedding index is a function from (query, top_k) to ranked hits, and
 * the `{score:.3f}` rendering of a float is a function from a score to
 * text; both are fixed when the state is built. The session's
 * "tool list changed" notifications are kept as a log in the state.
 */
module Server {
  import opened Wrappers
  import opened Json
  import opened McpTypes
  import Text
  import Config

  const SearchToolsName: string := "search_tools"

  /** The built-in `search_tools` descriptor, always advertised first. */
  const SearchToolsDescriptor: Tool := Tool(
    SearchToolsName,
    Some("Search for relevant tools across all connected MCP servers. "
         + "Describe what you want to do and this will find the best matching tools."),
    [ ("type", Str("object")),
      ("required", Array([Str("query")])),
      ("properties", Object([
         ("query", Object([
            ("type", Str("string")),
            ("description", Str("Natural language description of what you want to do"))])),
         ("top_k", Object([
            ("type", Str("integer")),
            ("description", Str("Number of tools to return (default: 3)"))]))]))])

  /**
   * The descriptor is named `search_tools`, requires only `query`, and
   * declares the two arguments `query` and `top_k`, in that order.
   */
  lemma SearchToolsSchemaShape()
    ensures SearchToolsDescriptor.name == SearchToolsName
    ensures GetOr(SearchToolsDescriptor.inputSchema, "required", Null) == Array([Str("query")])
    ensures var props := GetOr(SearchToolsDescriptor.inputSchema, "properties", Null);
            props.Object? && Keys(props.members) == ["query", "top_k"]
  {
  }

  const QueryRequiredText: string := "Error: 'query' is required"

  /** One ranked search result: a tool and its similarity score. */
  datatype SearchHit = SearchHit(tool: Tool, score: real)

  /** `EmbeddingIndex.search(query, top_k=...)`: ranked hits for a query. */
  type SearchIndex = (Value, Value) -> seq<SearchHit>

  /** A "tool list changed" notification, with the listing a client re-fetching at that moment receives. */
  datatype Notification = ToolListChanged(listing: seq<Tool>)

  /** `params.arguments or {}`. */
  function CallArguments(arguments: Option<seq<(string, Value)>>): (args: seq<(string, Value)>)
    ensures arguments.Some? ==> args == arguments.value
    ensures arguments.None? ==> args == []
  {
    match arguments
    case Some(a) => a
    case None => []
  }

  /** `args.get("query", "")`: an absent query reads as the empty string. */
  function QueryArgument(args: seq<(string, Value)>): (q: Value)
    ensures HasKey(args, "query") ==> ("query", q) in args
    ensures !HasKey(args, "query") ==> q == Str("") && !Truthy(q)
  {
    GetOr(args, "query", Str(""))
  }

  /**
   * A call with no arguments, or with an empty arguments dict, is treated
   * as a call without a query and is rejected; its `top_k` is the
   * configured one.
   */
  lemma AbsentArgumentsRejected(configured: Value)
    ensures !Truthy(QueryArgument(CallArguments(None)))
    ensures !Truthy(QueryArgument(CallArguments(Some([]))))
    ensures TopKArgument(CallArguments(None), configured) == configured
  {
  }

  /** `args.get("top_k", config.top_k)`: the caller's value when given, else the configured one. */
  function TopKArgument(args: seq<(string, Value)>, configured: Value): (k: Value)
    ensures HasKey(args, "top_k") ==> ("top_k", k) in args
    ensures !HasKey(args, "top_k") ==> k == configured
  {
    GetOr(args, "top_k", configured)
  }

  /** `[tool for tool, _ in results]`: the tools of the hits, in rank order, scores dropped. */
  function ToolsOf(results: seq<SearchHit>): (tools: seq<Tool>)
    ensures |tools| == |results|
    ensures forall i :: 0 <= i < |results| ==> tools[i] == results[i].tool
    ensures forall t :: t in tools ==> exists i :: 0 <= i < |results| && results[i].tool == t
    decreases |results|
  {
    if |results| == 0 then [] else [results[0].tool] + ToolsOf(results[1..])
  }

  /** What an f-string writes for an optional description: the text, or `None`. */
  function DescriptionText(description: Option<string>): string
  {
    match description
    case Some(d) => d
    case None => "None"
  }

  /** The first line of the search summary, reporting how many tools matched. */
  function SummaryHeader(count: nat): string
  {
    "Found " + Text.NatToString(count) + " matching tool(s). They are now available to call:\n"
  }

  /** The summary line of one hit: name, formatted score and description. */
  function ResultLine(hit: SearchHit, formatScore: real -> string): string
  {
    "- " + hit.tool.name + " (score: " + formatScore(hit.score) + "): " + DescriptionText(hit.tool.description)
  }

  /** The header's number, read back, is the number of results. */
  lemma {:induction false} HeaderReportsCount(count: nat)
    ensures var digits := Text.NatToString(count);
            var header := SummaryHeader(count);
            && header[..6] == "Found "
            && header[6..6 + |digits|] == digits
            && Text.DecimalValue(digits) == count
  {
    Text.DecimalRoundTrip(count);
  }

  /** The lines of the search summary: the header, then one line per result in rank order. */
  method SummaryLines(results: seq<SearchHit>, formatScore: real -> string) returns (lines: seq<string>)
    ensures |lines| == 1 + |results|
    ensures lines[0] == SummaryHeader(|results|)
    ensures forall k :: 0 <= k < |results| ==> lines[k + 1] == ResultLine(results[k], formatScore)
  {
    lines := [SummaryHeader(|results|)];
    var i := 0;
    while i < |results|
      invariant 0 <= i <= |results|
      invariant |lines| == 1 + i
      invariant lines[0] == SummaryHeader(|results|)
      invariant forall k :: 0 <= k < i ==> lines[k + 1] == ResultLine(results[k], formatScore)
    {
      lines := lines + [ResultLine(results[i], formatScore)];
      i := i + 1;
    }
  }

  /** `SmartMCPState`: the runtime state the handlers share. */
  class SmartMcpState {
    const index: SearchIndex
    const config: Config.SmartMcpConfig
    const formatScore: real -> string
    /** The tools currently advertised besides `search_tools`. */
    var activeTools: seq<Tool>
    /** Notifications sent to the client session, oldest first. */
    var notifications: seq<Notification>

    constructor (index: SearchIndex, config: Config.SmartMcpConfig, formatScore: real -> string)
      ensures this.index == index && this.config == config && this.formatScore == formatScore
      ensures activeTools == [] && notifications == []
      ensures HandleListTools() == [SearchToolsDescriptor]
    {
      this.index := index;
      this.config := config;
      this.formatScore := formatScore;
      activeTools := [];
      notifications := [];
    }

    /** `handle_list_tools`: `search_tools` first, then the active tools in order. */
    function HandleListTools(): (listing: seq<Tool>)
      reads this
      ensures |listing| == 1 + |activeTools|
      ensures listing[0] == SearchToolsDescriptor
      ensures forall i :: 0 <= i < |activeTools| ==> listing[i + 1] == activeTools[i]
    {
      [SearchToolsDescriptor] + activeTools
    }

    /**
     * `handle_call_tool`. A `search_tools` call with a truthy query replaces
     * the active tools by the hits' tools, notifies the client once and
     * answers with the summary; with a missing or falsy query it answers
     * with an error text; any other name gets `Unknown tool: <name>`. Only
     * the successful search changes the state.
     */
    method HandleCallTool(name: string, arguments: Option<seq<(string, Value)>>) returns (text: string)
      modifies this
      ensures name != SearchToolsName ==>
                && text == "Unknown tool: " + name
                && activeTools == old(activeTools) && notifications == old(notifications)
      ensures name == SearchToolsName && !Truthy(QueryArgument(CallArguments(arguments))) ==>
                && text == QueryRequiredText
                && activeTools == old(activeTools) && notifications == old(notifications)
      ensures name == SearchToolsName && Truthy(QueryArgument(CallArguments(arguments))) ==>
                var args := CallArguments(arguments);
                var results := index(QueryArgument(args), TopKArgument(args, config.topK));
                && activeTools == ToolsOf(results)
                && notifications == old(notifications) + [ToolListChanged([SearchToolsDescriptor] + ToolsOf(results))]
                && exists lines ::
                     && |lines| == 1 + |results|
                     && lines[0] == SummaryHeader(|results|)
                     && (forall k :: 0 <= k < |results| ==> lines[k + 1] == ResultLine(results[k], formatScore))
                     && text == Text.Join("\n", lines)
    {
      if name == SearchToolsName {
        var args := CallArguments(arguments);
        var query := GetOr(args, "query", Str(""));
        var topK := GetOr(args, "top_k", config.topK);
        if !Truthy(query) {
          return QueryRequiredText;
        }
        var results := index(query, topK);
        activeTools := ToolsOf(results);
        notifications := notifications + [ToolListChanged(HandleListTools())];
        var lines := SummaryLines(results, formatScore);
        return Text.Join("\n", lines);
      }
      text := "Unknown tool: " + name;
    }
  }

  /**
   * With neither the configuration nor the call giving `top_k`, the search
   * is asked for 5 tools, although the descriptor's text says the default is 3.
   */
  lemma DefaultSearchSize(raw: seq<(string, Value)>, args: seq<(string, Value)>)
    requires !HasKey(raw, "top_k") && !HasKey(args, "top_k")
    ensures TopKArgument(args, GetOr(raw, "top_k", Config.DefaultTopK)) == Int(5)
  {
  }
}
