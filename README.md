# smartmcp gateway core, modelled in Dafny

smartmcp is an MCP gateway. It sits between one client and several upstream
MCP servers. It advertises only a built-in `search_tools` tool plus a small,
changing set of "active" upstream tools, chosen by semantic search over every
upstream tool. This project models the three pieces of the gateway's own logic
and proves what they promise:

- **Request handlers** (`server.dfy`, module `Server`). `SmartMcpState` is a
  class whose `activeTools` field starts empty. `HandleListTools` always lists
  the `search_tools` descriptor first, then the active tools. `HandleCallTool`
  has three outcomes:
  - A `search_tools` call whose `query` is missing or falsy gets the text
    `Error: 'query' is required`.
  - A `search_tools` call with a real query replaces `activeTools` wholesale
    with the tools of the search hits, in rank order. It sends exactly one
    "tool list changed" notification and answers with a summary: a header
    giving the number of hits, then one line per hit.
  - Any other tool name gets `Unknown tool: <name>`.

  Only the successful search changes the state. The embedding index is a
  function-valued field from (query, `top_k`) to ranked hits. The session's
  notifications are recorded in a log field, together with the listing a
  client would receive at that moment.
- **Retrieval text** (`embedding.dfy`, module `Embedding`). `ToolToText`
  builds `tool_to_text` in a loop. It is proved equal to `Join(" ", ToolParts(...))`:
  - the tool name with `__` and then `_` turned into spaces;
  - the description, when it is non-empty;
  - one part per schema property, in schema order: the property name with
    `_` turned into spaces, plus `: <description>` when the property's entry
    is a dict with a truthy description.

  A `properties` value that is not a dict makes `.items()` raise. The model
  returns no text in that case.
- **Configuration validation** (`config.dfy`, module `Config`).
  `ValidateConfig` starts from the parsed JSON value. It rejects a missing,
  empty or non-object `mcpServers`. It copies the entries in file order and
  stops at the first entry without `command`. `args` defaults to `[]` and
  `env` to `{}`; `top_k` defaults to 5 and `embedding_model` to
  `"all-MiniLM-L6-v2"`. `LoadConfig` adds the file-not-found check in front.
  The file system is a map from each existing path to its parsed content.

Shared modules: `Json` holds the JSON value type, `dict.get`, Python
truthiness and `str()`. `Text` holds `str.join` and decimal rendering, with a
round-trip lemma. `McpTypes` holds the MCP `Tool` type, and `Wrappers` holds
`Option` and `Result`.

What the handlers do not do, as the code stands:
- `handle_call_tool` does not forward other tool names to an upstream
  session. It answers `Unknown tool: <name>`.
- `top_k` is passed to the index unclamped, as whatever JSON value the
  caller supplied.
- Tool names are not qualified with the name of their server.
- A failure to send the notification is not caught; the handler simply
  awaits the send.

One observation from the proofs: the `search_tools` descriptor tells clients
that `top_k` defaults to 3. When neither the call nor the configuration
gives `top_k`, the index is actually asked for 5 (`Server.DefaultSearchSize`).

## Model

| member | source | states |
|---|---|---|
| Server.SmartMcpState.constructor | smartmcp/server.py:49-63 | The state starts with no active tools and no notification sent, so the listing is exactly `[search_tools]` |
| Server.SmartMcpState.HandleListTools | smartmcp/server.py:91-95 | The listing has length 1 + number of active tools, holds the `search_tools` descriptor at index 0 and the active tools after it, in order |
| Server.SmartMcpState.HandleCallTool | smartmcp/server.py:98-126 | Other names: text `Unknown tool: <name>`, state unchanged. Search with missing/falsy query: the error text, state unchanged, no notification. Search with a truthy query: active tools become exactly the hits' tools, in order; exactly one notification is appended, sent after the replacement (it carries the new listing); the text is the summary lines joined by newlines |
| Server.SearchToolsSchemaShape | smartmcp/server.py:24-46 | The built-in descriptor is named `search_tools`, requires only `query`, and declares the arguments `query` and `top_k`, in that order |
| Server.AbsentArgumentsRejected | smartmcp/server.py:104-110 | A call with no arguments, or an empty arguments dict, has no query and so is rejected; its `top_k` is the configured one |
| Server.QueryArgument | smartmcp/server.py:105 | The query is the caller's `query` value; when absent it is the empty string, which is falsy and so rejected |
| Server.TopKArgument | smartmcp/server.py:106 | The `top_k` given to the search is the caller's `top_k` when present, otherwise the configured `top_k` |
| Server.ToolsOf | smartmcp/server.py:113 | The new active tools are the hits' tools, one per hit, in hit order; scores are dropped and no tool appears that is not among the hits |
| Server.SummaryLines | smartmcp/server.py:117-119 | The summary has one header line reporting the number of hits, then exactly one line per hit, in hit order |
| Server.HeaderReportsCount | smartmcp/server.py:117 | The header starts `Found ` followed by decimal digits whose value is the number of hits |
| Server.DefaultSearchSize | smartmcp/server.py:106 | When neither the call nor the configuration gives `top_k`, the search is asked for 5 tools |
| Embedding.UnderscoresToSpaces | smartmcp/embedding.py:21 | Every underscore becomes a space and every other character stays in place; the length is unchanged |
| Embedding.ReplaceDoubleUnderscores | smartmcp/embedding.py:14 | Replacing `__` from the left never makes the text longer, leaves no two adjacent underscores, and leaves a text without underscores unchanged |
| Embedding.ReplaceDoubleSplitsAt | smartmcp/embedding.py:14 | Replacing `__` works separately on the text before and after any character other than `_`, which is kept |
| Embedding.ReplaceDoubleOnRun | smartmcp/embedding.py:14 | A run of k underscores becomes k / 2 spaces, followed by one `_` when k is odd |
| Embedding.SegmentNameSplitsAt | smartmcp/embedding.py:14 | Segmenting works separately on the text before and after any character other than `_`, which is kept in place |
| Embedding.SegmentNameOnRun | smartmcp/embedding.py:14 | A run of k underscores in a tool name becomes (k + 1) / 2 spaces, so `a__b` becomes `a b` |
| Embedding.SegmentName | smartmcp/embedding.py:14 | The segmented tool name contains no underscore, is no longer than the name, and equals the name when it had no underscore |
| Embedding.DescriptionParts | smartmcp/embedding.py:16-17 | The description contributes one part, itself, exactly when it is present and non-empty, and nothing otherwise |
| Embedding.PropertyPart | smartmcp/embedding.py:20-23 | A property part starts with the property name with underscores turned into spaces; it is longer than the name exactly when the entry is a dict with a truthy description, and then the rest is `: ` and that description |
| Embedding.SchemaProperties | smartmcp/embedding.py:19 | A schema without `properties` contributes no property; a `properties` dict contributes its members; any other `properties` value makes the call fail |
| Embedding.ToolToText | smartmcp/embedding.py:6-26 | The loop produces the parts name, description, properties joined by single spaces; it fails exactly when `properties` is present and not a dict |
| Embedding.PartsLayout | smartmcp/embedding.py:14-24 | There are 1 + [description non-empty] + number-of-properties parts: the segmented name first, the description second when non-empty, then each property's part in schema order |
| Embedding.TextStartsWithName | smartmcp/embedding.py:26 | The retrieval text begins with the segmented name, which has no underscore |
| Embedding.TextLength | smartmcp/embedding.py:26 | The retrieval text is the parts' total length plus one space between each pair of neighbouring parts |
| Config.EntryConfig | smartmcp/config.py:37-45 | A dict entry is rejected with a missing-command error exactly when it has no `command`; otherwise `command` is copied as given, `args` and `env` are copied when present and default to `[]` and `{}`; a string or list entry fails with a missing-command error when `"command"` is not a substring or member, and with a TypeError when it is; any other entry fails with a TypeError |
| Config.ValidateConfig | smartmcp/config.py:33-51 | A non-object file fails; a missing, empty or non-object `mcpServers` fails; otherwise the result succeeds exactly when every entry is valid, a failure reports the first bad entry's error, and on success the server names equal the `mcpServers` keys in order, each server is its entry's copy, and `top_k`/`embedding_model` are taken from the file or default to 5 and `all-MiniLM-L6-v2` |
| Config.LoadConfig | smartmcp/config.py:24-51 | A path that does not exist fails with file-not-found before anything is read; for an existing file the result is the validation of its content: every rejection case, success exactly when all entries are valid, the first bad entry's error, at least one server, each server its entry's copy under the `mcpServers` key, in order, and the `top_k`/`embedding_model` values or their defaults |
| Config.TopLevelDefaults | smartmcp/config.py:47-51 | Without `top_k` and `embedding_model` the configuration gets 5 and `all-MiniLM-L6-v2` |

## Left out

- smartmcp/upstream.py is not part of this model. It spawns processes, runs the stdio transport and the MCP handshake, and tears sessions down; all of this is I/O over the external `mcp` library. Its only logic is the flattening of (server, tool) pairs in `collect_tools`.
- smartmcp/cli.py is not part of this model: it is click wiring only.
- `run_server` and `smartmcp_lifespan` (event loop, stdio server, startup and shutdown) are not modelled. The state's `upstream` and `all_tools` fields are left out with them, because no handler reads them.
- `EmbeddingIndex` (sentence embeddings, FAISS, float similarity) is a parameter of the state: a function from query and `top_k` to ranked hits.
- The `{score:.3f}` formatting of float scores is a parameter of the state: a function from a score to its text.
- Server.SmartMcpState.HandleCallTool: returns only the text of the single `TextContent` in the `CallToolResult`. It does not model a failing `send_tool_list_changed`, which in the source propagates out of the handler. Logging is omitted.
- `json.loads` and the file read in `load_config` are not modelled. The model starts from the parsed value, and a file's existence is membership in the file map.
- JSON numbers with a fraction are not modelled. A JSON object is its member list in insertion order; the model does not represent an object that repeats a key, which a Python dict cannot hold.
- Json.Render: for a string nested inside a list or dict, it writes the string between single quotes without Python's escaping or its choice of double quotes. Only a property description that is a non-empty list or dict of strings is rendered this way.
- The message texts of the exceptions `load_config` raises are not modelled; each error is a `ConfigError` value naming its kind and, where the source's message does, the server or path. The path is kept as given, without `Path`'s normalisation.
