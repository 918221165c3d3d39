/**
 * Validation of the smartmcp.json configuration (`load_config` in
 * smartmcp/config.py), starting from the file's parsed JSON value.
 */
module Config {
  import opened Wrappers
  import opened Json

  /** One upstream server's launch descriptor. The dataclass checks no types, so fields hold the JSON values as given. */
  datatype ServerConfig = ServerConfig(command: Value, args: Value, env: Value)

  /** The whole configuration: servers in file order, plus the search defaults. */
  datatype SmartMcpConfig = SmartMcpConfig(servers: seq<(string, ServerConfig)>, topK: Value, embeddingModel: Value)

  const DefaultTopK: Value := Int(5)
  const DefaultEmbeddingModel: Value := Str("all-MiniLM-L6-v2")

  /** Why a configuration is rejected. RuntimeTypeError stands for the TypeError or AttributeError Python raises on a value of the wrong kind. */
  datatype ConfigError =
    | FileNotFound(path: string)
    | InvalidServers
    | MissingCommand(server: string)
    | RuntimeTypeError

  /** Python's `needle in haystack` on strings. */
  predicate IsSubstring(needle: string, haystack: string)
    decreases |haystack|
  {
    |needle| <= |haystack| && (haystack[..|needle|] == needle || IsSubstring(needle, haystack[1..]))
  }

  /**
   * The body of the loop over `mcpServers` for one `(name, entry)`: the
   * `"command" in entry` test, then the copy with `args` defaulting to `[]`
   * and `env` to `{}`. On a string `in` is a substring test and on a list a
   * membership test; indexing either, or testing `in` on anything else,
   * raises a TypeError.
   */
  function EntryConfig(name: string, entry: Value): (r: Result<ServerConfig, ConfigError>)
    ensures entry.Object? ==> (r.Success? <==> HasKey(entry.members, "command"))
    ensures entry.Object? && r.Failure? ==> r.error == MissingCommand(name)
    ensures r.Success? ==> entry.Object?
    ensures r.Success? ==> (
              && ("command", r.value.command) in entry.members
              && (HasKey(entry.members, "args") ==> ("args", r.value.args) in entry.members)
              && (!HasKey(entry.members, "args") ==> r.value.args == Array([]))
              && (HasKey(entry.members, "env") ==> ("env", r.value.env) in entry.members)
              && (!HasKey(entry.members, "env") ==> r.value.env == Object([])))
    ensures entry.Str? ==> r.Failure? && (r.error == RuntimeTypeError <==> IsSubstring("command", entry.s))
    ensures entry.Str? && !IsSubstring("command", entry.s) ==> r == Failure(MissingCommand(name))
    ensures entry.Array? ==> r.Failure? && (r.error == RuntimeTypeError <==> Str("command") in entry.items)
    ensures entry.Array? && Str("command") !in entry.items ==> r == Failure(MissingCommand(name))
    ensures entry.Null? || entry.Bool? || entry.Int? ==> r == Failure(RuntimeTypeError)
  {
    match entry
    case Object(members) =>
      if !HasKey(members, "command") then Failure(MissingCommand(name))
      else
        Success(ServerConfig(
          GetOr(members, "command", Null),
          GetOr(members, "args", Array([])),
          GetOr(members, "env", Object([]))))
    case Str(s) =>
      if IsSubstring("command", s) then Failure(RuntimeTypeError) else Failure(MissingCommand(name))
    case Array(items) =>
      if Str("command") in items then Failure(RuntimeTypeError) else Failure(MissingCommand(name))
    case _ =>
      Failure(RuntimeTypeError)
  }

  /** `raw.get("mcpServers")` passes the check exactly when it is a non-empty dict. */
  predicate ServersValid(raw: seq<(string, Value)>)
  {
    var s := GetOr(raw, "mcpServers", Null);
    s.Object? && s.members != []
  }

  /** `servers` holds, in order, the copy of every entry in `entries`. */
  predicate CopiesOf(servers: seq<(string, ServerConfig)>, entries: seq<(string, Value)>)
  {
    && |servers| == |entries|
    && forall j :: 0 <= j < |entries| ==>
         servers[j].0 == entries[j].0 && EntryConfig(entries[j].0, entries[j].1) == Success(servers[j].1)
  }

  /** Copies carry the entries' names, in the same order, and exist only when every entry is valid. */
  lemma CopiesKeepKeys(servers: seq<(string, ServerConfig)>, entries: seq<(string, Value)>)
    requires CopiesOf(servers, entries)
    ensures Keys(servers) == Keys(entries)
    ensures forall j :: 0 <= j < |entries| ==> EntryConfig(entries[j].0, entries[j].1).Success?
  {
  }

  /** Copying one more valid entry extends the copies by it. */
  lemma CopiesExtend(servers: seq<(string, ServerConfig)>, entries: seq<(string, Value)>, i: nat, copy: ServerConfig)
    requires i < |entries| && CopiesOf(servers, entries[..i])
    requires EntryConfig(entries[i].0, entries[i].1) == Success(copy)
    ensures CopiesOf(servers + [(entries[i].0, copy)], entries[..i + 1])
  {
    assert entries[..i + 1][..i] == entries[..i];
  }

  /** Entry `i` is the first one the loop rejects. */
  predicate FirstFailure(entries: seq<(string, Value)>, i: int)
  {
    && 0 <= i < |entries|
    && EntryConfig(entries[i].0, entries[i].1).Failure?
    && forall j :: 0 <= j < i ==> EntryConfig(entries[j].0, entries[j].1).Success?
  }

  /**
   * `load_config` after the file has been read and parsed: check
   * `mcpServers`, copy the entries in order until the first bad one, then
   * apply the top-level defaults.
   */
  method ValidateConfig(raw: Value) returns (r: Result<SmartMcpConfig, ConfigError>)
    ensures !raw.Object? ==> r == Failure(RuntimeTypeError)
    ensures raw.Object? && !ServersValid(raw.members) ==> r == Failure(InvalidServers)
    ensures raw.Object? && ServersValid(raw.members) ==>
              var entries := GetOr(raw.members, "mcpServers", Null).members;
              && (r.Success? <==> forall j :: 0 <= j < |entries| ==> EntryConfig(entries[j].0, entries[j].1).Success?)
              && (r.Failure? ==> exists i :: FirstFailure(entries, i) && EntryConfig(entries[i].0, entries[i].1) == Failure(r.error))
              && (r.Success? ==>
                    && CopiesOf(r.value.servers, entries)
                    && Keys(r.value.servers) == Keys(entries)
                    && r.value.topK == GetOr(raw.members, "top_k", DefaultTopK)
                    && r.value.embeddingModel == GetOr(raw.members, "embedding_model", DefaultEmbeddingModel))
  {
    if !raw.Object? {
      return Failure(RuntimeTypeError);
    }
    var rawServers := GetOr(raw.members, "mcpServers", Null);
    if !Truthy(rawServers) || !rawServers.Object? {
      return Failure(InvalidServers);
    }
    var entries := rawServers.members;
    var servers: seq<(string, ServerConfig)> := [];
    var i := 0;
    while i < |entries|
      invariant 0 <= i <= |entries|
      invariant CopiesOf(servers, entries[..i])
    {
      var (name, entry) := entries[i];
      var copied := EntryConfig(name, entry);
      if copied.Failure? {
        assert FirstFailure(entries, i);
        return Failure(copied.error);
      }
      CopiesExtend(servers, entries, i, copied.value);
      servers := servers + [(name, copied.value)];
      i := i + 1;
    }
    assert entries[..i] == entries;
    CopiesKeepKeys(servers, entries);
    r := Success(SmartMcpConfig(
      servers,
      GetOr(raw.members, "top_k", DefaultTopK),
      GetOr(raw.members, "embedding_model", DefaultEmbeddingModel)));
  }

  /**
   * `load_config(path)`. The file system is given as the parsed contents of
   * each existing file; a path that does not exist is reported before
   * anything is read.
   */
  method LoadConfig(files: map<string, Value>, path: string) returns (r: Result<SmartMcpConfig, ConfigError>)
    ensures path !in files <==> r == Failure(FileNotFound(path))
    ensures path in files && !files[path].Object? ==> r == Failure(RuntimeTypeError)
    ensures path in files && files[path].Object? && !ServersValid(files[path].members) ==> r == Failure(InvalidServers)
    ensures path in files && files[path].Object? && ServersValid(files[path].members) ==>
              var raw := files[path].members;
              var entries := GetOr(raw, "mcpServers", Null).members;
              && (r.Success? <==> forall j :: 0 <= j < |entries| ==> EntryConfig(entries[j].0, entries[j].1).Success?)
              && (r.Failure? ==> exists i :: FirstFailure(entries, i) && EntryConfig(entries[i].0, entries[i].1) == Failure(r.error))
              && (r.Success? ==>
                    && |r.value.servers| > 0
                    && CopiesOf(r.value.servers, entries)
                    && Keys(r.value.servers) == Keys(entries)
                    && r.value.topK == GetOr(raw, "top_k", DefaultTopK)
                    && r.value.embeddingModel == GetOr(raw, "embedding_model", DefaultEmbeddingModel))
  {
    if path !in files {
      return Failure(FileNotFound(path));
    }
    r := ValidateConfig(files[path]);
  }

  /** A configuration without `top_k` and `embedding_model` gets 5 and "all-MiniLM-L6-v2". */
  lemma TopLevelDefaults(raw: seq<(string, Value)>)
    requires !HasKey(raw, "top_k") && !HasKey(raw, "embedding_model")
    ensures GetOr(raw, "top_k", DefaultTopK) == Int(5)
    ensures GetOr(raw, "embedding_model", DefaultEmbeddingModel) == Str("all-MiniLM-L6-v2")
  {
  }
}
