/**
 * The JSON values the program handles after `json.loads` (and the plain
 * dictionaries MCP hands it), with the few Python operations applied to
 * them: `dict.get`, truthiness and `str()`.
 *
 * An object is its member list in insertion order, which is the order a
 * Python dict iterates in. A dict never repeats a key; lookup takes the
 * first member with the key, which for a dict is the only one.
 * JSON numbers with a fraction are not modelled.
 */
module Json {
  import opened Wrappers
  import Text

  datatype Value =
    | Null
    | Bool(b: bool)
    | Int(n: int)
    | Str(s: string)
    | Array(items: seq<Value>)
    | Object(members: seq<(string, Value)>)

  /** Position of the first member named `key`, or -1 when there is none. */
  function IndexOf(members: seq<(string, Value)>, key: string): (r: int)
    ensures -1 <= r < |members|
    ensures r >= 0 ==> members[r].0 == key && forall j :: 0 <= j < r ==> members[j].0 != key
    ensures r < 0 ==> forall j :: 0 <= j < |members| ==> members[j].0 != key
    decreases |members|
  {
    if |members| == 0 then -1
    else if members[0].0 == key then 0
    else
      var r := IndexOf(members[1..], key);
      if r < 0 then -1 else r + 1
  }

  /** `key in d` for a dict `d`. */
  predicate HasKey(members: seq<(string, Value)>, key: string)
  {
    exists j :: 0 <= j < |members| && members[j].0 == key
  }

  /** `d.get(key)`: the value stored under `key`, if any. */
  function Get(members: seq<(string, Value)>, key: string): (r: Option<Value>)
    ensures r.Some? <==> HasKey(members, key)
    ensures r.Some? ==> (key, r.value) in members
  {
    var i := IndexOf(members, key);
    if i < 0 then None else Some(members[i].1)
  }

  /** `d.get(key, default)`. */
  function GetOr(members: seq<(string, Value)>, key: string, default: Value): (r: Value)
    ensures HasKey(members, key) ==> (key, r) in members
    ensures !HasKey(members, key) ==> r == default
  {
    match Get(members, key)
    case Some(v) => v
    case None => default
  }

  /** The keys of a dict, in iteration order. */
  function Keys<V>(members: seq<(string, V)>): (r: seq<string>)
    ensures |r| == |members|
    ensures forall j :: 0 <= j < |r| ==> r[j] == members[j].0
  {
    seq(|members|, j requires 0 <= j < |members| => members[j].0)
  }

  /** Python truthiness: `None`, `False`, `0`, and empty strings, lists and dicts are false. */
  predicate Truthy(v: Value)
  {
    match v
    case Null => false
    case Bool(b) => b
    case Int(n) => n != 0
    case Str(s) => s != ""
    case Array(items) => items != []
    case Object(members) => members != []
  }

  /** Python `str(v)`, what an f-string inserts for the value. */
  function Render(v: Value): string
  {
    match v
    case Str(s) => s
    case _ => Repr(v)
  }

  /** Python `repr(v)`, how a value is written inside a list or dict. */
  function Repr(v: Value): string
    decreases v, 1
  {
    match v
    case Null => "None"
    case Bool(b) => if b then "True" else "False"
    case Int(n) => Text.IntToString(n)
    case Str(s) => "'" + s + "'"
    case Array(items) => "[" + Text.Join(", ", ReprItems(v, items)) + "]"
    case Object(members) => "{" + Text.Join(", ", ReprMembers(v, members)) + "}"
  }

  function ReprItems(ghost parent: Value, items: seq<Value>): (r: seq<string>)
    requires forall j :: 0 <= j < |items| ==> items[j] < parent
    ensures |r| == |items|
    decreases parent, 0, |items|
  {
    if |items| == 0 then [] else [Repr(items[0])] + ReprItems(parent, items[1..])
  }

  function ReprMembers(ghost parent: Value, members: seq<(string, Value)>): (r: seq<string>)
    requires forall j :: 0 <= j < |members| ==> members[j].1 < parent
    ensures |r| == |members|
    decreases parent, 0, |members|
  {
    if |members| == 0 then []
    else ["'" + members[0].0 + "': " + Repr(members[0].1)] + ReprMembers(parent, members[1..])
  }
}
