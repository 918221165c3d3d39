/**
 * The retrieval text of a tool (`tool_to_text` in smartmcp/embedding.py):
 * the text the embedding index stores for each upstream tool and matches
 * search queries against.
 */
module Embedding {
  import opened Wrappers
  import opened Json
  import opened McpTypes
  import Text

  predicate NoUnderscore(s: string)
  {
    forall i :: 0 <= i < |s| ==> s[i] != '_'
  }

  predicate NoDoubleUnderscore(s: string)
  {
    forall i :: 0 <= i < |s| - 1 ==> !(s[i] == '_' && s[i + 1] == '_')
  }

  /** `s.replace("_", " ")`: every underscore becomes a space, nothing else moves. */
  function UnderscoresToSpaces(s: string): (r: string)
    ensures |r| == |s|
    ensures forall i :: 0 <= i < |s| ==> r[i] == if s[i] == '_' then ' ' else s[i]
    decreases |s|
  {
    if |s| == 0 then ""
    else [if s[0] == '_' then ' ' else s[0]] + UnderscoresToSpaces(s[1..])
  }

  /**
   * `s.replace("__", " ")`: scanning from the left, each pair of underscores
   * becomes one space. A run of k underscores leaves k / 2 spaces and, when k
   * is odd, one underscore, so no two underscores stay adjacent.
   */
  function ReplaceDoubleUnderscores(s: string): (r: string)
    ensures |r| <= |s|
    ensures NoDoubleUnderscore(r)
    ensures |s| > 0 ==> |r| > 0 && (r[0] == '_' ==> s[0] == '_')
    ensures NoUnderscore(s) ==> r == s
    decreases |s|
  {
    if |s| >= 2 && s[0] == '_' && s[1] == '_' then " " + ReplaceDoubleUnderscores(s[2..])
    else if |s| == 0 then ""
    else [s[0]] + ReplaceDoubleUnderscores(s[1..])
  }

  /** The tool name split into words: first `__`, then `_`, replaced by a space. */
  function SegmentName(name: string): (r: string)
    ensures NoUnderscore(r)
    ensures |r| <= |name|
    ensures NoUnderscore(name) ==> r == name
  {
    UnderscoresToSpaces(ReplaceDoubleUnderscores(name))
  }

  /** `n` copies of the character `c`. */
  function Repeat(c: char, n: nat): (r: string)
    ensures |r| == n && forall i :: 0 <= i < n ==> r[i] == c
    decreases n
  {
    if n == 0 then "" else [c] + Repeat(c, n - 1)
  }

  /**
   * A character other than `_` ends any pair: `replace("__", " ")` works on
   * the text before it and the text after it separately.
   */
  lemma {:induction false} ReplaceDoubleSplitsAt(a: string, c: char, b: string)
    requires c != '_'
    ensures ReplaceDoubleUnderscores(a + [c] + b)
         == ReplaceDoubleUnderscores(a) + [c] + ReplaceDoubleUnderscores(b)
    decreases |a|
  {
    var s := a + [c] + b;
    if |a| == 0 {
      assert s == [c] + b;
      assert s[1..] == b;
    } else if |a| >= 2 && a[0] == '_' && a[1] == '_' {
      assert s[2..] == a[2..] + [c] + b;
      ReplaceDoubleSplitsAt(a[2..], c, b);
    } else {
      assert s[1..] == a[1..] + [c] + b;
      ReplaceDoubleSplitsAt(a[1..], c, b);
    }
  }

  /** `replace("_", " ")` works character by character, so it distributes over concatenation. */
  lemma UnderscoresToSpacesConcat(a: string, b: string)
    ensures UnderscoresToSpaces(a + b) == UnderscoresToSpaces(a) + UnderscoresToSpaces(b)
  {
  }

  /** A run of k underscores becomes k / 2 spaces, then one `_` when k is odd. */
  lemma {:induction false} ReplaceDoubleOnRun(k: nat)
    ensures ReplaceDoubleUnderscores(Repeat('_', k))
         == Repeat(' ', k / 2) + (if k % 2 == 1 then "_" else "")
    decreases k
  {
    var s := Repeat('_', k);
    if k >= 2 {
      assert s[2..] == Repeat('_', k - 2);
      ReplaceDoubleOnRun(k - 2);
      assert Repeat(' ', k / 2) == " " + Repeat(' ', (k - 2) / 2);
    } else if k == 1 {
      assert s == "_";
      assert s[1..] == "";
    }
  }

  /**
   * The segmented name is determined piece by piece: a character other than
   * `_` is kept and splits the name in two, and a run of k underscores
   * becomes (k + 1) / 2 spaces. Every name is built from such pieces.
   */
  lemma SegmentNameSplitsAt(a: string, c: char, b: string)
    requires c != '_'
    ensures SegmentName(a + [c] + b) == SegmentName(a) + [c] + SegmentName(b)
  {
    ReplaceDoubleSplitsAt(a, c, b);
    var ra, rb := ReplaceDoubleUnderscores(a), ReplaceDoubleUnderscores(b);
    UnderscoresToSpacesConcat(ra + [c], rb);
    UnderscoresToSpacesConcat(ra, [c]);
  }

  lemma SegmentNameOnRun(k: nat)
    ensures SegmentName(Repeat('_', k)) == Repeat(' ', (k + 1) / 2)
  {
    ReplaceDoubleOnRun(k);
    var spaces := Repeat(' ', k / 2);
    var tail := if k % 2 == 1 then "_" else "";
    UnderscoresToSpacesConcat(spaces, tail);
    assert UnderscoresToSpaces(spaces) == spaces;
  }

  /** The description is a part of its own only when it is present and non-empty. */
  function DescriptionParts(description: Option<string>): (r: seq<string>)
    ensures |r| <= 1
    ensures r == [] <==> description.None? || description.value == ""
    ensures r != [] ==> r[0] == description.value
  {
    match description
    case Some(d) => if d != "" then [d] else []
    case None => []
  }

  /** Whether a property's schema entry supplies a description worth appending. */
  predicate HasPropertyDescription(info: Value)
  {
    info.Object? && Truthy(GetOr(info.members, "description", Null))
  }

  /**
   * The part one schema property contributes: its name with underscores
   * turned into spaces, then `": "` and the rendered description when the
   * entry is a dict with a truthy description.
   */
  function PropertyPart(name: string, info: Value): (r: string)
    ensures |r| >= |name| && r[..|name|] == UnderscoresToSpaces(name)
    ensures HasPropertyDescription(info) <==> |r| > |name|
    ensures HasPropertyDescription(info) ==>
              r[|name|..] == ": " + Render(GetOr(info.members, "description", Null))
  {
    var text := UnderscoresToSpaces(name);
    if HasPropertyDescription(info) then
      text + ": " + Render(GetOr(info.members, "description", Null))
    else text
  }

  /**
   * `tool.inputSchema.get("properties", {})` seen as a dict: the property
   * list, none when the schema has no `properties`, or no value at all when
   * `properties` holds something other than a dict, on which `.items()` raises.
   */
  function SchemaProperties(schema: seq<(string, Value)>): (r: Option<seq<(string, Value)>>)
    ensures !HasKey(schema, "properties") ==> r == Some([])
    ensures r.None? <==> HasKey(schema, "properties") && !GetOr(schema, "properties", Null).Object?
    ensures HasKey(schema, "properties") && r.Some? ==> r.value == GetOr(schema, "properties", Null).members
  {
    match GetOr(schema, "properties", Object([]))
    case Object(members) => Some(members)
    case _ => None
  }

  /** The parts the properties contribute, one per property, in schema order. */
  function PropertyParts(props: seq<(string, Value)>): (r: seq<string>)
    ensures |r| == |props|
  {
    seq(|props|, k requires 0 <= k < |props| => PropertyPart(props[k].0, props[k].1))
  }

  /** All parts of the retrieval text: the segmented name, the description, the properties. */
  function ToolParts(tool: Tool, props: seq<(string, Value)>): seq<string>
  {
    [SegmentName(tool.name)] + DescriptionParts(tool.description) + PropertyParts(props)
  }

  /** Taking one more property adds its part at the end. */
  lemma PropertyPartsExtend(props: seq<(string, Value)>, i: nat)
    requires i < |props|
    ensures PropertyParts(props[..i + 1]) == PropertyParts(props[..i]) + [PropertyPart(props[i].0, props[i].1)]
  {
    assert props[..i + 1][..i] == props[..i];
  }

  /**
   * `tool_to_text(tool)`: builds the parts one by one and joins them with
   * single spaces. No value when the schema's `properties` is not a dict.
   */
  method ToolToText(tool: Tool) returns (text: Option<string>)
    ensures text.None? <==> SchemaProperties(tool.inputSchema).None?
    ensures text.Some? ==>
              text.value == Text.Join(" ", ToolParts(tool, SchemaProperties(tool.inputSchema).value))
  {
    var parts := [SegmentName(tool.name)];
    if tool.description.Some? && tool.description.value != "" {
      parts := parts + [tool.description.value];
    }
    var schemaProps := SchemaProperties(tool.inputSchema);
    if schemaProps.None? {
      return None;
    }
    var props := schemaProps.value;
    ghost var head := parts;
    var i := 0;
    while i < |props|
      invariant 0 <= i <= |props|
      invariant parts == head + PropertyParts(props[..i])
    {
      var (name, info) := props[i];
      var paramText := UnderscoresToSpaces(name);
      if HasPropertyDescription(info) {
        paramText := paramText + ": " + Render(GetOr(info.members, "description", Null));
      }
      PropertyPartsExtend(props, i);
      parts := parts + [paramText];
      i := i + 1;
    }
    assert props[..|props|] == props;
    text := Some(Text.Join(" ", parts));
  }

  /**
   * Layout of the parts: the segmented name first, the description second
   * exactly when it is non-empty, then one part per property in schema order.
   */
  lemma PartsLayout(tool: Tool, props: seq<(string, Value)>)
    ensures var parts := ToolParts(tool, props);
            var d := |DescriptionParts(tool.description)|;
            && |parts| == 1 + d + |props|
            && parts[0] == SegmentName(tool.name)
            && (d == 1 <==> tool.description.Some? && tool.description.value != "")
            && (d == 1 ==> parts[1] == tool.description.value)
            && forall k :: 0 <= k < |props| ==> parts[1 + d + k] == PropertyPart(props[k].0, props[k].1)
  {
  }

  /** The retrieval text begins with the segmented tool name, which has no underscore. */
  lemma TextStartsWithName(tool: Tool, props: seq<(string, Value)>)
    ensures var text := Text.Join(" ", ToolParts(tool, props));
            var name := SegmentName(tool.name);
            |name| <= |text| && text[..|name|] == name && NoUnderscore(name)
  {
    Text.JoinStartsWithFirst(" ", ToolParts(tool, props));
  }

  /** The retrieval text's length: every part plus one space between neighbours. */
  lemma TextLength(tool: Tool, props: seq<(string, Value)>)
    ensures var parts := ToolParts(tool, props);
            |Text.Join(" ", parts)| == Text.TotalLength(parts) + |parts| - 1
  {
    Text.JoinLength(" ", ToolParts(tool, props));
  }
}
