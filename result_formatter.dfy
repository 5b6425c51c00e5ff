/** Rendering of results for the chat: connection and status messages, a
    depth-bounded JSON pretty-printer, tool lists, parameter-validation
    errors and schema descriptions. */
module ResultFormatter {
  import opened Text
  import opened Options
  import opened Values

  const CheckMark := "\U{2705}"
  const CrossMark := "\U{274C}"
  /** The opening of a successful tool call's reply, up to its code block. */
  const ToolCallHeader := CheckMark + " Tool call successful:\n\n```\n"
  const Clipboard := "\U{1F4CB}"
  const Antenna := "\U{1F4E1}"
  const Memo := "\U{1F4DD}"
  const QuestionMark := "\U{2753}"

  const NotConnectedMessage :=
    CrossMark + " Not connected to the Hugging Face Hub API server.\n\nUse `connect` to connect to the API server."
  const NoToolsMessage :=
    "No tools available. Make sure you're connected to the Hugging Face Hub API server."
  const ToolListFooter :=
    "Use `call [tool_name] {\"arg\": \"value\"}` to call a tool.\nOr use the shorthand syntax: `shorthand [tool_name] arg=\"value\"`"

  /** `d.get(key, False)` is truthy. */
  predicate Flag(d: Dict, key: string) {
    Truthy(Get(d, key).GetOr(JBool(false)))
  }

  /** `str(d.get(key, default))`. */
  function Shown(d: Dict, key: string, default: string): string {
    PyStr(Get(d, key).GetOr(JStr(default)))
  }

  /** `" " * n` where Python repeats a string a non-positive number of
      times as the empty string. */
  function Indentation(indentSize: int, depth: int): string {
    if indentSize > 0 && depth > 0 then Spaces(indentSize * depth) else ""
  }

  const StatusHead := Antenna + " Status: "
  const UsingToken := "\nAuthentication: Using token"
  const NoToken := "\nAuthentication: None"

  function ToolCountNote(count: Json): string {
    "\n\nFound " + PyStr(count) + " available tools. Use `list` to see them."
  }

  /** A failure message: a cross mark, never a check mark, in front. */
  function Failure(message: string): (r: string)
    ensures IsPrefix(CrossMark + " ", r) && !IsPrefix(CheckMark + " ", r)
  {
    PrefixOfConcat(CrossMark + " ", message);
    assert (CrossMark + " " + message)[0] == '\U{274C}';
    CrossMark + " " + message
  }

  lemma StatusTail(first: string, mid: string, token: bool)
    ensures var s := first + mid + (if token then UsingToken else NoToken);
      IsPrefix(first, s) && (IsSuffix(UsingToken, s) <==> token)
  {
    var tail := if token then UsingToken else NoToken;
    var s := first + mid + tail;
    assert s == first + (mid + tail);
    PrefixOfConcat(first, mid + tail);
    SuffixOfConcat(first + mid, tail);
    if !token {
      assert s[|s| - 1] == 'e';
      assert UsingToken[|UsingToken| - 1] == 'n';
    }
  }

  /** `open + body + close`. */
  function Bracketed(open: string, body: string, close: string): (r: string)
    ensures r == open + body + close
    ensures IsPrefix(open, r) && IsSuffix(close, r)
  {
    PrefixOfConcat(open, body + close);
    SuffixOfConcat(open + body, close);
    open + body + close
  }

  /** `ResultFormatter(max_json_depth, indent_size)`; both settings are
      fixed at construction. */
  datatype Formatter = Formatter(maxJsonDepth: int, indentSize: int)
  {
    /** `format_connect_result`. */
    function FormatConnectResult(result: Dict): (r: string)
      ensures IsPrefix(CheckMark + " ", r) <==> Flag(result, "success")
      ensures !Flag(result, "success") ==> IsPrefix(CrossMark + " ", r)
      ensures Flag(result, "success") && HasKey(result, "tool_count") ==>
        IsSuffix(ToolCountNote(Get(result, "tool_count").value), r)
    {
      if Flag(result, "success") then
        var message := CheckMark + " " + Shown(result, "message", "Connected successfully");
        PrefixOfConcat(CheckMark + " ", Shown(result, "message", "Connected successfully"));
        if HasKey(result, "tool_count") then
          var note := ToolCountNote(Get(result, "tool_count").value);
          PrefixOfConcat(message, note);
          SuffixOfConcat(message, note);
          message + note
        else message
      else
        Failure(Shown(result, "message", "Connection failed"))
    }

    /** `format_disconnect_result`. */
    function FormatDisconnectResult(result: Dict): (r: string)
      ensures IsPrefix(CheckMark + " ", r) <==> Flag(result, "success")
      ensures !Flag(result, "success") ==> IsPrefix(CrossMark + " ", r)
    {
      if Flag(result, "success") then
        PrefixOfConcat(CheckMark + " ", Shown(result, "message", "Disconnected successfully"));
        CheckMark + " " + Shown(result, "message", "Disconnected successfully")
      else Failure(Shown(result, "message", "Disconnection failed"))
    }

    /** `format_status`. */
    function FormatStatus(status: Dict): (r: string)
      ensures !Flag(status, "connected") ==> r == StatusHead + Shown(status, "message", "Not connected")
      ensures Flag(status, "connected") ==> IsPrefix(StatusHead + "Connected to " + Shown(status, "url", "unknown"), r)
      ensures Flag(status, "connected") ==> (IsSuffix(UsingToken, r) <==> Flag(status, "has_token"))
    {
      var head := StatusHead;
      if !Flag(status, "connected") then
        head + Shown(status, "message", "Not connected")
      else
        var url := Shown(status, "url", "unknown");
        var first := head + "Connected to " + url;
        var mid := if HasKey(status, "tool_count") then "\nAvailable tools: " + PyStr(Get(status, "tool_count").value) else "";
        StatusTail(first, mid, Flag(status, "has_token"));
        first + mid + (if Flag(status, "has_token") then UsingToken else NoToken)
    }

    /** `format_error`. */
    function FormatError(message: string): (r: string)
      ensures IsPrefix(CrossMark + " Error: ", r) && IsSuffix(message, r)
    {
      PrefixOfConcat(CrossMark + " Error: ", message);
      SuffixOfConcat(CrossMark + " Error: ", message);
      CrossMark + " Error: " + message
    }

    /** `format_unknown_command`: the command is quoted back in full. */
    function FormatUnknownCommand(command: string): (r: string)
      ensures IsPrefix(QuestionMark + " Unknown command: `" + command + "`", r)
    {
      var head := QuestionMark + " Unknown command: `" + command + "`";
      PrefixOfConcat(head, "\n\nUse `help` to see available commands.");
      head + "\n\nUse `help` to see available commands."
    }

    /** `format_json(data, depth)`: containers below the depth bound are
        laid out one entry per line, in order, children indented one step
        deeper than their closing bracket; non-empty containers at or past
        the bound are elided. */
    function FormatJson(data: Json, depth: int): (r: string)
      ensures depth >= maxJsonDepth && data.JObj? && data.entries != [] ==> r == "{...}"
      ensures depth >= maxJsonDepth && data.JArr? && data.items != [] ==> r == "[...]"
      ensures data == JObj([]) ==> r == "{}"
      ensures data == JArr([]) ==> r == "[]"
      ensures data.JStr? ==> r == "\"" + data.s + "\""
      ensures data == JNull ==> r == "null"
      ensures data.JBool? ==> r == if data.b then "True" else "False"
      ensures data.JObj? && data.entries != [] && depth < maxJsonDepth ==>
        IsPrefix("{\n", r) && IsSuffix("\n" + Indentation(indentSize, depth) + "}", r)
      ensures data.JArr? && data.items != [] && depth < maxJsonDepth ==>
        IsPrefix("[\n", r) && IsSuffix("\n" + Indentation(indentSize, depth) + "]", r)
      decreases data
    {
      if depth >= maxJsonDepth && data.JObj? && data.entries != [] then "{...}"
      else if depth >= maxJsonDepth && data.JArr? && data.items != [] then "[...]"
      else match data
        case JObj(d) =>
          if d == [] then "{}"
          else
            var body := Join(",\n", seq(|d|, i requires 0 <= i < |d| =>
              Indentation(indentSize, depth + 1) + "\"" + d[i].0 + "\": " + FormatJson(d[i].1, depth + 1)));
            Bracketed("{\n", body, "\n" + Indentation(indentSize, depth) + "}")
        case JArr(items) =>
          if items == [] then "[]"
          else
            var body := Join(",\n", seq(|items|, i requires 0 <= i < |items| =>
              Indentation(indentSize, depth + 1) + FormatJson(items[i], depth + 1)));
            Bracketed("[\n", body, "\n" + Indentation(indentSize, depth) + "]")
        case JStr(s) => "\"" + s + "\""
        case JNull => "null"
        case _ => PyStr(data)
    }

    /** `format_tool_call_result`: the failure message after a cross mark,
        or the result inside a code block: a dict or list as `format_json`
        renders it, a missing or `None` result as a fixed line, anything
        else as `str` shows it. */
    function FormatToolCallResult(result: Dict): (r: string)
      ensures !Flag(result, "success") ==> IsPrefix(CrossMark + " ", r)
      ensures Flag(result, "success") ==> IsPrefix(ToolCallHeader, r)
      ensures !Flag(result, "success") ==> r == CrossMark + " " + Shown(result, "message", "Tool call failed")
      ensures var v := Get(result, "result");
        Flag(result, "success") && v.Some? && (v.value.JObj? || v.value.JArr?) ==>
          r == ToolCallHeader + FormatJson(v.value, 0) + "\n```"
      ensures Flag(result, "success") && Get(result, "result").GetOr(JNull) == JNull ==>
        r == ToolCallHeader + "No result returned\n```"
      ensures var v := Get(result, "result");
        Flag(result, "success") && v.Some? && !(v.value.JObj? || v.value.JArr? || v.value.JNull?) ==>
          r == ToolCallHeader + PyStr(v.value) + "\n```"
    {
      if !Flag(result, "success") then CrossMark + " " + Shown(result, "message", "Tool call failed")
      else
        var toolResult := Get(result, "result").GetOr(JNull);
        var shown :=
          if toolResult.JObj? || toolResult.JArr? then FormatJson(toolResult, 0)
          else if toolResult == JNull then "No result returned"
          else PyStr(toolResult);
        ToolCallHeader + shown + "\n```"
    }
  }

  /** `ResultFormatter()`. */
  const DefaultFormatter := Formatter(3, 2)

  /** `a` and `b` agree for `levels` more levels of nesting; below that
      only whether a container is empty is compared. */
  predicate SameUpTo(a: Json, b: Json, levels: nat)
    decreases a
  {
    match (a, b)
    case (JObj(da), JObj(db)) =>
      if levels == 0 then (da == [] <==> db == [])
      else |da| == |db| && forall i :: 0 <= i < |da| ==> da[i].0 == db[i].0 && SameUpTo(da[i].1, db[i].1, levels - 1)
    case (JArr(xa), JArr(xb)) =>
      if levels == 0 then (xa == [] <==> xb == [])
      else |xa| == |xb| && forall i :: 0 <= i < |xa| ==> SameUpTo(xa[i], xb[i], levels - 1)
    case _ => a == b
  }

  /** The printer never looks deeper than the depth bound: two values that
      agree down to it print the same. */
  lemma {:induction false} FormatJsonBounded(f: Formatter, a: Json, b: Json, depth: int, levels: nat)
    requires depth + levels >= f.maxJsonDepth
    requires SameUpTo(a, b, levels)
    ensures f.FormatJson(a, depth) == f.FormatJson(b, depth)
    decreases a
  {
    match (a, b)
    case (JObj(da), JObj(db)) =>
      if depth < f.maxJsonDepth && da != [] {
        forall i | 0 <= i < |da|
          ensures f.FormatJson(da[i].1, depth + 1) == f.FormatJson(db[i].1, depth + 1)
        {
          FormatJsonBounded(f, da[i].1, db[i].1, depth + 1, levels - 1);
        }
        var pa := seq(|da|, i requires 0 <= i < |da| =>
          Indentation(f.indentSize, depth + 1) + "\"" + da[i].0 + "\": " + f.FormatJson(da[i].1, depth + 1));
        var pb := seq(|db|, i requires 0 <= i < |db| =>
          Indentation(f.indentSize, depth + 1) + "\"" + db[i].0 + "\": " + f.FormatJson(db[i].1, depth + 1));
        assert pa == pb;
      }
    case (JArr(xa), JArr(xb)) =>
      if depth < f.maxJsonDepth && xa != [] {
        forall i | 0 <= i < |xa|
          ensures f.FormatJson(xa[i], depth + 1) == f.FormatJson(xb[i], depth + 1)
        {
          FormatJsonBounded(f, xa[i], xb[i], depth + 1, levels - 1);
        }
        var pa := seq(|xa|, i requires 0 <= i < |xa| => Indentation(f.indentSize, depth + 1) + f.FormatJson(xa[i], depth + 1));
        var pb := seq(|xb|, i requires 0 <= i < |xb| => Indentation(f.indentSize, depth + 1) + f.FormatJson(xb[i], depth + 1));
        assert pa == pb;
      }
    case _ =>
  }

  /** Example: with a depth bound of 1, a nested dict is elided one level
      down and its key is indented by `indent_size` spaces. */
  lemma FormatJsonExample()
    ensures Formatter(1, 2).FormatJson(JObj([("a", JObj([("b", JInt(1))]))]), 0) == "{\n  \"a\": {...}\n}"
  {
    var f := Formatter(1, 2);
    var inner := JObj([("b", JInt(1))]);
    var d := [("a", inner)];
    var parts := seq(|d|, i requires 0 <= i < |d| =>
      Indentation(f.indentSize, 0 + 1) + "\"" + d[i].0 + "\": " + f.FormatJson(d[i].1, 0 + 1));
    var line := "  \"a\": {...}";
    assert parts == [line] by {
      assert f.FormatJson(inner, 1) == "{...}";
      assert Indentation(2, 1) == "  " by { assert Spaces(2) == "  "; }
      assert parts[0] == line;
    }
    assert Join(",\n", parts) == line;
    assert f.FormatJson(JObj(d), 0) == Bracketed("{\n", line, "\n" + Indentation(2, 0) + "}");
    assert Indentation(2, 0) == "";
  }

  // -------------------------------------------------------------- tool list

  /** `tool.<key>` of an object or `tool["<key>"]` of a dict, shown with
      `str`, or `default`. */
  function ToolText(tool: ListedTool, key: string, default: string): string {
    match tool
    case ToolObject(attributes) => if HasKey(attributes, key) then PyStr(Get(attributes, key).value) else default
    case ToolValue(value) => if value.JObj? && HasKey(value.entries, key) then PyStr(Get(value.entries, key).value) else default
  }

  /** The schema shown for a listed tool: the first of the attributes
      `schema`, `parameters`, `parameter_schema` and `inputSchema` of an
      object, the `schema` entry of a dict, `None` otherwise. */
  function ListedSchema(tool: ListedTool): Json {
    match tool
    case ToolObject(a) =>
      if HasKey(a, "schema") then Get(a, "schema").value
      else if HasKey(a, "parameters") then Get(a, "parameters").value
      else if HasKey(a, "parameter_schema") then Get(a, "parameter_schema").value
      else if HasKey(a, "inputSchema") then Get(a, "inputSchema").value
      else JNull
    case ToolValue(value) =>
      if value.JObj? && HasKey(value.entries, "schema") then Get(value.entries, "schema").value else JNull
  }

  /** One argument line of a tool listing; a `*` right after the quoted
      name marks exactly the required arguments. */
  function ArgumentLine(name: string, info: Json, required: Json): (r: Outcome<string>)
    ensures r.Returned? ==> IsPrefix("- `" + name + "`", r.value) && |r.value| > |name| + 4
    ensures r.Returned? ==> (r.value[|name| + 4] == '*' <==> In(JStr(name), required) == Returned(true))
    ensures r.Raised? <==> In(JStr(name), required).Raised?
  {
    var isRequired :- In(JStr(name), required);
    var propType := if info.JObj? then Get(info.entries, "type").GetOr(JStr("any")) else JStr("any");
    var propDesc := if info.JObj? then Get(info.entries, "description").GetOr(JStr("")) else JStr("");
    var head := "- `" + name + "`";
    var rest := (if isRequired then "*" else "") + ": " + PyStr(propType)
      + (if Truthy(propDesc) then " - " + PyStr(propDesc) else "") + "\n";
    PrefixOfConcat(head, rest);
    assert (head + rest)[|head|] == rest[0];
    Returned(head + rest)
  }

  /** The argument lines appended to `acc`, in property order. */
  function ArgumentLinesFrom(acc: string, props: Dict, required: Json): Outcome<string>
    decreases |props|
  {
    if props == [] then Returned(acc)
    else
      var line :- ArgumentLine(props[0].0, props[0].1, required);
      ArgumentLinesFrom(acc + line, props[1..], required)
  }

  /** The name and description lines of a tool's entry. */
  function ToolHeading(tool: ListedTool): string {
    "**" + ToolText(tool, "name", "Unknown") + "**\n"
      + ToolText(tool, "description", "No description available") + "\n\n"
  }

  /** The entry of one tool appended to `acc`: name, description and, for a
      non-empty dict schema with properties, its argument lines. */
  function ToolEntryFrom(acc: string, tool: ListedTool): Outcome<string> {
    SchemaArgumentsFrom(acc + ToolHeading(tool), ListedSchema(tool))
  }

  /** The argument section of a tool's entry appended to `acc`. */
  function SchemaArgumentsFrom(acc: string, schema: Json): Outcome<string> {
    if !Truthy(schema) || !schema.JObj? then Returned(acc)
    else
      var properties := Get(schema.entries, "properties").GetOr(JObj([]));
      var required := Get(schema.entries, "required").GetOr(JArr([]));
      if !Truthy(properties) then Returned(acc)
      else if !properties.JObj? then Raised(NoAttribute(properties, "items"))
      else
        var lines :- ArgumentLinesFrom(acc + "Arguments:\n", properties.entries, required);
        Returned(lines + "\n")
  }

  /** The entries of `tools` appended to `acc`, in list order. */
  function ToolEntriesFrom(acc: string, tools: seq<ListedTool>): Outcome<string>
    decreases |tools|
  {
    if tools == [] then Returned(acc)
    else
      var acc :- ToolEntryFrom(acc, tools[0]);
      ToolEntriesFrom(acc, tools[1..])
  }

  function ToolListHeader(count: nat): string {
    Clipboard + " Available Tools (" + NatToString(count) + "):\n\n"
  }

  /** `format_tool_list`, as a value. */
  function ToolListText(tools: seq<ListedTool>): (r: Outcome<string>)
    ensures tools == [] ==> r == Returned(NoToolsMessage)
  {
    if tools == [] then Returned(NoToolsMessage)
    else
      var body :- ToolEntriesFrom(ToolListHeader(|tools|), tools);
      Returned(body + ToolListFooter)
  }

  /** `format_tool_list`. */
  method FormatToolList(tools: seq<ListedTool>) returns (r: Outcome<string>)
    ensures r == ToolListText(tools)
  {
    if tools == [] {
      return Returned(NoToolsMessage);
    }
    var result := ToolListHeader(|tools|);
    var i := 0;
    while i < |tools|
      invariant 0 <= i <= |tools|
      invariant ToolEntriesFrom(result, tools[i..]) == ToolEntriesFrom(ToolListHeader(|tools|), tools)
    {
      assert tools[i..][1..] == tools[i + 1..];
      var entry := AppendToolEntry(result, tools[i]);
      if entry.Raised? {
        return entry;
      }
      result := entry.value;
      i := i + 1;
    }
    assert tools[i..] == [];
    result := result + ToolListFooter;
    return Returned(result);
  }

  /** One pass of the tool loop of `format_tool_list`. */
  method AppendToolEntry(acc: string, tool: ListedTool) returns (r: Outcome<string>)
    ensures r == ToolEntryFrom(acc, tool)
  {
    var result := acc + ToolHeading(tool);
    var schema := ListedSchema(tool);
    if Truthy(schema) && schema.JObj? {
      var properties := Get(schema.entries, "properties").GetOr(JObj([]));
      var required := Get(schema.entries, "required").GetOr(JArr([]));
      if Truthy(properties) {
        if !properties.JObj? {
          return Raised(NoAttribute(properties, "items"));
        }
        var lines := AppendArgumentLines(result + "Arguments:\n", properties.entries, required);
        if lines.Raised? {
          return lines;
        }
        result := lines.value + "\n";
      }
    }
    return Returned(result);
  }

  /** The argument-line loop of `format_tool_list`. */
  method AppendArgumentLines(acc: string, props: Dict, required: Json) returns (r: Outcome<string>)
    ensures r == ArgumentLinesFrom(acc, props, required)
  {
    var result := acc;
    var i := 0;
    while i < |props|
      invariant 0 <= i <= |props|
      invariant ArgumentLinesFrom(result, props[i..], required) == ArgumentLinesFrom(acc, props, required)
    {
      assert props[i..][1..] == props[i + 1..];
      var (propName, propInfo) := props[i];
      var isRequired :- In(JStr(propName), required);
      var propType := if propInfo.JObj? then Get(propInfo.entries, "type").GetOr(JStr("any")) else JStr("any");
      var propDesc := if propInfo.JObj? then Get(propInfo.entries, "description").GetOr(JStr("")) else JStr("");
      var line := "- `" + propName + "`" + ((if isRequired then "*" else "") + ": " + PyStr(propType)
        + (if Truthy(propDesc) then " - " + PyStr(propDesc) else "") + "\n");
      result := result + line;
      i := i + 1;
    }
    assert props[i..] == [];
    return Returned(result);
  }

  /** Accumulating argument lines only ever extends the text. */
  lemma {:induction false} ArgumentLinesExtend(acc: string, props: Dict, required: Json)
    ensures ArgumentLinesFrom(acc, props, required).Returned? ==> IsPrefix(acc, ArgumentLinesFrom(acc, props, required).value)
    decreases |props|
  {
    if props != [] {
      var line := ArgumentLine(props[0].0, props[0].1, required);
      if line.Returned? {
        PrefixOfConcat(acc, line.value);
        ArgumentLinesExtend(acc + line.value, props[1..], required);
        if ArgumentLinesFrom(acc, props, required).Returned? {
          PrefixTrans(acc, acc + line.value, ArgumentLinesFrom(acc, props, required).value);
        }
      }
    }
  }

  /** A schema whose listing cannot raise: no schema to show, or dict
      `properties` (or none) and a `required` that supports `in`. */
  predicate Listable(schema: Json) {
    !Truthy(schema) || !schema.JObj? ||
    (var properties := Get(schema.entries, "properties").GetOr(JObj([]));
     var required := Get(schema.entries, "required").GetOr(JArr([]));
     (!Truthy(properties) || properties.JObj?) && (required.JArr? || required.JObj? || required.JStr?))
  }

  lemma {:induction false} ArgumentLinesTotal(acc: string, props: Dict, required: Json)
    requires required.JArr? || required.JObj? || required.JStr?
    ensures ArgumentLinesFrom(acc, props, required).Returned?
    decreases |props|
  {
    if props != [] {
      var line := ArgumentLine(props[0].0, props[0].1, required);
      ArgumentLinesTotal(acc + line.value, props[1..], required);
    }
  }

  /** Listing tools whose schemas are listable never raises, and the text
      starts with the header that counts them and ends with the usage
      footer. */
  lemma {:induction false} ToolListTotal(tools: seq<ListedTool>)
    requires forall t :: t in tools ==> Listable(ListedSchema(t))
    requires tools != []
    ensures ToolListText(tools).Returned?
    ensures IsPrefix(ToolListHeader(|tools|), ToolListText(tools).value)
    ensures IsSuffix(ToolListFooter, ToolListText(tools).value)
  {
    ToolEntriesTotal(ToolListHeader(|tools|), tools);
    var body := ToolEntriesFrom(ToolListHeader(|tools|), tools).value;
    PrefixOfConcat(body, ToolListFooter);
    PrefixTrans(ToolListHeader(|tools|), body, body + ToolListFooter);
    SuffixOfConcat(body, ToolListFooter);
  }

  lemma {:induction false} ToolEntriesTotal(acc: string, tools: seq<ListedTool>)
    requires forall t :: t in tools ==> Listable(ListedSchema(t))
    ensures ToolEntriesFrom(acc, tools).Returned?
    ensures IsPrefix(acc, ToolEntriesFrom(acc, tools).value)
    decreases |tools|
  {
    if tools == [] {
      PrefixOfConcat(acc, "");
      assert acc + "" == acc;
    } else {
      assert tools[0] in tools;
      var next := ToolEntryTotal(acc, tools[0]);
      assert forall t :: t in tools[1..] ==> t in tools;
      ToolEntriesTotal(next, tools[1..]);
      PrefixTrans(acc, next, ToolEntriesFrom(acc, tools).value);
    }
  }

  lemma ToolEntryTotal(acc: string, tool: ListedTool) returns (next: string)
    requires Listable(ListedSchema(tool))
    ensures ToolEntryFrom(acc, tool) == Returned(next) && IsPrefix(acc, next)
  {
    var acc1 := acc + ToolHeading(tool);
    PrefixOfConcat(acc, ToolHeading(tool));
    next := SchemaArgumentsTotal(acc1, ListedSchema(tool));
    PrefixTrans(acc, acc1, next);
  }

  lemma SchemaArgumentsTotal(acc: string, schema: Json) returns (next: string)
    requires Listable(schema)
    ensures SchemaArgumentsFrom(acc, schema) == Returned(next) && IsPrefix(acc, next)
  {
    if !Truthy(schema) || !schema.JObj? {
      next := acc;
      PrefixOfConcat(acc, []);
      assert acc + [] == acc;
    } else {
      var properties := Get(schema.entries, "properties").GetOr(JObj([]));
      var required := Get(schema.entries, "required").GetOr(JArr([]));
      if !Truthy(properties) {
        next := acc;
        PrefixOfConcat(acc, []);
        assert acc + [] == acc;
      } else {
        var start := acc + "Arguments:\n";
        ArgumentLinesTotal(start, properties.entries, required);
        var lines := ArgumentLinesFrom(start, properties.entries, required).value;
        next := lines + "\n";
        assert IsPrefix(acc, next) by {
          PrefixOfConcat(acc, "Arguments:\n");
          ArgumentLinesExtend(start, properties.entries, required);
          PrefixOfConcat(lines, "\n");
          PrefixTrans(acc, start, lines);
          PrefixTrans(acc, lines, next);
        }
      }
    }
  }

  // ----------------------------------------------- parameter validation error

  /** The placeholders the validation error's example is made of. */
  predicate IsPlaceholder(v: Json) {
    v == JStr("example_string") || v == JInt(42) || v == JBool(true) || v == JArr([]) || v == JObj([]) || v == JStr("value")
  }

  /** The example value for a parameter of type `propType`. */
  function Placeholder(propType: Json): (v: Json)
    ensures IsPlaceholder(v)
  {
    if propType == JStr("string") then JStr("example_string")
    else if propType == JStr("number") || propType == JStr("integer") then JInt(42)
    else if propType == JStr("boolean") then JBool(true)
    else if propType == JStr("array") then JArr([])
    else if propType == JStr("object") then JObj([])
    else JStr("value")
  }

  /** A required name's info, `properties.get(name, {})`, and its `type`. */
  function InfoAndType(properties: Json, name: Json): Outcome<(Json, Json)> {
    var info :- GetMethod(properties, name, JObj([]));
    var propType :- GetAttrGet(info, "type", JStr("any"));
    Returned((info, propType))
  }

  /** The line listing one required parameter. */
  function RequiredLine(properties: Json, name: Json): Outcome<string> {
    var infoAndType :- InfoAndType(properties, name);
    var propDesc :- GetAttrGet(infoAndType.0, "description", JStr(""));
    Returned("- `" + PyStr(name) + "`: " + PyStr(infoAndType.1)
      + (if Truthy(propDesc) then " - " + PyStr(propDesc) else "") + "\n")
  }

  /** The lines for `names` appended to `acc`. */
  function RequiredLinesFrom(acc: string, names: seq<Json>, properties: Json): Outcome<string>
    decreases |names|
  {
    if names == [] then Returned(acc)
    else
      var line :- RequiredLine(properties, names[0]);
      RequiredLinesFrom(acc + line, names[1..], properties)
  }

  /** The same lines, one per name in order, built independently. */
  function RequiredLines(names: seq<Json>, properties: Json): Outcome<string>
    decreases |names|
  {
    if names == [] then Returned("")
    else
      var line :- RequiredLine(properties, names[0]);
      var rest :- RequiredLines(names[1..], properties);
      Returned(line + rest)
  }

  /** The loop lists every name of `required`, in order, one line each. */
  lemma {:induction false} RequiredLinesInOrder(acc: string, names: seq<Json>, properties: Json)
    ensures RequiredLinesFrom(acc, names, properties) ==
      match RequiredLines(names, properties)
      case Returned(lines) => Returned(acc + lines)
      case Raised(e) => Raised(e)
    decreases |names|
  {
    if names == [] {
      assert acc + "" == acc;
    } else {
      var line := RequiredLine(properties, names[0]);
      if line.Returned? {
        RequiredLinesInOrder(acc + line.value, names[1..], properties);
        var rest := RequiredLines(names[1..], properties);
        if rest.Returned? {
          assert acc + line.value + rest.value == acc + (line.value + rest.value);
        }
      }
    }
  }

  /** The key `json.dumps` writes for `example[name]`: a string as it is,
      a boolean or `None` as its JSON literal, a number as `str` shows it. */
  function ExampleKey(name: Json): string {
    match name
    case JStr(s) => s
    case JBool(b) => if b then "true" else "false"
    case JNull => "null"
    case _ => PyStr(name)
  }

  /** The example dict: each name of `names` mapped to its placeholder. */
  function PlaceholdersFrom(example: Dict, names: seq<Json>, properties: Json): Outcome<Dict>
    decreases |names|
  {
    if names == [] then Returned(example)
    else
      var infoAndType :- InfoAndType(properties, names[0]);
      PlaceholdersFrom(Put(example, ExampleKey(names[0]), Placeholder(infoAndType.1)), names[1..], properties)
  }

  /** A placeholder already in the example stays there. */
  lemma {:induction false} PlaceholdersKeep(example: Dict, names: seq<Json>, properties: Json, k: string)
    requires PlaceholdersFrom(example, names, properties).Returned?
    requires HasKey(example, k) && IsPlaceholder(Get(example, k).value)
    ensures var r := PlaceholdersFrom(example, names, properties).value;
      HasKey(r, k) && IsPlaceholder(Get(r, k).value)
    decreases |names|
  {
    if names != [] {
      var it := InfoAndType(properties, names[0]).value;
      PlaceholdersKeep(Put(example, ExampleKey(names[0]), Placeholder(it.1)), names[1..], properties, k);
    }
  }

  /** The example holds a placeholder for every required name. */
  lemma {:induction false} PlaceholdersCover(example: Dict, names: seq<Json>, properties: Json, n: Json)
    requires PlaceholdersFrom(example, names, properties).Returned?
    requires n in names
    ensures var r := PlaceholdersFrom(example, names, properties).value;
      HasKey(r, ExampleKey(n)) && IsPlaceholder(Get(r, ExampleKey(n)).value)
    decreases |names|
  {
    var it := InfoAndType(properties, names[0]).value;
    var next := Put(example, ExampleKey(names[0]), Placeholder(it.1));
    if n == names[0] {
      PlaceholdersKeep(next, names[1..], properties, ExampleKey(n));
    } else {
      PlaceholdersCover(next, names[1..], properties, n);
    }
  }

  /** Every key the loop adds is a required name with a placeholder. */
  lemma {:induction false} PlaceholdersOnly(example: Dict, names: seq<Json>, properties: Json, k: string)
    requires PlaceholdersFrom(example, names, properties).Returned?
    requires HasKey(PlaceholdersFrom(example, names, properties).value, k) && !HasKey(example, k)
    ensures IsPlaceholder(Get(PlaceholdersFrom(example, names, properties).value, k).value)
    ensures exists n :: n in names && ExampleKey(n) == k
    decreases |names|
  {
    var it := InfoAndType(properties, names[0]).value;
    var next := Put(example, ExampleKey(names[0]), Placeholder(it.1));
    if k == ExampleKey(names[0]) {
      assert names[0] in names;
      PlaceholdersKeep(next, names[1..], properties, k);
    } else {
      PlaceholdersOnly(next, names[1..], properties, k);
      var n :| n in names[1..] && ExampleKey(n) == k;
      assert n in names;
    }
  }

  function ValidationHead(toolName: string, message: string): string {
    CrossMark + " Parameter validation error for tool '" + toolName + "':\n" + message + "\n\n"
  }

  /** `format_parameter_validation_error`, as a value; `dumps` plays
      `json.dumps(..., indent=2)`. The schema section appears only for a
      non-empty dict schema with non-empty `properties`. */
  function ValidationErrorText(toolName: string, message: string, schema: Json, dumps: Json -> string): (r: Outcome<string>)
    ensures !Truthy(schema) || !schema.JObj? || !Truthy(Get(schema.entries, "properties").GetOr(JObj([]))) ==>
      r == Returned(ValidationHead(toolName, message))
  {
    var head := ValidationHead(toolName, message);
    if !Truthy(schema) || !schema.JObj? then Returned(head)
    else
      var properties := Get(schema.entries, "properties").GetOr(JObj([]));
      var required := Get(schema.entries, "required").GetOr(JArr([]));
      if !Truthy(properties) then Returned(head)
      else
        var names :- Iterate(required);
        var lines :- RequiredLinesFrom(head + "Required parameters:\n", names, properties);
        var example :- PlaceholdersFrom([], names, properties);
        Returned(lines + "\nExample usage:\n" + "```\ncall " + toolName + " " + dumps(JObj(example)) + "\n```")
  }

  /** The message for a dict schema with `properties`: the head, one line
      per required name in order, then a `call` line whose example holds a
      placeholder for every required name. A failure on the way (a
      `required` that cannot be iterated, a name that cannot be looked up)
      escapes. */
  lemma ValidationErrorLayout(toolName: string, message: string, schema: Json, dumps: Json -> string)
    requires schema.JObj? && Truthy(schema)
    requires Truthy(Get(schema.entries, "properties").GetOr(JObj([])))
    ensures var properties := Get(schema.entries, "properties").GetOr(JObj([]));
      var names := Iterate(Get(schema.entries, "required").GetOr(JArr([])));
      ValidationErrorText(toolName, message, schema, dumps) ==
        if names.Raised? then Raised(names.error)
        else match RequiredLines(names.value, properties)
          case Raised(e) => Raised(e)
          case Returned(lines) =>
            match PlaceholdersFrom([], names.value, properties)
            case Raised(e) => Raised(e)
            case Returned(example) =>
              Returned(ValidationHead(toolName, message) + "Required parameters:\n" + lines + "\nExample usage:\n"
                + "```\ncall " + toolName + " " + dumps(JObj(example)) + "\n```")
  {
    var names := Iterate(Get(schema.entries, "required").GetOr(JArr([])));
    if names.Returned? {
      RequiredLinesInOrder(ValidationHead(toolName, message) + "Required parameters:\n", names.value,
                           Get(schema.entries, "properties").GetOr(JObj([])));
    }
  }

  /** `format_parameter_validation_error`. */
  method FormatParameterValidationError(toolName: string, message: string, schema: Json, dumps: Json -> string)
    returns (r: Outcome<string>)
    ensures r == ValidationErrorText(toolName, message, schema, dumps)
  {
    var result := ValidationHead(toolName, message);
    if !Truthy(schema) || !schema.JObj? {
      return Returned(result);
    }
    var properties := Get(schema.entries, "properties").GetOr(JObj([]));
    var required := Get(schema.entries, "required").GetOr(JArr([]));
    if !Truthy(properties) {
      return Returned(result);
    }
    var names :- Iterate(required);
    result := result + "Required parameters:\n";
    var i := 0;
    while i < |names|
      invariant 0 <= i <= |names|
      invariant RequiredLinesFrom(result, names[i..], properties)
        == RequiredLinesFrom(ValidationHead(toolName, message) + "Required parameters:\n", names, properties)
    {
      assert names[i..][1..] == names[i + 1..];
      var line :- RequiredLine(properties, names[i]);
      result := result + line;
      i := i + 1;
    }
    assert names[i..] == [];
    result := result + "\nExample usage:\n";
    var example: Dict := [];
    i := 0;
    while i < |names|
      invariant 0 <= i <= |names|
      invariant PlaceholdersFrom(example, names[i..], properties) == PlaceholdersFrom([], names, properties)
    {
      assert names[i..][1..] == names[i + 1..];
      var infoAndType :- InfoAndType(properties, names[i]);
      example := Put(example, ExampleKey(names[i]), Placeholder(infoAndType.1));
      i := i + 1;
    }
    assert names[i..] == [];
    result := result + "```\ncall " + toolName + " " + dumps(JObj(example)) + "\n```";
    return Returned(result);
  }

  // ---------------------------------------------------------- schema result

  /** Python's `<` on strings: code-point lexicographic order. */
  predicate StrLess(a: string, b: string)
    decreases |a|
  {
    if a == [] then b != []
    else if b == [] then false
    else if a[0] != b[0] then a[0] < b[0]
    else StrLess(a[1..], b[1..])
  }

  lemma {:induction false} StrLessIrreflexive(a: string)
    ensures !StrLess(a, a)
    decreases |a|
  {
    if a != [] {
      StrLessIrreflexive(a[1..]);
    }
  }

  lemma {:induction false} StrLessTrans(a: string, b: string, c: string)
    requires StrLess(a, b) && StrLess(b, c)
    ensures StrLess(a, c)
    decreases |a|
  {
    if a != [] && a[0] == b[0] && b[0] == c[0] {
      StrLessTrans(a[1..], b[1..], c[1..]);
    }
  }

  lemma {:induction false} StrLessTotal(a: string, b: string)
    ensures a == b || StrLess(a, b) || StrLess(b, a)
    decreases |a|
  {
    if a != [] && b != [] && a[0] == b[0] {
      StrLessTotal(a[1..], b[1..]);
      if a[1..] == b[1..] {
        assert a == [a[0]] + a[1..] && b == [b[0]] + b[1..];
      }
    }
  }

  /** A property as the parameter listing sorts it. */
  datatype Param = Param(required: bool, name: string, info: Json)

  /** The sort key `(0 if required else 1, name)`, compared as a tuple. */
  predicate ParamLess(p: Param, q: Param) {
    (p.required && !q.required) || (p.required == q.required && StrLess(p.name, q.name))
  }

  lemma ParamLessAsymmetric(p: Param, q: Param)
    requires ParamLess(p, q)
    ensures !ParamLess(q, p)
  {
    if p.required == q.required && StrLess(q.name, p.name) {
      StrLessTrans(p.name, q.name, p.name);
      StrLessIrreflexive(p.name);
    }
  }

  lemma ParamNotLessTrans(a: Param, b: Param, c: Param)
    requires !ParamLess(a, b) && !ParamLess(b, c)
    ensures !ParamLess(a, c)
  {
    if ParamLess(a, c) && a.required == c.required {
      assert b.required == a.required;
      StrLessTotal(a.name, b.name);
      StrLessTotal(b.name, c.name);
      if StrLess(b.name, a.name) && StrLess(c.name, b.name) {
        StrLessTrans(c.name, b.name, a.name);
        StrLessTrans(a.name, c.name, a.name);
        StrLessIrreflexive(a.name);
      } else if StrLess(b.name, a.name) {
        StrLessTrans(b.name, a.name, c.name);
      } else if StrLess(c.name, b.name) {
        StrLessTrans(a.name, c.name, b.name);
      }
    }
  }

  predicate ParamsSorted(s: seq<Param>) {
    forall i, j :: 0 <= i < j < |s| ==> !ParamLess(s[j], s[i])
  }

  /** Inserting before the first entry that does not sort before `p`, so
      that entries with equal keys keep their order. */
  function InsertParam(p: Param, s: seq<Param>): seq<Param> {
    if s == [] then [p]
    else if ParamLess(s[0], p) then [s[0]] + InsertParam(p, s[1..])
    else [p] + s
  }

  /** `sorted(properties.items(), key=...)`: a stable sort. */
  function SortParams(s: seq<Param>): seq<Param> {
    if s == [] then [] else InsertParam(s[0], SortParams(s[1..]))
  }

  lemma {:induction false} InsertParamSorted(p: Param, s: seq<Param>)
    requires ParamsSorted(s)
    ensures ParamsSorted(InsertParam(p, s))
    ensures multiset(InsertParam(p, s)) == multiset(s) + multiset{p}
    decreases |s|
  {
    if s != [] {
      assert s == [s[0]] + s[1..];
      if ParamLess(s[0], p) {
        InsertParamSorted(p, s[1..]);
        InsertAfterHead(p, s);
      } else {
        InsertAtHead(p, s);
      }
    }
  }

  /** Every entry of the sorted tail with `p` inserted sorts no earlier than
      the head that sorts before `p`. */
  lemma InsertAfterHead(p: Param, s: seq<Param>)
    requires s != [] && ParamsSorted(s) && ParamLess(s[0], p)
    requires ParamsSorted(InsertParam(p, s[1..]))
    requires multiset(InsertParam(p, s[1..])) == multiset(s[1..]) + multiset{p}
    ensures ParamsSorted([s[0]] + InsertParam(p, s[1..]))
  {
    var t := InsertParam(p, s[1..]);
    forall k | 0 <= k < |t|
      ensures !ParamLess(t[k], s[0])
    {
      assert t[k] in multiset(t);
      if t[k] == p {
        ParamLessAsymmetric(s[0], p);
      } else {
        assert t[k] in multiset(s[1..]);
        var j :| 0 <= j < |s[1..]| && s[1..][j] == t[k];
        assert s[j + 1] == t[k];
      }
    }
    var r := [s[0]] + t;
    forall i, j | 0 <= i < j < |r|
      ensures !ParamLess(r[j], r[i])
    {
      assert r[j] == t[j - 1];
      if i > 0 {
        assert r[i] == t[i - 1];
      }
    }
  }

  /** `p` sorts no later than the head, so no later than any entry. */
  lemma InsertAtHead(p: Param, s: seq<Param>)
    requires s != [] && ParamsSorted(s) && !ParamLess(s[0], p)
    ensures ParamsSorted([p] + s)
  {
    var r := [p] + s;
    forall i, j | 0 <= i < j < |r|
      ensures !ParamLess(r[j], r[i])
    {
      if i == 0 {
        if j > 1 {
          ParamNotLessTrans(s[j - 1], s[0], p);
        }
      } else {
        assert r[i] == s[i - 1] && r[j] == s[j - 1];
      }
    }
  }

  /** The listing order: a permutation of the properties in which every
      required parameter comes before every optional one, and parameters of
      the same kind are in name order. */
  lemma {:induction false} SortParamsOrders(s: seq<Param>)
    ensures multiset(SortParams(s)) == multiset(s)
    ensures ParamsSorted(SortParams(s))
    ensures forall i, j :: 0 <= i < j < |SortParams(s)| && SortParams(s)[j].required ==> SortParams(s)[i].required
    decreases |s|
  {
    if s != [] {
      SortParamsOrders(s[1..]);
      InsertParamSorted(s[0], SortParams(s[1..]));
      assert s == [s[0]] + s[1..];
    }
  }

  /** `p in required` for each property name `p`, in order. */
  function RequiredFlags(items: seq<Json>, required: Json): (r: Outcome<seq<bool>>)
    ensures r.Returned? ==> |r.value| == |items|
    ensures r.Returned? ==> forall i :: 0 <= i < |items| ==> In(items[i], required) == Returned(r.value[i])
    decreases |items|
  {
    if items == [] then Returned([])
    else
      var first :- In(items[0], required);
      var rest :- RequiredFlags(items[1..], required);
      Returned([first] + rest)
  }

  function CountTrue(flags: seq<bool>): (n: nat)
    ensures n <= |flags|
  {
    if flags == [] then 0 else (if flags[0] then 1 else 0) + CountTrue(flags[1..])
  }

  /** The enum line: every value when there are at most five, otherwise
      only how many there are. */
  function EnumConstraint(values: Json): (r: Outcome<string>)
    ensures Len(values).Raised? ==> r.Raised?
    ensures Len(values).Returned? && Len(values).value > 5 ==>
      r == Returned("Allowed values: " + NatToString(Len(values).value) + " options")
    ensures Len(values).Returned? && Len(values).value <= 5 ==>
      Iterate(values).Returned? && |Iterate(values).value| == Len(values).value
      && r == Returned("Allowed values: " + Join(", ", Backticked(Iterate(values).value)))
  {
    var count :- Len(values);
    var items := Iterate(values).value;
    if count <= 5 then Returned("Allowed values: " + Join(", ", Backticked(items)))
    else Returned("Allowed values: " + NatToString(count) + " options")
  }

  function Backticked(items: seq<Json>): (r: seq<string>)
    ensures |r| == |items|
  {
    seq(|items|, i requires 0 <= i < |items| => "`" + PyStr(items[i]) + "`")
  }

  /** The line for a present `key`, `label: `value``. */
  function Limit(d: Dict, key: string, caption: string): seq<string> {
    if HasKey(d, key) then [caption + ": `" + PyStr(Get(d, key).value) + "`"] else []
  }

  function DefaultConstraint(v: Json): string {
    if v == JNull then "Default: `null`"
    else if v.JStr? then "Default: `\"" + v.s + "\"`"
    else "Default: `" + PyStr(v) + "`"
  }

  /** The constraint lines of one parameter, in the order they are shown. */
  function Constraints(d: Dict, propType: Json): Outcome<seq<string>> {
    var enumLines :-
      if HasKey(d, "enum") then
        (var line :- EnumConstraint(Get(d, "enum").value); Returned([line]))
      else Returned([]);
    var defaultLines := if HasKey(d, "default") then [DefaultConstraint(Get(d, "default").value)] else [];
    var numberLines :=
      if propType == JStr("number") || propType == JStr("integer") then
        Limit(d, "minimum", "Minimum") + Limit(d, "maximum", "Maximum")
      else [];
    var stringLines :=
      if propType == JStr("string") then
        Limit(d, "minLength", "Minimum length") + Limit(d, "maxLength", "Maximum length") + Limit(d, "format", "Format")
        + Limit(d, "pattern", "Pattern")
      else [];
    var arrayLines :=
      if propType == JStr("array") then
        Limit(d, "minItems", "Minimum items") + Limit(d, "maxItems", "Maximum items")
        + (if HasKey(d, "uniqueItems") && Truthy(Get(d, "uniqueItems").value) then ["Items must be unique"] else [])
      else [];
    Returned(enumLines + defaultLines + numberLines + stringLines + arrayLines)
  }

  /** The block describing one parameter; a non-dict info is skipped. */
  function ParamBlock(p: Param): Outcome<string> {
    if !p.info.JObj? then Returned("")
    else
      var d := p.info.entries;
      var propType := Get(d, "type").GetOr(JStr("any"));
      var propDesc := Get(d, "description").GetOr(JStr(""));
      var head := "- **`" + p.name + "`**" + (if p.required then " (required)" else " (optional)")
        + ": `" + PyStr(propType) + "`\n"
        + (if Truthy(propDesc) then "  " + PyStr(propDesc) + "\n" else "");
      var constraints :- Constraints(d, propType);
      Returned(head + (if constraints != [] then "  " + Join("\n  ", constraints) + "\n" else "") + "\n")
  }

  /** The blocks of `params` appended to `acc`, in order. */
  function ParamBlocksFrom(acc: string, params: seq<Param>): Outcome<string>
    decreases |params|
  {
    if params == [] then Returned(acc)
    else
      var block :- ParamBlock(params[0]);
      ParamBlocksFrom(acc + block, params[1..])
  }

  function ParamsOf(d: Dict, flags: seq<bool>): (ps: seq<Param>)
    requires |flags| == |d|
    ensures |ps| == |d|
  {
    seq(|d|, i requires 0 <= i < |d| => Param(flags[i], d[i].0, d[i].1))
  }

  function ParamsHeader(requiredCount: nat, total: nat): string
    requires requiredCount <= total
  {
    "**Parameters** (" + NatToString(requiredCount) + " required, " + NatToString(total - requiredCount) + " optional):\n\n"
  }

  /** The parameter section appended to `acc`. */
  function ParametersFrom(acc: string, properties: Json, required: Json): Outcome<string> {
    if !Truthy(properties) then Returned(acc + "**No parameters defined in schema**\n\n")
    else
      var items :- Iterate(properties);
      var flags :- RequiredFlags(items, required);
      if !properties.JObj? then Raised(NoAttribute(properties, "items"))
      else
        var d := properties.entries;
        ParamBlocksFrom(acc + ParamsHeader(CountTrue(flags), |d|), SortParams(ParamsOf(d, flags)))
  }

  /** The example value for a format of a string parameter. */
  function FormatExample(format: Json): Json {
    if format == JStr("date") then JStr("2023-01-01")
    else if format == JStr("date-time") then JStr("2023-01-01T12:00:00Z")
    else if format == JStr("email") then JStr("user@example.com")
    else if format == JStr("uri") then JStr("https://example.com")
    else JStr("example_" + PyStr(format))
  }

  /** The example value for an array parameter, from its item type. */
  function ArrayExample(d: Dict): Outcome<Json> {
    if !HasKey(d, "items") then Returned(JArr([]))
    else
      var items := Get(d, "items").value;
      var hasType :- In(JStr("type"), items);
      if !hasType then Returned(JArr([]))
      else
        var itemType :- IndexStr(items, "type");
        Returned(
          if itemType == JStr("string") then JArr([JStr("example")])
          else if itemType == JStr("number") then JArr([JFloat("42.0")])
          else if itemType == JStr("integer") then JArr([JInt(42)])
          else if itemType == JStr("boolean") then JArr([JBool(true)])
          else JArr([]))
  }

  /** The example value of a required parameter: its `example`, else its
      `default`, else its first `enum` value, else a placeholder chosen by
      its type (and, for strings, its format). */
  function ExampleValue(name: Json, d: Dict, propType: Json): (r: Outcome<Json>)
    ensures HasKey(d, "example") ==> r == Returned(Get(d, "example").value)
    ensures !HasKey(d, "example") && HasKey(d, "default") ==> r == Returned(Get(d, "default").value)
    ensures !HasKey(d, "example") && !HasKey(d, "default") && HasKey(d, "enum") && Truthy(Get(d, "enum").value) ==>
      r == IndexZero(Get(d, "enum").value)
  {
    if HasKey(d, "example") then Returned(Get(d, "example").value)
    else if HasKey(d, "default") then Returned(Get(d, "default").value)
    else if HasKey(d, "enum") && Truthy(Get(d, "enum").value) then IndexZero(Get(d, "enum").value)
    else if propType == JStr("string") then
      Returned(if HasKey(d, "format") then FormatExample(Get(d, "format").value) else JStr("example_" + PyStr(name)))
    else if propType == JStr("number") then Returned(JFloat("42.0"))
    else if propType == JStr("integer") then Returned(JInt(42))
    else if propType == JStr("boolean") then Returned(JBool(true))
    else if propType == JStr("array") then ArrayExample(d)
    else if propType == JStr("object") then Returned(JObj([]))
    else Returned(JNull)
  }

  /** `prop_info.get("type", "any")`, which needs a dict. */
  function TypedInfo(info: Json): Outcome<(Dict, Json)> {
    match info
    case JObj(d) => Returned((d, Get(d, "type").GetOr(JStr("any"))))
    case _ => Raised(NoAttribute(info, "get"))
  }

  /** The example value of a required name found in `properties`. */
  function NamedExample(name: Json, properties: Json): Outcome<Json> {
    var info :- GetMethod(properties, name, JObj([]));
    var typed :- TypedInfo(info);
    ExampleValue(name, typed.0, typed.1)
  }

  /** The required-parameter pass of the example, from `example`. */
  function RequiredExampleFrom(example: Dict, names: seq<Json>, properties: Json): Outcome<Dict>
    decreases |names|
  {
    if names == [] then Returned(example)
    else
      var present :- In(names[0], properties);
      if !present then RequiredExampleFrom(example, names[1..], properties)
      else
        var value :- NamedExample(names[0], properties);
        RequiredExampleFrom(Put(example, ExampleKey(names[0]), value), names[1..], properties)
  }

  /** The optional-parameter pass: the defaults of at most three optional
      parameters, in property order, counting from `count`. */
  function OptionalExampleFrom(example: Dict, count: nat, props: Dict, required: Json): Outcome<Dict>
    decreases |props|
  {
    if props == [] then Returned(example)
    else
      var isRequired :- In(JStr(props[0].0), required);
      if !isRequired && count < 3 then
        var hasDefault :- In(JStr("default"), props[0].1);
        if hasDefault then
          var value :- IndexStr(props[0].1, "default");
          OptionalExampleFrom(Put(example, props[0].0, value), count + 1, props[1..], required)
        else OptionalExampleFrom(example, count, props[1..], required)
      else OptionalExampleFrom(example, count, props[1..], required)
  }

  /** The example arguments of `format_schema_result`. */
  function SchemaExample(properties: Json, required: Json): Outcome<Dict> {
    var names :- Iterate(required);
    var example :- RequiredExampleFrom([], names, properties);
    if !properties.JObj? then Raised(NoAttribute(properties, "items"))
    else OptionalExampleFrom(example, 0, properties.entries, required)
  }

  const Truncation := "\n... (truncated)"

  /** The raw schema dump, cut to its first 2000 characters when longer. */
  function RawDump(dump: string): (r: string)
    ensures |dump| <= 2000 ==> r == dump
    ensures |dump| > 2000 ==> |r| == 2000 + |Truncation| && r[..2000] == dump[..2000] && IsSuffix(Truncation, r)
  {
    if |dump| > 2000 then
      SuffixOfConcat(dump[..2000], Truncation);
      dump[..2000] + Truncation
    else dump
  }

  function SchemaTitle(toolName: string, d: Dict): string {
    Memo + " Schema for tool '" + toolName + "':\n\n"
    + (if HasKey(d, "title") then "**Title**: " + PyStr(Get(d, "title").value) + "\n\n" else "")
    + (if HasKey(d, "description") then "**Description**: " + PyStr(Get(d, "description").value) + "\n\n" else "")
  }

  function UsageSection(toolName: string, exampleJson: string): string {
    "**Example Usage**:\n\n"
    + "```\n# Natural language command:\nschema " + toolName + "\n\n"
    + "# Structured command:\n!schema " + toolName + "\n\n"
    + "# Tool call example:\ncall " + toolName + " " + exampleJson + "\n```\n\n"
  }

  function NoSchemaMessage(toolName: string): string {
    CrossMark + " No schema available for tool '" + toolName + "'"
  }

  /** `format_schema_result`, as a value; `dumps` plays
      `json.dumps(..., indent=2)`. */
  function SchemaResultText(toolName: string, schema: Json, dumps: Json -> string): (r: Outcome<string>)
    ensures !Truthy(schema) ==> r == Returned(NoSchemaMessage(toolName))
    ensures Truthy(schema) && !schema.JObj? ==>
      r == Returned(CrossMark + " Invalid schema format for tool '" + toolName + "': " + TypeName(schema))
  {
    if !Truthy(schema) then Returned(NoSchemaMessage(toolName))
    else if !schema.JObj? then
      Returned(CrossMark + " Invalid schema format for tool '" + toolName + "': " + TypeName(schema))
    else
      var d := schema.entries;
      var properties := Get(d, "properties").GetOr(JObj([]));
      var required := Get(d, "required").GetOr(JArr([]));
      var listed :- ParametersFrom(SchemaTitle(toolName, d), properties, required);
      var example :- SchemaExample(properties, required);
      Returned(listed + UsageSection(toolName, dumps(JObj(example)))
        + "**Raw Schema**:\n\n" + "```json\n" + RawDump(dumps(schema)) + "\n```")
  }

  /** The parameter blocks loop of `format_schema_result`. */
  method AppendParamBlocks(acc: string, params: seq<Param>) returns (r: Outcome<string>)
    ensures r == ParamBlocksFrom(acc, params)
  {
    var result := acc;
    var i := 0;
    while i < |params|
      invariant 0 <= i <= |params|
      invariant ParamBlocksFrom(result, params[i..]) == ParamBlocksFrom(acc, params)
    {
      assert params[i..][1..] == params[i + 1..];
      var block :- ParamBlock(params[i]);
      result := result + block;
      i := i + 1;
    }
    assert params[i..] == [];
    return Returned(result);
  }

  /** The required-parameter loop of the example. */
  method AddRequiredExamples(names: seq<Json>, properties: Json) returns (r: Outcome<Dict>)
    ensures r == RequiredExampleFrom([], names, properties)
  {
    var example: Dict := [];
    var i := 0;
    while i < |names|
      invariant 0 <= i <= |names|
      invariant RequiredExampleFrom(example, names[i..], properties) == RequiredExampleFrom([], names, properties)
    {
      assert names[i..][1..] == names[i + 1..];
      var present :- In(names[i], properties);
      if present {
        var value :- NamedExample(names[i], properties);
        example := Put(example, ExampleKey(names[i]), value);
      }
      i := i + 1;
    }
    assert names[i..] == [];
    return Returned(example);
  }

  /** The optional-parameter loop of the example. */
  method AddOptionalExamples(start: Dict, props: Dict, required: Json) returns (r: Outcome<Dict>)
    ensures r == OptionalExampleFrom(start, 0, props, required)
  {
    var example := start;
    var count: nat := 0;
    var k := 0;
    while k < |props|
      invariant 0 <= k <= |props|
      invariant OptionalExampleFrom(example, count, props[k..], required) == OptionalExampleFrom(start, 0, props, required)
    {
      assert props[k..][1..] == props[k + 1..];
      var isRequired :- In(JStr(props[k].0), required);
      if !isRequired && count < 3 {
        var hasDefault :- In(JStr("default"), props[k].1);
        if hasDefault {
          var value :- IndexStr(props[k].1, "default");
          example := Put(example, props[k].0, value);
          count := count + 1;
        }
      }
      k := k + 1;
    }
    assert props[k..] == [];
    return Returned(example);
  }

  /** The example arguments, built by the two loops. */
  method BuildExample(properties: Json, required: Json) returns (r: Outcome<Dict>)
    ensures r == SchemaExample(properties, required)
  {
    var names :- Iterate(required);
    var example :- AddRequiredExamples(names, properties);
    if !properties.JObj? {
      return Raised(NoAttribute(properties, "items"));
    }
    r := AddOptionalExamples(example, properties.entries, required);
  }

  /** `format_schema_result`: the message describing a tool's schema. */
  method FormatSchemaResult(toolName: string, schema: Json, dumps: Json -> string) returns (r: Outcome<string>)
    ensures r == SchemaResultText(toolName, schema, dumps)
  {
    if !Truthy(schema) {
      return Returned(NoSchemaMessage(toolName));
    }
    if !schema.JObj? {
      return Returned(CrossMark + " Invalid schema format for tool '" + toolName + "': " + TypeName(schema));
    }
    var d := schema.entries;
    var properties := Get(d, "properties").GetOr(JObj([]));
    var required := Get(d, "required").GetOr(JArr([]));
    var result := SchemaTitle(toolName, d);
    if !Truthy(properties) {
      result := result + "**No parameters defined in schema**\n\n";
    } else {
      var items :- Iterate(properties);
      var flags :- RequiredFlags(items, required);
      if !properties.JObj? {
        return Raised(NoAttribute(properties, "items"));
      }
      var props := properties.entries;
      var header := result + ParamsHeader(CountTrue(flags), |props|);
      result :- AppendParamBlocks(header, SortParams(ParamsOf(props, flags)));
    }
    var example :- BuildExample(properties, required);
    return Returned(result + UsageSection(toolName, dumps(JObj(example)))
      + "**Raw Schema**:\n\n" + "```json\n" + RawDump(dumps(schema)) + "\n```");
  }

  /** The required pass puts, under each required name that `properties`
      holds, that parameter's example value, and touches no other key. */
  lemma {:induction false} RequiredExampleGet(example: Dict, names: seq<Json>, d: Dict, k: string)
    requires RequiredExampleFrom(example, names, JObj(d)).Returned?
    ensures JStr(k) in names && HasKey(d, k) ==>
      NamedExample(JStr(k), JObj(d)).Returned?
      && Get(RequiredExampleFrom(example, names, JObj(d)).value, k) == Some(NamedExample(JStr(k), JObj(d)).value)
    ensures !(JStr(k) in names && HasKey(d, k)) ==>
      Get(RequiredExampleFrom(example, names, JObj(d)).value, k) == Get(example, k)
    decreases |names|
  {
    if names != [] {
      var n := names[0];
      assert names == [n] + names[1..];
      var present := In(n, JObj(d)).value;
      if !present {
        RequiredExampleGet(example, names[1..], d, k);
        if n == JStr(k) {
          InDictOrList(k, JObj(d));
        }
      } else {
        assert n.JStr?;
        var value := NamedExample(n, JObj(d)).value;
        RequiredExampleGet(Put(example, ExampleKey(n), value), names[1..], d, k);
      }
    }
  }

  /** The optional pass never changes the value of a required name, and
      only adds keys that `props` holds. */
  lemma {:induction false} OptionalExampleGet(example: Dict, count: nat, props: Dict, required: Json, k: string)
    requires OptionalExampleFrom(example, count, props, required).Returned?
    ensures In(JStr(k), required) == Returned(true) ==>
      Get(OptionalExampleFrom(example, count, props, required).value, k) == Get(example, k)
    ensures HasKey(OptionalExampleFrom(example, count, props, required).value, k) ==>
      HasKey(example, k) || HasKey(props, k)
    decreases |props|
  {
    if props != [] {
      assert Keys(props) == [props[0].0] + Keys(props[1..]);
      var isRequired := In(JStr(props[0].0), required).value;
      if !isRequired && count < 3 && In(JStr("default"), props[0].1).value {
        var value := IndexStr(props[0].1, "default").value;
        OptionalExampleGet(Put(example, props[0].0, value), count + 1, props[1..], required, k);
      } else {
        OptionalExampleGet(example, count, props[1..], required, k);
      }
    }
  }

  /** The optional pass adds at most three keys. */
  lemma {:induction false} OptionalAtMostThree(example: Dict, count: nat, props: Dict, required: Json)
    requires count <= 3
    requires OptionalExampleFrom(example, count, props, required).Returned?
    ensures |OptionalExampleFrom(example, count, props, required).value| <= |example| + 3 - count
    decreases |props|
  {
    if props != [] {
      var isRequired := In(JStr(props[0].0), required).value;
      if !isRequired && count < 3 && In(JStr("default"), props[0].1).value {
        var value := IndexStr(props[0].1, "default").value;
        assert |Keys(Put(example, props[0].0, value))| <= |Keys(example)| + 1;
        OptionalAtMostThree(Put(example, props[0].0, value), count + 1, props[1..], required);
      } else {
        OptionalAtMostThree(example, count, props[1..], required);
      }
    }
  }

  /** The example of a schema whose `properties` is a dict and whose
      `required` is a list: every required property carries its example
      value, no name outside `properties` appears, and at most three keys
      beyond the required ones are added. */
  lemma SchemaExampleKeys(d: Dict, names: seq<Json>, k: string)
    requires SchemaExample(JObj(d), JArr(names)).Returned?
    ensures JStr(k) in names && HasKey(d, k) ==>
      NamedExample(JStr(k), JObj(d)).Returned?
      && Get(SchemaExample(JObj(d), JArr(names)).value, k) == Some(NamedExample(JStr(k), JObj(d)).value)
    ensures HasKey(SchemaExample(JObj(d), JArr(names)).value, k) ==> HasKey(d, k)
    ensures |SchemaExample(JObj(d), JArr(names)).value| <= |RequiredExampleFrom([], names, JObj(d)).value| + 3
  {
    var first := RequiredExampleFrom([], names, JObj(d)).value;
    RequiredExampleGet([], names, d, k);
    OptionalExampleGet(first, 0, d, JArr(names), k);
    OptionalAtMostThree(first, 0, d, JArr(names));
    InDictOrList(k, JArr(names));
  }

  function CountRequired(ps: seq<Param>): (n: nat)
    ensures n <= |ps|
  {
    if ps == [] then 0 else (if ps[0].required then 1 else 0) + CountRequired(ps[1..])
  }

  lemma {:induction false} InsertParamCount(p: Param, s: seq<Param>)
    ensures CountRequired(InsertParam(p, s)) == CountRequired(s) + (if p.required then 1 else 0)
    decreases |s|
  {
    if s != [] && ParamLess(s[0], p) {
      InsertParamCount(p, s[1..]);
      assert ([s[0]] + InsertParam(p, s[1..]))[1..] == InsertParam(p, s[1..]);
    } else if s != [] {
      assert ([p] + s)[1..] == s;
    }
  }

  lemma {:induction false} SortParamsCount(s: seq<Param>)
    ensures CountRequired(SortParams(s)) == CountRequired(s)
    decreases |s|
  {
    if s != [] {
      SortParamsCount(s[1..]);
      InsertParamCount(s[0], SortParams(s[1..]));
    }
  }

  lemma {:induction false} ParamsOfCount(d: Dict, flags: seq<bool>)
    requires |flags| == |d|
    ensures CountRequired(ParamsOf(d, flags)) == CountTrue(flags)
    decreases |d|
  {
    if d != [] {
      ParamsOfCount(d[1..], flags[1..]);
      assert ParamsOf(d, flags)[1..] == ParamsOf(d[1..], flags[1..]);
    }
  }

  /** In a sorted listing the required parameters are exactly the first
      `CountRequired` entries. */
  lemma {:induction false} SortedRequiredPrefix(s: seq<Param>, i: nat)
    requires ParamsSorted(s) && i < |s|
    ensures s[i].required <==> i < CountRequired(s)
    decreases |s|
  {
    if s[0].required {
      if i > 0 {
        assert ParamsSorted(s[1..]) by {
          forall a, b | 0 <= a < b < |s[1..]|
            ensures !ParamLess(s[1..][b], s[1..][a])
          {
            assert s[1..][a] == s[a + 1] && s[1..][b] == s[b + 1];
          }
        }
        SortedRequiredPrefix(s[1..], i - 1);
      }
    } else {
      NoneRequired(s);
    }
  }

  lemma {:induction false} NoneRequired(s: seq<Param>)
    requires ParamsSorted(s) && s != [] && !s[0].required
    ensures CountRequired(s) == 0 && forall j :: 0 <= j < |s| ==> !s[j].required
    decreases |s|
  {
    forall j | 0 <= j < |s|
      ensures !s[j].required
    {
      if j > 0 {
        assert !ParamLess(s[j], s[0]);
      }
    }
    if |s| > 1 {
      assert ParamsSorted(s[1..]) by {
        forall a, b | 0 <= a < b < |s[1..]|
          ensures !ParamLess(s[1..][b], s[1..][a])
        {
          assert s[1..][a] == s[a + 1] && s[1..][b] == s[b + 1];
        }
      }
      NoneRequired(s[1..]);
    }
  }

  /** The header's "N required" counts exactly the first N parameters of
      the listing, and those are the required ones. */
  lemma ListingMatchesHeader(d: Dict, flags: seq<bool>, i: nat)
    requires |flags| == |d| && i < |d|
    ensures |SortParams(ParamsOf(d, flags))| == |d|
    ensures SortParams(ParamsOf(d, flags))[i].required <==> i < CountTrue(flags)
  {
    var ps := ParamsOf(d, flags);
    SortParamsOrders(ps);
    assert |SortParams(ps)| == |ps| by {
      assert |multiset(SortParams(ps))| == |multiset(ps)|;
    }
    SortParamsCount(ps);
    ParamsOfCount(d, flags);
    SortedRequiredPrefix(SortParams(ps), i);
  }
}
