/** The chat handler: recognises a command, checks and completes tool
    arguments against the tool's schema, drives the session manager and
    renders every outcome as text. */
module ChatHandlers {
  import opened Options
  import opened Values
  import opened CommandParser
  import opened SchemaUtils
  import opened ResultFormatter
  import opened Sessions

  /** The answer to any message that is not a command. */
  const NonCommandReply :=
    "I'm an MCP Client Agent that can connect to MCP servers and call tools.\n\n"
    + "Use `help` to see available commands."

  // ---------------------------------------------------- argument completion

  /** `param not in args` fails for none of the required names (a name that
      cannot be looked up raises, which counts as a failure too). */
  predicate AllPresent(required: seq<Json>, args: Dict) {
    forall i :: 0 <= i < |required| ==> In(required[i], JObj(args)) == Returned(true)
  }

  /** The defaults loop: each default whose name `acc` lacks is added. */
  function FillFrom(acc: Dict, defaults: Dict): Dict
    decreases |defaults|
  {
    if defaults == [] then acc
    else
      var next := if HasKey(acc, defaults[0].0) then acc else Put(acc, defaults[0].0, defaults[0].1);
      FillFrom(next, defaults[1..])
  }

  /** Whether the fill step reaches its defaults loop: the schema was
      fetched, has a valid structure, and every required name is given. */
  predicate Fills(args: Dict, schema: Outcome<Json>) {
    schema.Returned? && ValidateSchemaStructure(schema.value)
    && AllPresent(ExtractRequiredParams(schema.value), args)
  }

  /** `_validate_and_fill_parameters`: every failure, the missing-parameter
      error included, is caught and the arguments come back unchanged. */
  function ValidatedArgs(args: Dict, schema: Outcome<Json>): Dict {
    if Fills(args, schema) then FillFrom(args, OptionalDefaults(schema.value)) else args
  }

  /** A given name keeps its value; a missing one takes the first default
      listed for it, if any. */
  lemma {:induction false} FillFromGet(acc: Dict, defaults: Dict, k: string)
    ensures Get(FillFrom(acc, defaults), k) == if HasKey(acc, k) then Get(acc, k) else Get(defaults, k)
    decreases |defaults|
  {
    if defaults != [] {
      var next := if HasKey(acc, defaults[0].0) then acc else Put(acc, defaults[0].0, defaults[0].1);
      FillFromGet(next, defaults[1..], k);
    }
  }

  /** The fill step never overwrites a user argument, and the only names it
      adds are optional parameters with a default that the user left out,
      each mapped to that default. */
  lemma ValidatedArgsGet(args: Dict, schema: Outcome<Json>, k: string)
    ensures Get(ValidatedArgs(args, schema), k) ==
      if HasKey(args, k) then Get(args, k)
      else if Fills(args, schema) then Get(OptionalDefaults(schema.value), k)
      else None
  {
    if Fills(args, schema) {
      FillFromGet(args, OptionalDefaults(schema.value), k);
    }
  }

  /** With a valid schema whose properties have distinct names, what the
      fill step adds under a missing name is exactly that property's
      default, and only when the property is optional and has one. */
  lemma AddedAreOptionalDefaults(args: Dict, schema: Json, k: string)
    requires Fills(args, Returned(schema)) && UniqueKeys(Properties(schema)) && !HasKey(args, k)
    ensures Get(ValidatedArgs(args, Returned(schema)), k) ==
      match Get(Properties(schema), k)
      case Some(info) =>
        if !IsRequired(k, ExtractRequiredParams(schema)) && info.JObj? && HasKey(info.entries, "default") then
          Get(info.entries, "default")
        else None
      case None => None
  {
    ValidatedArgsGet(args, Returned(schema), k);
    OptionalDefaultsGet(schema, k);
  }

  /** A required name that is absent leaves the arguments untouched: the
      error raised for it does not reach the caller. */
  lemma MissingRequiredKeepsArgs(args: Dict, schema: Json, i: nat)
    requires ValidateSchemaStructure(schema) && i < |ExtractRequiredParams(schema)|
    requires In(ExtractRequiredParams(schema)[i], JObj(args)) == Returned(false)
    ensures ValidatedArgs(args, Returned(schema)) == args
  {
    assert !AllPresent(ExtractRequiredParams(schema), args);
  }

  /** `_validate_and_fill_parameters`, given the schema lookup's outcome. */
  method ValidateAndFillParameters(args: Dict, schema: Outcome<Json>) returns (r: Dict)
    ensures r == ValidatedArgs(args, schema)
  {
    if schema.Raised? || !ValidateSchemaStructure(schema.value) {
      return args;
    }
    var required := ExtractRequiredParams(schema.value);
    var optional := ExtractOptionalParamsWithDefaults(schema.value);
    if !AllPresent(required, args) {
      return args;
    }
    r := args;
    for i := 0 to |optional|
      invariant FillFrom(r, optional[i..]) == FillFrom(args, optional)
    {
      assert optional[i..][1..] == optional[i + 1..];
      if !HasKey(r, optional[i].0) {
        r := Put(r, optional[i].0, optional[i].1);
      }
    }
    assert optional[|optional|..] == [];
  }

  // -------------------------------------------------------------- handler

  /** The `token` and `token_env_var` options as the session manager takes
      them. */
  function TextOption(value: Option<Json>): Option<string> {
    match value
    case Some(JStr(s)) => Some(s)
    case _ => None
  }

  /** `command.kwargs.get("args", {})`. */
  function ToolArgs(kwargs: Dict): Dict {
    match Get(kwargs, "args")
    case Some(JObj(d)) => d
    case _ => []
  }

  /** What the chat shows when the client's tool call raises: the
      exception's message after a cross mark. */
  lemma ToolCallErrorText(f: Formatter, tool: string, e: PyError)
    ensures f.FormatToolCallResult(CallResult(tool, Raised(e))) == CrossMark + " " + ("Error calling tool " + tool + ": " + e.message)
  {
    var result := CallResult(tool, Raised(e));
    var message := "Error calling tool " + tool + ": " + e.message;
    assert !Flag(result, "success");
    assert Get(result, "message") == Some(JStr(message));
    assert Shown(result, "message", "Tool call failed") == PyStr(JStr(message)) == message;
  }

  /** What the chat shows when the client's tool call returns `value`:
      the value in a code block, rendered as JSON when it is a dict or a
      list. */
  lemma ToolCallResultText(f: Formatter, tool: string, value: Json)
    ensures value.JObj? || value.JArr? ==>
      f.FormatToolCallResult(CallResult(tool, Returned(value))) == ToolCallHeader + f.FormatJson(value, 0) + "\n```"
    ensures value == JNull ==>
      f.FormatToolCallResult(CallResult(tool, Returned(value))) == ToolCallHeader + "No result returned\n```"
    ensures !(value.JObj? || value.JArr? || value.JNull?) ==>
      f.FormatToolCallResult(CallResult(tool, Returned(value))) == ToolCallHeader + PyStr(value) + "\n```"
  {
    var result := CallResult(tool, Returned(value));
    assert Flag(result, "success");
    assert Get(result, "result") == Some(value);
  }

  /** The `--token` option of a connect command. */
  function TokenOf(command: ParsedCommand): Option<string> {
    TextOption(Get(command.kwargs, "token"))
  }

  /** The `--token-env-var` option of a connect command. */
  function TokenEnvVarOf(command: ParsedCommand): Option<string> {
    TextOption(Get(command.kwargs, "token_env_var"))
  }

  /** `ChatHandler`: the parser's library functions, the session manager,
      the formatter, the schema lookup, `json.dumps`, the environment and
      the help prose are what the handler is built from. */
  class ChatHandler {
    const lib: Library
    const sessions: SessionManager
    const formatter: Formatter
    const schemaOf: string -> Outcome<Json>
    const dumps: Json -> string
    const env: map<string, string>
    const helpText: Option<string> -> string

    constructor(lib: Library, sessions: SessionManager, formatter: Formatter, schemaOf: string -> Outcome<Json>,
                dumps: Json -> string, env: map<string, string>, helpText: Option<string> -> string)
      ensures this.lib == lib && this.sessions == sessions && this.formatter == formatter
      ensures this.schemaOf == schemaOf && this.dumps == dumps && this.env == env && this.helpText == helpText
    {
      this.lib := lib;
      this.sessions := sessions;
      this.formatter := formatter;
      this.schemaOf := schemaOf;
      this.dumps := dumps;
      this.env := env;
      this.helpText := helpText;
    }

    /** `_handle_connect_command`: the manager connects with the command's
        token options, and its report is formatted. */
    method HandleConnect(command: ParsedCommand) returns (r: string)
      requires sessions.Valid()
      modifies sessions, sessions.currentSession, sessions.hubClient
      ensures sessions.Valid()
      ensures command.args == [] ==>
        r == formatter.FormatError("URL is required for connect command")
        && sessions.currentSession == old(sessions.currentSession) && sessions.hubClient.log == old(sessions.hubClient.log)
      ensures command.args != [] ==>
        r == formatter.FormatConnectResult(sessions.ConnectResult(TokenOf(command), TokenEnvVarOf(command), env))
        && sessions.ConnectedAs(TokenOf(command), TokenEnvVarOf(command), env)
    {
      if command.args == [] {
        return formatter.FormatError("URL is required for connect command");
      }
      var result := sessions.Connect(command.args[0], TokenOf(command), TokenEnvVarOf(command), env);
      r := formatter.FormatConnectResult(result);
    }

    /** `_handle_disconnect_command`: the manager's report, formatted. */
    method HandleDisconnect() returns (r: string)
      requires sessions.Valid()
      modifies sessions, sessions.currentSession, sessions.hubClient
      ensures sessions.Valid()
      ensures r == formatter.FormatDisconnectResult(old(sessions.DisconnectResult()))
      ensures sessions.currentSession
        == (if old(sessions.currentSession) != null && sessions.hubClient.disconnectReply == Returned(true) then null
            else old(sessions.currentSession))
      ensures sessions.hubClient.log
        == old(sessions.hubClient.log) + (if old(sessions.currentSession) != null then [DisconnectRequest] else [])
    {
      var result := sessions.Disconnect();
      r := formatter.FormatDisconnectResult(result);
    }

    /** `_handle_list_command`: the cached tools, without asking the client. */
    function ListReply(): (r: Outcome<string>)
      reads this, sessions, sessions.currentSession
      ensures !sessions.IsConnected() ==> r == Returned(NotConnectedMessage)
      ensures sessions.IsConnected() ==> r == ToolListText(sessions.currentSession.availableTools)
    {
      if !sessions.IsConnected() then Returned(NotConnectedMessage)
      else ToolListText(sessions.ListTools())
    }

    /** The reply of `_handle_call_command` (`word` "call") and
        `_handle_shorthand_command` (`word` "shorthand"), read off the state
        before the call. */
    function ToolCallReply(command: ParsedCommand, word: string): Outcome<string>
      reads sessions, sessions.currentSession
    {
      if !sessions.IsConnected() then Returned(NotConnectedMessage)
      else if command.args == [] then Returned(formatter.FormatError("Tool name is required for " + word + " command"))
      else
        var name := command.args[0];
        match schemaOf(name)
        case Raised(e) =>
          if e.kind == ValueError then Raised(e)
          else Returned(formatter.FormatError("Error calling tool " + name + ": " + e.message))
        case Returned(_) =>
          var args := ValidatedArgs(ToolArgs(command.kwargs), schemaOf(name));
          Returned(formatter.FormatToolCallResult(CallResult(name, sessions.hubClient.callReply(name, args))))
    }

    /** What a tool call asks of the client: one call request, and only
        when connected, named and with a schema at hand. */
    function ToolCallRequests(command: ParsedCommand): seq<Request>
      reads sessions, sessions.currentSession
    {
      if sessions.IsConnected() && command.args != [] && schemaOf(command.args[0]).Returned? then
        [CallRequest(command.args[0], ValidatedArgs(ToolArgs(command.kwargs), schemaOf(command.args[0])))]
      else []
    }

    /** The two tool-call commands reply alike once a tool is named. */
    lemma CallAndShorthandAgree(command: ParsedCommand)
      requires command.args != []
      ensures ToolCallReply(command, "call") == ToolCallReply(command, "shorthand")
    {
    }

    /** `_handle_call_command` and `_handle_shorthand_command`, which differ
        only in the command word of one error message. */
    method HandleToolCall(command: ParsedCommand, word: string) returns (r: Outcome<string>)
      modifies sessions.hubClient
      ensures r == ToolCallReply(command, word)
      ensures sessions.hubClient.log == old(sessions.hubClient.log) + ToolCallRequests(command)
      ensures !sessions.IsConnected() ==>
        r == Returned(NotConnectedMessage) && sessions.hubClient.log == old(sessions.hubClient.log)
      ensures sessions.IsConnected() && command.args == [] ==>
        r == Returned(formatter.FormatError("Tool name is required for " + word + " command"))
        && sessions.hubClient.log == old(sessions.hubClient.log)
      ensures sessions.IsConnected() && command.args != [] && schemaOf(command.args[0]).Raised? ==>
        sessions.hubClient.log == old(sessions.hubClient.log)
        && r == if schemaOf(command.args[0]).error.kind == ValueError then Raised(schemaOf(command.args[0]).error)
                else Returned(formatter.FormatError("Error calling tool " + command.args[0] + ": "
                                                    + schemaOf(command.args[0]).error.message))
      ensures sessions.IsConnected() && command.args != [] && schemaOf(command.args[0]).Returned? ==>
        var args := ValidatedArgs(ToolArgs(command.kwargs), schemaOf(command.args[0]));
        sessions.hubClient.log == old(sessions.hubClient.log) + [CallRequest(command.args[0], args)]
        && r == Returned(formatter.FormatToolCallResult(CallResult(command.args[0], sessions.hubClient.callReply(command.args[0], args))))
    {
      if !sessions.IsConnected() {
        return Returned(NotConnectedMessage);
      }
      if command.args == [] {
        return Returned(formatter.FormatError("Tool name is required for " + word + " command"));
      }
      var toolName := command.args[0];
      var args := ToolArgs(command.kwargs);
      var schema := schemaOf(toolName);
      if schema.Raised? {
        if schema.error.kind == ValueError {
          // The handler fetches the schema again to describe the error, and
          // the lookup fails the same way: the exception escapes.
          var again := schemaOf(toolName);
          return Raised(again.error);
        }
        return Returned(formatter.FormatError("Error calling tool " + toolName + ": " + schema.error.message));
      }
      var validated := ValidateAndFillParameters(args, schemaOf(toolName));
      var result := sessions.CallTool(toolName, validated);
      r := Returned(formatter.FormatToolCallResult(result));
    }

    /** The reply of `_handle_schema_command`, as a value. */
    function SchemaReply(command: ParsedCommand): string
      reads sessions, sessions.currentSession
    {
      if !sessions.IsConnected() then NotConnectedMessage
      else if command.args == [] then formatter.FormatError("Tool name is required for schema command")
      else
        var name := command.args[0];
        match schemaOf(name)
        case Raised(e) => formatter.FormatError("Error getting schema for tool " + name + ": " + e.message)
        case Returned(schema) =>
          if !Truthy(schema) then formatter.FormatError("No schema found for tool " + name)
          else match SchemaResultText(name, schema, dumps)
            case Returned(text) => text
            case Raised(e) => formatter.FormatError("Error getting schema for tool " + name + ": " + e.message)
    }

    /** `_handle_schema_command`: every failure becomes an error message. */
    method HandleSchema(command: ParsedCommand) returns (r: string)
      ensures r == SchemaReply(command)
      ensures !sessions.IsConnected() ==> r == NotConnectedMessage
      ensures sessions.IsConnected() && command.args == [] ==>
        r == formatter.FormatError("Tool name is required for schema command")
      ensures sessions.IsConnected() && command.args != [] ==>
        var name := command.args[0];
        r == match schemaOf(name)
          case Raised(e) => formatter.FormatError("Error getting schema for tool " + name + ": " + e.message)
          case Returned(schema) =>
            if !Truthy(schema) then formatter.FormatError("No schema found for tool " + name)
            else match SchemaResultText(name, schema, dumps)
              case Returned(text) => text
              case Raised(e) => formatter.FormatError("Error getting schema for tool " + name + ": " + e.message)
    {
      if !sessions.IsConnected() {
        return NotConnectedMessage;
      }
      if command.args == [] {
        return formatter.FormatError("Tool name is required for schema command");
      }
      var toolName := command.args[0];
      var schema := schemaOf(toolName);
      if schema.Raised? {
        return formatter.FormatError("Error getting schema for tool " + toolName + ": " + schema.error.message);
      }
      if !Truthy(schema.value) {
        return formatter.FormatError("No schema found for tool " + toolName);
      }
      var text := FormatSchemaResult(toolName, schema.value, dumps);
      if text.Raised? {
        return formatter.FormatError("Error getting schema for tool " + toolName + ": " + text.error.message);
      }
      r := text.value;
    }

    /** The dispatch table of `process_message`: the reply each command
        type gets, read off the state before the command is handled. */
    function Reply(command: ParsedCommand, message: string): Outcome<string>
      reads this, sessions, sessions.currentSession
    {
      match command.commandType
      case Connect =>
        if command.args == [] then Returned(formatter.FormatError("URL is required for connect command"))
        else Returned(formatter.FormatConnectResult(sessions.ConnectResult(TokenOf(command), TokenEnvVarOf(command), env)))
      case Disconnect => Returned(formatter.FormatDisconnectResult(sessions.DisconnectResult()))
      case List => ListReply()
      case Call => ToolCallReply(command, "call")
      case Shorthand => ToolCallReply(command, "shorthand")
      case Status => Returned(formatter.FormatStatus(sessions.Status()))
      case Help => Returned(helpText(if command.args != [] then Some(command.args[0]) else None))
      case Schema => Returned(SchemaReply(command))
      case Unknown => Returned(formatter.FormatUnknownCommand(message))
    }

    /** Every command that needs a session is refused without one, and only
        a listing or a tool call can end in an exception. */
    lemma ReplyGuards(command: ParsedCommand, message: string)
      ensures command.commandType in {List, Call, Shorthand, Schema} && !sessions.IsConnected() ==>
        Reply(command, message) == Returned(NotConnectedMessage)
      ensures Reply(command, message).Raised? ==> command.commandType in {List, Call, Shorthand}
    {
    }

    /** The state a command leaves: connect and disconnect act as the
        manager's operations do, a tool call adds its request to the log,
        and every other command changes nothing. */
    twostate predicate Handled(command: ParsedCommand)
      reads sessions, sessions.currentSession, sessions.hubClient
    {
      match command.commandType
      case Connect =>
        if command.args == [] then
          sessions.currentSession == old(sessions.currentSession) && sessions.hubClient.log == old(sessions.hubClient.log)
        else sessions.ConnectedAs(TokenOf(command), TokenEnvVarOf(command), env)
      case Disconnect =>
        sessions.currentSession
          == (if old(sessions.currentSession) != null && sessions.hubClient.disconnectReply == Returned(true) then null
              else old(sessions.currentSession))
        && sessions.hubClient.log
          == old(sessions.hubClient.log) + (if old(sessions.currentSession) != null then [DisconnectRequest] else [])
      case Call =>
        sessions.currentSession == old(sessions.currentSession)
        && sessions.hubClient.log == old(sessions.hubClient.log) + old(ToolCallRequests(command))
      case Shorthand =>
        sessions.currentSession == old(sessions.currentSession)
        && sessions.hubClient.log == old(sessions.hubClient.log) + old(ToolCallRequests(command))
      case _ =>
        sessions.currentSession == old(sessions.currentSession) && sessions.hubClient.log == old(sessions.hubClient.log)
    }

    /** The dispatch of `process_message` over a parsed command. */
    method Dispatch(command: ParsedCommand, message: string) returns (r: Outcome<string>)
      requires sessions.Valid()
      modifies sessions, sessions.currentSession, sessions.hubClient
      ensures sessions.Valid()
      ensures r == old(Reply(command, message))
      ensures Handled(command)
      ensures command.commandType == Unknown ==>
        r == Returned(formatter.FormatUnknownCommand(message))
        && sessions.currentSession == old(sessions.currentSession) && sessions.hubClient.log == old(sessions.hubClient.log)
      ensures (command.commandType in {List, Call, Shorthand, Schema} && !old(sessions.IsConnected())) ==>
        r == Returned(NotConnectedMessage)
        && sessions.currentSession == old(sessions.currentSession) && sessions.hubClient.log == old(sessions.hubClient.log)
    {
      if command.commandType in {Connect, Disconnect} {
        r := DispatchSession(command, message);
      } else {
        r := DispatchQuery(command, message);
      }
    }

    /** The part of the dispatch that connects or disconnects. */
    method DispatchSession(command: ParsedCommand, message: string) returns (r: Outcome<string>)
      requires command.commandType in {Connect, Disconnect}
      requires sessions.Valid()
      modifies sessions, sessions.currentSession, sessions.hubClient
      ensures sessions.Valid()
      ensures r == old(Reply(command, message))
      ensures Handled(command)
    {
      if command.commandType == Connect {
        var text := HandleConnect(command);
        r := Returned(text);
      } else {
        var text := HandleDisconnect();
        r := Returned(text);
      }
    }

    /** The rest of the dispatch: the commands that keep the session and ask
        the client for at most one tool call. */
    method DispatchQuery(command: ParsedCommand, message: string) returns (r: Outcome<string>)
      requires command.commandType !in {Connect, Disconnect}
      modifies sessions.hubClient
      ensures r == Reply(command, message)
      ensures Handled(command)
      ensures command.commandType == Unknown ==>
        r == Returned(formatter.FormatUnknownCommand(message)) && sessions.hubClient.log == old(sessions.hubClient.log)
      ensures (command.commandType in {List, Call, Shorthand, Schema} && !sessions.IsConnected()) ==>
        r == Returned(NotConnectedMessage) && sessions.hubClient.log == old(sessions.hubClient.log)
    {
      match command.commandType {
        case List =>
          r := ListReply();
        case Call =>
          r := HandleToolCall(command, "call");
        case Shorthand =>
          r := HandleToolCall(command, "shorthand");
        case Status =>
          r := Returned(formatter.FormatStatus(sessions.Status()));
        case Help =>
          r := Returned(helpText(if command.args != [] then Some(command.args[0]) else None));
        case Schema =>
          var text := HandleSchema(command);
          r := Returned(text);
        case Unknown =>
          r := Returned(formatter.FormatUnknownCommand(message));
      }
    }

    /** `process_message`. */
    method ProcessMessage(message: string) returns (r: Outcome<string>)
      requires sessions.Valid()
      modifies sessions, sessions.currentSession, sessions.hubClient
      ensures sessions.Valid()
      ensures !IsCommand(message) ==>
        r == Returned(NonCommandReply)
        && sessions.currentSession == old(sessions.currentSession) && sessions.hubClient.log == old(sessions.hubClient.log)
      ensures IsCommand(message) && Parse(lib, message).Raised? ==> r == Raised(Parse(lib, message).error)
      ensures IsCommand(message) && Parse(lib, message).Returned? ==>
        r == old(Reply(Parse(lib, message).value, message)) && Handled(Parse(lib, message).value)
      ensures (IsCommand(message) && Parse(lib, message).Returned? && Parse(lib, message).value.commandType == Unknown) ==>
        r == Returned(formatter.FormatUnknownCommand(message))
        && sessions.currentSession == old(sessions.currentSession) && sessions.hubClient.log == old(sessions.hubClient.log)
      ensures (IsCommand(message) && Parse(lib, message).Returned?
        && Parse(lib, message).value.commandType in {List, Call, Shorthand, Schema} && !old(sessions.IsConnected())) ==>
        r == Returned(NotConnectedMessage)
        && sessions.currentSession == old(sessions.currentSession) && sessions.hubClient.log == old(sessions.hubClient.log)
    {
      if !IsCommand(message) {
        return Returned(NonCommandReply);
      }
      // `parse_command`, as the value `ParseCommand` is proved to compute.
      var parsed := Parse(lib, message);
      if parsed.Raised? {
        return Raised(parsed.error);
      }
      r := Dispatch(parsed.value, message);
    }
  }
}
