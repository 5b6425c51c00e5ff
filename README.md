# MCP chat-command pipeline, in Dafny

This project models the command pipeline of an agent. The agent connects to
Model Context Protocol (MCP) tool servers and to the Hugging Face Hub API
server, and it is driven by chat messages:

* **Natural-language recogniser** (`ChatProtocol`, `chat_proto.dfy`). A plain
  chat text is stripped and lower-cased, then matched against an ordered
  list of anchored phrases: `disconnect`, `list tools`, `call <tool> <args>`,
  `status`, `help [word]` and `schema <tool>`. The first phrase that matches
  is rewritten into one `!` command. Tool names and arguments keep the case
  they were typed in. A text that matches no phrase gets a fixed list of
  examples back.
* **Command parser** (`CommandParser`, `command_parser.dfy`). Turns a
  `!`-prefixed line into a parsed command: a type, positional arguments,
  keyword arguments and the raw text.
  - `connect` scans its `--token` and `--token-env-var` flags.
  - `call` decodes a JSON object.
  - `shorthand` lexes `key=value` pairs and coerces each value to an
    integer, float, boolean or string.
  - `help` and `schema` take at most one word and exactly one word.
* **Schema utilities** (`SchemaUtils`, `schema_utils.dfy`).
  - Clean a tool's raw schema: bookkeeping names are dropped from
    `required`, and `properties` is forced to be a map.
  - Check its structure.
  - Extract its required names and its optional defaults.
  - Find the schema on a tool object.
* **Chat handler** (`ChatHandlers`, `chat_handler.dfy`). The agent's
  `process_message`.
  - Non-commands get an introduction.
  - A command is parsed and dispatched.
  - Tool arguments are completed with the schema's optional defaults: user
    values are never overwritten.
  - Every outcome is rendered as text.
* **Session manager** (`Sessions`, `session_manager.dfy`). Holds at most one
  session with the Hub API server.
  - `connect` tears the old session down, resolves the token and keeps a new
    session only if it connects.
  - `disconnect` drops the session only when the server confirms.
* **Result formatter** (`ResultFormatter`, `result_formatter.dfy`). Renders
  connection results, status, tool lists, tool-call results and
  validation errors. It also renders:
  - a depth-bounded JSON pretty-printer;
  - a schema description with its parameters sorted required-first and then
    by name;
  - an example-value priority chain.

Shared pieces:

| File | Module | Contents |
|---|---|---|
| `values.dfy` | `Values` | A JSON value type. Python dicts as ordered association lists with dict update semantics. Python truthiness, `str`, `in`, `len` and indexing. `Outcome`, a value or a raised exception with its kind. |
| `text.dfy` | `Text` | Whitespace, `strip` and ASCII lower-casing. |
| `regex.dfy` | `Regex` | The few regular-expression shapes the patterns use (`\s+(\S+)$`, `\s+(\S+)\s+(.+)$` and so on), as functions. |
| `options.dfy` | `Options` | `Option`. |

Where a source operation updates state step by step, the model is
imperative and is proved against a specification function:
- the connect flag scan;
- the shorthand pair loop;
- the defaults fill loop;
- the tool-list, parameter and example loops of the formatter;
- the session classes.

The behaviour is modelled as written, quirks included:
- A missing required parameter raises `ValueError` inside the fill step.
  The fill step's own broad handler catches it, so the call goes ahead with
  the user's arguments unchanged.
- `!call` with valid JSON that is not an object raises `ValueError` out of
  the parser. Only JSON decoding errors are caught there.
- Quotes around a shorthand value are removed before coercion, so `k="5"`
  becomes the integer 5, while `k=-5` stays a string.
- `!disconnect`, `!list` and `!status` ignore any trailing text.
- The `url` given to `connect` is not used. A session always targets the
  client's fixed server address.
- In the call and shorthand handlers, a schema lookup that raises
  `ValueError` is caught. The handler then looks the schema up again to
  describe the error, and the lookup is deterministic, so the second
  lookup raises the same exception. That exception escapes
  `process_message` (`Raised`).

## Model

| member | source | states |
|---|---|---|
| CommandParser.CommandTypeOf | asi_mcp/command_parser.py:15-25 | the command type whose value is the given word, and none when no type has that value |
| CommandParser.IsCommandFirstNonBlank | asi_mcp/command_parser.py:76-86 | a message is a command iff its first non-blank character is `!` |
| CommandParser.ParseCommand | asi_mcp/command_parser.py:88-126 | the parser's dispatch, with the connect and shorthand loops, computes exactly `Parse` |
| CommandParser.NonCommandIsUnknown | asi_mcp/command_parser.py:98-101 | a non-command parses as `UNKNOWN` carrying the stripped text |
| CommandParser.UnknownWordIsUnknown | asi_mcp/command_parser.py:103-110 | a command word outside the vocabulary (compared case-sensitively) parses as `UNKNOWN` carrying the stripped text |
| CommandParser.Routes | asi_mcp/command_parser.py:112-126 | a first word naming a type hands the stripped message to that type's parser |
| CommandParser.BareCommandsIgnoreRest | asi_mcp/command_parser.py:123-124 | `disconnect`, `list` and `status` give their own type with no arguments whatever text follows |
| CommandParser.HelpArity | asi_mcp/command_parser.py:268-290 | `!help` alone gives no argument, `!help` plus one word gives that word, anything else is `UNKNOWN` |
| CommandParser.SchemaArity | asi_mcp/command_parser.py:292-314 | `!schema` plus exactly one word gives that word, anything else is `UNKNOWN` |
| CommandParser.ConnectWithoutArguments | asi_mcp/command_parser.py:140-142 | example: `!connect` with nothing after it is `UNKNOWN` |
| CommandParser.ConnectArguments | asi_mcp/command_parser.py:140-170 | the argument text is shell-split; a split failure is `UNKNOWN`; otherwise the first token (or `""`) is the URL and the options come from the flag scan |
| CommandParser.ParseConnectCommand | asi_mcp/command_parser.py:128-170 | the connect parser with its scan loop computes `ConnectCommand` |
| CommandParser.ScanConnectOptions | asi_mcp/command_parser.py:150-163 | the `while` loop over the tokens computes `ConnectOptions`, the dict built from the recorded flag pairs |
| CommandParser.ConnectScanFromFlags | asi_mcp/command_parser.py:154-163 | every recorded pair is `token` or `token_env_var`, and its value is the token right after a matching flag |
| CommandParser.ConnectOptionsFromFlags | asi_mcp/command_parser.py:154-163 | the value of an option is the last one recorded for it; only the two known keys appear, each taken from the token after its flag |
| CommandParser.ConnectExamples | asi_mcp/command_parser.py:154-163 | examples: a repeated `--token` keeps the later value; an unknown token and a trailing flag with no value are skipped |
| CommandParser.CallArguments | asi_mcp/command_parser.py:184-207 | malformed JSON gives `UNKNOWN` with `{"error": "Invalid JSON arguments"}`; a non-object raises `ValueError`; an object gives `[tool]` and `{"args": obj}` |
| CommandParser.ShorthandArguments | asi_mcp/command_parser.py:221-266 | `!shorthand tool text` gives `[tool]` and `{"args": pairs lexed from text}` |
| CommandParser.MatchKeyValue | asi_mcp/command_parser.py:232-237 | a match consumes input and its key is a non-empty run of word characters |
| CommandParser.KeyValueMatches | asi_mcp/command_parser.py:234-237 | every match found has a non-empty word-character key |
| CommandParser.StripQuotes | asi_mcp/command_parser.py:239-242 | a value changes only when it starts and ends with the same quote character, and it never grows |
| CommandParser.Coerce | asi_mcp/command_parser.py:244-259 | all-digit text becomes its decimal value; text matching `-?\d+\.\d+` (a final newline allowed) becomes a float keeping the text; `true` or `false` in any letter case becomes that boolean; anything else stays the unchanged string |
| CommandParser.CollectShorthandArgs | asi_mcp/command_parser.py:228-259 | the loop over the matches computes `ShorthandArgs`, the dict of coerced pairs |
| CommandParser.ShorthandKeys | asi_mcp/command_parser.py:234-259 | a key's value is the last one given for it, and every key is a word |
| CommandParser.QuotedDigitsBecomeInt | asi_mcp/command_parser.py:239-248 | a double- or single-quoted run of digits still becomes an integer |
| CommandParser.NegativeIntegerStaysString | asi_mcp/command_parser.py:244-257 | `-` followed by digits stays a string |
| CommandParser.CoerceClassesDisjoint | asi_mcp/command_parser.py:244-257 | a decimal is never all digits, and a boolean word is neither, so the order of the tests decides nothing |
| CommandParser.ShorthandDoubleQuoted | asi_mcp/command_parser.py:232-248 | `k="v"` (no `"` inside `v`) gives the one pair `k` mapped to `Coerce(StripQuotes(v))`: the double quotes go, then one further pair of matching outer quotes inside, then the type conversion |
| CommandParser.ParseShorthandCommand | asi_mcp/command_parser.py:209-266 | the shorthand parser with its loop computes `ShorthandCommand` |
| SchemaUtils.WithoutInternalNames | hugging_face_hub/schema_utils.py:74-80 | keeps exactly the entries that are not bookkeeping names, never adding any |
| SchemaUtils.CleanSchema | hugging_face_hub/schema_utils.py:47-93 | `{}` for a non-dict input. For a dict the result: passes the structure check; has `required` iff the input has it; list `required` is filtered; non-list `required` becomes `[]`; `properties` is kept when it is a dict, else `{}`; every other key is unchanged |
| SchemaUtils.CleanSchemaIdempotent | hugging_face_hub/schema_utils.py:47-93 | cleaning twice equals cleaning once |
| SchemaUtils.CleanSchemaKeepsClean | hugging_face_hub/schema_utils.py:74-93 | a valid schema without bookkeeping names in `required` is left unchanged |
| SchemaUtils.ValidityReadsTwoKeys | hugging_face_hub/schema_utils.py:169-194 | `ValidateSchemaStructure` holds iff the schema is a dict whose `properties` is present and a dict and whose `required`, when present, is a list; two dict schemas that agree on `properties` and `required` get the same verdict, so no other key and no key order matters |
| SchemaUtils.ExtractRequiredParams | hugging_face_hub/schema_utils.py:196-209 | `[]` for an invalid schema, else `required`, or `[]` when it is absent |
| SchemaUtils.RequiredAfterCleaning | hugging_face_hub/schema_utils.py:75-80 | after cleaning, no required name is a bookkeeping name and every one was required before |
| SchemaUtils.ExtractOptionalParamsWithDefaults | hugging_face_hub/schema_utils.py:211-232 | the loop over the properties computes `OptionalDefaults` |
| SchemaUtils.OptionalDefaultsGet | hugging_face_hub/schema_utils.py:221-232 | a name has a default iff the schema is valid and the property is not required and is a dict with `default`; the value is that default, unchanged |
| SchemaUtils.GetSchemaFromTool | hugging_face_hub/schema_utils.py:16-45 | the result is a dict that is `{}` or passes the structure check |
| SchemaUtils.FirstAttributeWins | hugging_face_hub/schema_utils.py:30-42 | the first present attribute among `schema`, `parameters`, `parameter_schema` and `inputSchema` decides the schema |
| SchemaUtils.NoAttributeNoSchema | hugging_face_hub/schema_utils.py:43-45 | a tool with none of the attributes has the schema `{}` |
| SchemaUtils.EmptySchemaCases | hugging_face_hub/schema_utils.py:109-148 | examples: a `None` value, an accessor that raises and an accessor returning `None` all give `{}`, and cleaning `{}` adds empty `properties` |
| ChatHandlers.FillFromGet | asi_mcp/chat_handler.py:178-185 | the fill loop keeps every given name's value and adds a missing one's default |
| ChatHandlers.ValidatedArgsGet | asi_mcp/chat_handler.py:148-189 | user values are never overwritten; a missing name gets an optional default only when the schema is valid and every required name is present, else nothing is added |
| ChatHandlers.AddedAreOptionalDefaults | asi_mcp/chat_handler.py:168-185 | what the fill adds under a missing name is exactly that property's default, and only for a non-required dict property with one |
| ChatHandlers.MissingRequiredKeepsArgs | asi_mcp/chat_handler.py:172-189 | one absent required name leaves the arguments exactly as given: the error is swallowed |
| ChatHandlers.ValidateAndFillParameters | asi_mcp/chat_handler.py:148-189 | the method with its defaults loop computes `ValidatedArgs` |
| ChatHandlers.ChatHandler.HandleConnect | asi_mcp/chat_handler.py:99-117 | without a URL, the error reply, with no session change and nothing asked of the client; otherwise the manager connects with the command's `token` and `token_env_var`, leaving the state `ConnectedAs` describes (the old session asked to go first, then a fresh session iff the token is there and the client accepts and lists its tools), and the reply is the formatted `ConnectResult` |
| ChatHandlers.ChatHandler.HandleDisconnect | asi_mcp/chat_handler.py:119-130 | the reply is the formatted report of the state before; the session goes iff there was one and the client confirms; the client is asked only when there is a session |
| ChatHandlers.ChatHandler.ListReply | asi_mcp/chat_handler.py:132-146 | the not-connected reply when not connected, else the formatted list of the cached tools |
| ChatHandlers.ChatHandler.HandleToolCall | asi_mcp/chat_handler.py:191-265 | the guards and their replies: not connected, no tool name, schema lookup failing (a `ValueError` escapes, any other error becomes a message); otherwise exactly one call with the validated arguments, and the reply is the formatted `CallResult` of the client's answer to that call |
| ChatHandlers.ChatHandler.CallAndShorthandAgree | asi_mcp/chat_handler.py:191-265 | once a tool is named, `call` and `shorthand` give the same reply |
| ChatHandlers.ToolCallErrorText | hugging_face_hub/session_manager.py:251-256 | a tool call the client answers with an exception is reported by `call_tool` as "Error calling tool <name>: <message>" and shown by `format_tool_call_result` (hugging_face_hub/result_formatter.py:144-155) as a cross mark and that text |
| ChatHandlers.ToolCallResultText | hugging_face_hub/result_formatter.py:157-167 | the value `call_tool` reports as its result (hugging_face_hub/session_manager.py:245-250) is shown so: a returned dict or list is shown through `format_json`, `None` as "No result returned", any other value through `str`, inside the success block |
| ChatHandlers.ChatHandler.HandleSchema | asi_mcp/chat_handler.py:293-322 | the reply (also named `SchemaReply`) for each case: not connected; no tool name; lookup error; a falsy schema gives "No schema found"; otherwise the schema text, with a formatting error turned into an error message |
| ChatHandlers.ChatHandler.ReplyGuards | asi_mcp/chat_handler.py:132-322 | `list`, `call`, `shorthand` and `schema` get the not-connected reply without a session; only `list`, `call` and `shorthand` can end in an exception |
| ChatHandlers.ChatHandler.Dispatch | asi_mcp/chat_handler.py:63-81 | every command type gets its handler's reply (the table `Reply`, read off the state before) and leaves the state `Handled` describes: connect and disconnect as the manager's operations, a tool call adds its one request, everything else changes nothing; `UNKNOWN` and the not-connected replies touch neither session nor client |
| ChatHandlers.ChatHandler.DispatchSession | asi_mcp/chat_handler.py:63-67 | `connect` and `disconnect` get the `Reply` row and leave the `Handled` state |
| ChatHandlers.ChatHandler.DispatchQuery | asi_mcp/chat_handler.py:68-81 | the other command types get the `Reply` row, keep the session and add at most the tool call's request |
| ChatHandlers.ChatHandler.ProcessMessage | asi_mcp/chat_handler.py:43-97 | a non-command gets the fixed introduction; a parser exception escapes; a parsed command gets the `Reply` row for it and leaves the `Handled` state; the unknown-command and not-connected replies leave the session and the client untouched |
| Sessions.ServerSession.constructor | hugging_face_hub/session_manager.py:23-35 | a new session targets the fixed server address, is not connected and has no tools |
| Sessions.ServerSession.Connect | hugging_face_hub/session_manager.py:37-53 | success iff the client accepts and lists its tools. Then the session is connected with the listed tools cached. A refusal changes nothing; an exception leaves it not connected |
| Sessions.ServerSession.Disconnect | hugging_face_hub/session_manager.py:55-68 | success iff the client confirms; `connected` becomes the negation of the reply; an exception keeps the state |
| Sessions.ServerSession.Status | hugging_face_hub/session_manager.py:70-82 | the status carries the flag, the tool count, the url and `has_token` iff a token is set |
| Sessions.SessionManager.ConnectedIffSession | hugging_face_hub/session_manager.py:207-214 | under the manager's invariant, connected iff there is a session |
| Sessions.SessionManager.DisconnectResult | hugging_face_hub/session_manager.py:153-179 | the report says success iff there is a session and the client confirms |
| Sessions.SessionManager.Disconnect | hugging_face_hub/session_manager.py:153-179 | no session: failure, and the client is not asked. Otherwise the session is dropped iff the client confirms, with the matching message; the report is `DisconnectResult` of the state before |
| Sessions.SessionManager.ActualToken | hugging_face_hub/session_manager.py:124-132 | a named variable replaces the token: its value if set and non-empty, else none; with no name, the given token |
| Sessions.SessionManager.ConnectResult | hugging_face_hub/session_manager.py:108-151 | the report says success iff the token is not missing and the client both accepts and lists its tools |
| Sessions.SessionManager.Connect | hugging_face_hub/session_manager.py:108-151 | an old session is disconnected first. A missing token gives a failure and no new session. Otherwise a session is opened. Every request to the client is listed in order; the report is `ConnectResult` |
| Sessions.SessionManager.OpenSession | hugging_face_hub/session_manager.py:134-151 | a fresh connected session with the listed tools and `tool_count` equal to their number when the client accepts; otherwise no session |
| Sessions.SessionManager.Status | hugging_face_hub/session_manager.py:186-205 | not connected without a session, else the session's flag, url, tool count and token flag |
| Sessions.SessionManager.ListTools | hugging_face_hub/session_manager.py:216-226 | `[]` when not connected, else the cached tools |
| Sessions.CallResult | hugging_face_hub/session_manager.py:240-256 | success iff the client returned; the result on success, "Error calling tool <name>: <message>" on an exception |
| Sessions.SessionManager.CallTool | hugging_face_hub/session_manager.py:228-256 | not connected: failure, and the client is not asked. Otherwise one call, with success and the result or failure and the error message (`CallResult` of the client's answer) |
| ResultFormatter.Formatter.FormatConnectResult | hugging_face_hub/result_formatter.py:32-48 | a check mark exactly on success, else a cross; a success with a tool count ends with the count note |
| ResultFormatter.Formatter.FormatDisconnectResult | hugging_face_hub/result_formatter.py:50-63 | a check mark exactly on success, else a cross |
| ResultFormatter.Formatter.FormatStatus | hugging_face_hub/result_formatter.py:169-192 | not connected: the message. Connected: starts with the url and ends with "Using token" iff `has_token` is truthy |
| ResultFormatter.StatusTail | hugging_face_hub/result_formatter.py:182-190 | a status line ends with the token line iff the token flag is set |
| ResultFormatter.Formatter.FormatError | hugging_face_hub/result_formatter.py:194-204 | a cross mark and `Error:` first, the message last |
| ResultFormatter.Formatter.FormatUnknownCommand | hugging_face_hub/result_formatter.py:316-329 | starts by quoting the command back |
| ResultFormatter.Formatter.FormatJson | hugging_face_hub/result_formatter.py:262-314 | non-empty containers at or past the depth bound are elided. Empty ones are `{}`/`[]`. Strings are quoted unescaped, `None` is `null`, booleans are `True`/`False`. Other containers are bracketed, with the closing bracket indented to the depth |
| ResultFormatter.FormatJsonBounded | hugging_face_hub/result_formatter.py:273-277 | two values that agree down to the depth bound print the same: the printer never looks deeper |
| ResultFormatter.FormatJsonExample | hugging_face_hub/result_formatter.py:279-291 | example: with a depth bound of 1, a nested dict prints one indented entry whose value is elided |
| ResultFormatter.Formatter.FormatToolCallResult | hugging_face_hub/result_formatter.py:144-167 | on failure a cross mark and the message (or "Tool call failed"); on success the header and a code block holding a dict or list rendered by `format_json`, "No result returned" for a missing or `None` result, and `str` of any other value |
| ResultFormatter.ArgumentLine | hugging_face_hub/result_formatter.py:129-135 | the `*` after the quoted name appears iff the name is in `required`, and the line raises iff that test raises |
| ResultFormatter.ToolListText | hugging_face_hub/result_formatter.py:65-142 | no tools gives the no-tools message |
| ResultFormatter.ToolListTotal | hugging_face_hub/result_formatter.py:78-140 | a non-empty list whose schemas can be read is rendered, starting with the header and its count and ending with the usage footer |
| ResultFormatter.FormatToolList | hugging_face_hub/result_formatter.py:65-142 | the loop over the tools computes `ToolListText` |
| ResultFormatter.AppendToolEntry | hugging_face_hub/result_formatter.py:80-137 | one tool's entry, appended as `ToolEntryFrom` specifies |
| ResultFormatter.AppendArgumentLines | hugging_face_hub/result_formatter.py:118-135 | the argument loop computes `ArgumentLinesFrom` |
| ResultFormatter.RequiredLinesInOrder | hugging_face_hub/result_formatter.py:225-235 | the required-parameter lines are appended for every name in `required`, in order |
| ResultFormatter.PlaceholdersKeep | hugging_face_hub/result_formatter.py:239-256 | a placeholder already in the example stays a placeholder |
| ResultFormatter.PlaceholdersCover | hugging_face_hub/result_formatter.py:239-256 | every required name gets a fixed type placeholder in the example |
| ResultFormatter.PlaceholdersOnly | hugging_face_hub/result_formatter.py:239-256 | every key the loop adds is a required name holding a placeholder |
| ResultFormatter.ValidationErrorText | hugging_face_hub/result_formatter.py:206-260 | without a dict schema with non-empty `properties`, only the heading and the message |
| ResultFormatter.ValidationErrorLayout | hugging_face_hub/result_formatter.py:215-258 | otherwise the heading, "Required parameters:", one line per required name in order, then the `call` line with the dumped placeholder example; an error on the way escapes |
| ResultFormatter.FormatParameterValidationError | hugging_face_hub/result_formatter.py:206-260 | the loops compute `ValidationErrorText` |
| ResultFormatter.SortParamsOrders | hugging_face_hub/result_formatter.py:383-385 | the sort is a permutation, ordered by (required first, then name), so required parameters come first |
| ResultFormatter.ListingMatchesHeader | hugging_face_hub/result_formatter.py:377-387 | the first entries of the sorted listing, as many as the header's required count, are exactly the required ones, so the two counts add up to the number of properties |
| ResultFormatter.RequiredFlags | hugging_face_hub/result_formatter.py:378 | one flag per property, each the outcome of the `in required` test |
| ResultFormatter.EnumConstraint | hugging_face_hub/result_formatter.py:409-414 | more than 5 values: a count only; otherwise every value, backticked |
| ResultFormatter.ExampleValue | hugging_face_hub/result_formatter.py:473-518 | priority: `example`, then `default`, then the first `enum` value |
| ResultFormatter.RawDump | hugging_face_hub/result_formatter.py:540-548 | a dump of at most 2000 characters is kept; a longer one is cut to its first 2000 plus the truncation note |
| ResultFormatter.SchemaResultText | hugging_face_hub/result_formatter.py:343-548 | a falsy schema gives the no-schema message; a non-dict one gives the invalid-format message with its type |
| ResultFormatter.AppendParamBlocks | hugging_face_hub/result_formatter.py:387-459 | the parameter loop computes `ParamBlocksFrom` |
| ResultFormatter.AddRequiredExamples | hugging_face_hub/result_formatter.py:466-518 | the required-example loop computes `RequiredExampleFrom` |
| ResultFormatter.AddOptionalExamples | hugging_face_hub/result_formatter.py:520-526 | the optional-example loop computes `OptionalExampleFrom` |
| ResultFormatter.BuildExample | hugging_face_hub/result_formatter.py:461-526 | both example loops compute `SchemaExample` |
| ResultFormatter.FormatSchemaResult | hugging_face_hub/result_formatter.py:343-548 | the method computes `SchemaResultText` |
| ResultFormatter.RequiredExampleGet | hugging_face_hub/result_formatter.py:466-518 | a required name present in `properties` maps to its example value; any other key is unchanged, so required names missing from `properties` are skipped |
| ResultFormatter.OptionalExampleGet | hugging_face_hub/result_formatter.py:520-526 | the optional loop never touches a required name and adds only property names |
| ResultFormatter.OptionalAtMostThree | hugging_face_hub/result_formatter.py:520-526 | at most 3 optional defaults are added |
| ResultFormatter.SchemaExampleKeys | hugging_face_hub/result_formatter.py:461-526 | the example maps each required property to its example value, holds only property names, and has at most 3 more entries than the required part |
| ChatProtocol.Rewrite | hugging_face_hub/chat_proto.py:100-193 | a forwarded text is one `!` command; a reply is the examples message |
| ChatProtocol.Recognise | hugging_face_hub/chat_proto.py:104-193 | the ordered pattern chain forwards one `!` command or replies with the examples |
| ChatProtocol.PhraseRewrites | hugging_face_hub/chat_proto.py:104-147 | `disconnect`, `list tools` and `status`, in any case and with surrounding blanks, become `!disconnect`, `!list` and `!status` |
| ChatProtocol.BareListNotRecognised | hugging_face_hub/chat_proto.py:113-120 | example: plain `list` is not recognised |
| ChatProtocol.NoPhrase | hugging_face_hub/chat_proto.py:184-193 | a text whose first two letters start no phrase gets the examples |
| ChatProtocol.ConnectNotRecognised | hugging_face_hub/chat_proto.py:37-43 | any text starting with `connect` gets the examples: there is no connect phrase |
| ChatProtocol.CallKeepsCase | hugging_face_hub/chat_proto.py:122-131 | `call <tool> <args>` forwards the tool name and the argument text exactly as typed |
| ChatProtocol.HelpWordRewrites | hugging_face_hub/chat_proto.py:149-158 | `help <word>` forwards `!help` with the word lower-cased |
| ChatProtocol.BareHelpRewrites | hugging_face_hub/chat_proto.py:149-158 | `help` alone, in any case, forwards `!help` |
| ChatProtocol.SchemaKeepsCase | hugging_face_hub/chat_proto.py:167-175 | `schema <tool>` forwards the tool name as typed |

## Left out

- Messaging, acknowledgements, the agent framework, logging and `async`
  are left out. Each `await` is an ordinary call.
- The `ChatProtocol` model returns the command instead of forwarding it.
- "Error: Agent instance not available" is not modelled: it arises only
  when the agent instance is missing.
- `json.loads`, `shlex.split` and `json.dumps` are parameters. They are not
  implemented: the parser's `Library`, and the handler's and formatter's
  `dumps`. Their failure branches in the formatter (a `dumps` that raises)
  are not modelled.
- The MCP client's `get_schema` is a deterministic lookup, `schemaOf`, that
  returns a schema or raises.
- The Hub transport is not part of this model. `HubClient` stands for it:
  - its answers are fixed when it is built, and each request is logged;
  - the fixed server address is its `serverUrl`.
- The process environment is the `env` map.
- `get_help_text` is not modelled. The help prose is the handler's
  `helpText` parameter.
- `disconnect_all` and `ParsedCommand.__str__` are not modelled.
- The chat handler imports a session manager, result formatter and schema
  utilities of its own package. Those files are not part of this model.
  Their counterparts in the Hub package are modelled and used in their
  place.
- Lower-casing, `\w`, `\d` and `isdigit` cover ASCII only. Whitespace is
  the full set that Python's `str.isspace` accepts.
- Floats are kept as their decimal text, with no arithmetic. `str` of a
  float is that text.
- `str` of a container shows the strings inside it in single quotes, without
  Python's escaping of quotes and control characters.
- `in` on a list compares JSON values structurally: `True == 1` in Python
  is not reproduced.
- Python duck typing of tools and schema values is a small variant type:
  a plain value, an object with `__dict__`, one with `to_dict()`, or one
  with neither.
- Token and option values that are not strings are read as absent
  (`ChatHandlers.TextOption`).
- A non-dict `args` entry is read as `{}` (`ChatHandlers.ToolArgs`).
- ResultFormatter.Formatter.FormatJson: the ensures give the brackets and
  the closing indentation. They do not give the children's order and
  indentation. `FormatJsonExample` shows those on one value.
- ResultFormatter.ToolListText: its ensures give only the empty case. The
  rendered shape is stated by `ToolListTotal`.
- ResultFormatter.ExampleValue: the type and format placeholders after the
  first three priorities are not stated in the ensures.
- ResultFormatter.SchemaResultText: its ensures cover the two early
  returns. The parameter listing and the example are stated by the lemmas
  about their pieces.
- ResultFormatter.PlaceholdersFrom: each key is written as `json.dumps`
  writes it when the entry is added. So required names that Python's dict
  merges (`1` and `True`) stay two entries here. Names that `json.dumps`
  writes alike (`1` and `"1"`) share one entry here, where Python prints
  the key twice. A JSON Schema `required` list holds only strings, so
  neither case arises for a valid schema.
