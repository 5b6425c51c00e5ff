/** The structured command parser: a line starting with `!` becomes a
    `ParsedCommand` with a type, positional arguments and keyword
    arguments. `json.loads` and `shlex.split` are parameters (`Library`). */
module CommandParser {
  import opened Text
  import opened Options
  import opened Regex
  import opened Values

  datatype CommandType = Connect | Disconnect | List | Call | Shorthand | Status | Help | Schema | Unknown

  datatype ParsedCommand = ParsedCommand(commandType: CommandType, args: seq<string>, kwargs: Dict, rawCommand: string)

  /** The two library routines the parser relies on: `json.loads` (`None`
      when it raises `JSONDecodeError`) and `shlex.split` (`None` when it
      raises `ValueError`, e.g. on an unbalanced quote). */
  datatype Library = Library(jsonLoads: string -> Option<Json>, shlexSplit: string -> Option<seq<string>>)

  function UnknownCommand(raw: string): ParsedCommand {
    ParsedCommand(Unknown, [], [], raw)
  }

  /** The enum value of each command type. */
  function CommandName(t: CommandType): string {
    match t
    case Connect => "connect"
    case Disconnect => "disconnect"
    case List => "list"
    case Call => "call"
    case Shorthand => "shorthand"
    case Status => "status"
    case Help => "help"
    case Schema => "schema"
    case Unknown => "unknown"
  }

  /** `CommandType(value)`: the member whose value is `value`, if any. */
  function CommandTypeOf(value: string): (t: Option<CommandType>)
    ensures t.Some? ==> CommandName(t.value) == value
    ensures forall u :: CommandName(u) == value ==> t == Some(u)
  {
    if value == "connect" then Some(Connect)
    else if value == "disconnect" then Some(Disconnect)
    else if value == "list" then Some(List)
    else if value == "call" then Some(Call)
    else if value == "shorthand" then Some(Shorthand)
    else if value == "status" then Some(Status)
    else if value == "help" then Some(Help)
    else if value == "schema" then Some(Schema)
    else if value == "unknown" then Some(Unknown)
    else None
  }

  /** `is_command`. */
  predicate IsCommand(message: string) {
    IsPrefix("!", Strip(message))
  }

  /** `is_command` looks at the first non-blank character only. */
  lemma IsCommandFirstNonBlank(message: string)
    ensures IsCommand(message) <==> LeadWs(message) < |message| && message[LeadWs(message)] == '!'
  {
    SingleCharPrefix('!', Strip(message));
    StripFront(message);
  }

  /** The first blank-free word of a stripped message (`split(maxsplit=1)[0]`). */
  function FirstWord(m: string): (w: string)
    ensures IsPrefix(w, m) && NoSpace(w)
  {
    m[..LeadNonWs(m)]
  }

  lemma CommandWordNonEmpty(m: string)
    requires IsStripped(m) && IsCommand(m)
    ensures |FirstWord(m)| > 0 && FirstWord(m)[0] == '!'
  {
    StripStripped(m);
  }

  /** `parse_command`. It returns unless `call` meets JSON that is not an
      object, which raises `ValueError` out of the parser. */
  function Parse(lib: Library, message: string): Outcome<ParsedCommand> {
    var m := Strip(message);
    if !IsCommand(m) then Returned(UnknownCommand(m))
    else
      CommandWordNonEmpty(m);
      match CommandTypeOf(FirstWord(m)[1..])
      case None => Returned(UnknownCommand(m))
      case Some(t) =>
        match t
        case Connect => Returned(ConnectCommand(lib, m))
        case Call => CallCommand(lib, m)
        case Shorthand => Returned(ShorthandCommand(m))
        case Help => Returned(HelpCommand(m))
        case Schema => Returned(SchemaCommand(m))
        case Disconnect => Returned(ParsedCommand(t, [], [], m))
        case List => Returned(ParsedCommand(t, [], [], m))
        case Status => Returned(ParsedCommand(t, [], [], m))
        case Unknown => Returned(UnknownCommand(m))
  }

  /** `parse_command` as the parser runs it: the connect and shorthand
      arguments are collected by their loops. */
  method ParseCommand(lib: Library, message: string) returns (r: Outcome<ParsedCommand>)
    ensures r == Parse(lib, message)
  {
    var m := Strip(message);
    if !IsCommand(m) {
      return Returned(UnknownCommand(m));
    }
    CommandWordNonEmpty(m);
    var t := CommandTypeOf(FirstWord(m)[1..]);
    match t {
      case None =>
        r := Returned(UnknownCommand(m));
      case Some(Connect) =>
        var c := ParseConnectCommand(lib, m);
        r := Returned(c);
      case Some(Call) =>
        r := CallCommand(lib, m);
      case Some(Shorthand) =>
        var c := ParseShorthandCommand(m);
        r := Returned(c);
      case Some(Help) =>
        r := Returned(HelpCommand(m));
      case Some(Schema) =>
        r := Returned(SchemaCommand(m));
      case Some(Disconnect) =>
        r := Returned(ParsedCommand(Disconnect, [], [], m));
      case Some(List) =>
        r := Returned(ParsedCommand(List, [], [], m));
      case Some(Status) =>
        r := Returned(ParsedCommand(Status, [], [], m));
      case Some(Unknown) =>
        r := Returned(UnknownCommand(m));
    }
  }

  /** What follows the command word of a stripped message: nothing, or
      leading blanks and then text that does not end in a blank. */
  lemma RestAfterWord(m: string)
    requires IsStripped(m)
    ensures var r := m[|FirstWord(m)|..];
      r == [] || (IsSpace(r[0]) && !IsSpace(r[|r| - 1]) && 0 < LeadWs(r) < |r|)
  {
    var k := LeadNonWs(m);
    var r := m[k..];
    if r != [] {
      assert r[0] == m[k];
      assert r[|r| - 1] == m[|m| - 1];
    }
  }

  /** A command whose first word names type `t` is handed to that type's
      own parser. */
  lemma Routes(lib: Library, message: string, t: CommandType)
    requires IsCommand(message) && FirstWord(Strip(message)) == "!" + CommandName(t)
    ensures var m := Strip(message);
      Parse(lib, message) == match t
        case Connect => Returned(ConnectCommand(lib, m))
        case Call => CallCommand(lib, m)
        case Shorthand => Returned(ShorthandCommand(m))
        case Help => Returned(HelpCommand(m))
        case Schema => Returned(SchemaCommand(m))
        case Unknown => Returned(UnknownCommand(m))
        case _ => Returned(ParsedCommand(t, [], [], m))
  {
    var m := Strip(message);
    StripStripped(m);
    assert FirstWord(m)[1..] == CommandName(t);
  }

  /** A message that is not a command parses as `UNKNOWN` carrying the
      stripped text. */
  lemma NonCommandIsUnknown(lib: Library, message: string)
    requires !IsCommand(message)
    ensures Parse(lib, message) == Returned(UnknownCommand(Strip(message)))
  {
    StripStripped(Strip(message));
  }

  /** A command word outside the vocabulary parses as `UNKNOWN` carrying the
      stripped text; the match is case-sensitive (`!List` is not `!list`),
      and the word `!unknown` is treated the same way. */
  lemma UnknownWordIsUnknown(lib: Library, message: string)
    requires IsCommand(message)
    requires forall t :: t != Unknown ==> FirstWord(Strip(message)) != "!" + CommandName(t)
    ensures Parse(lib, message) == Returned(UnknownCommand(Strip(message)))
  {
    var m := Strip(message);
    StripStripped(m);
    var w := FirstWord(m);
    assert w != [] && w[0] == '!';
    assert w == "!" + w[1..];
  }

  /** `!disconnect`, `!list` and `!status` carry no arguments, whatever text
      follows the command word. */
  lemma BareCommandsIgnoreRest(lib: Library, message: string, t: CommandType)
    requires t == Disconnect || t == List || t == Status
    requires IsCommand(message) && FirstWord(Strip(message)) == "!" + CommandName(t)
    ensures Parse(lib, message) == Returned(ParsedCommand(t, [], [], Strip(message)))
  {
    var m := Strip(message);
    StripStripped(m);
    assert FirstWord(m)[1..] == CommandName(t);
  }

  /** `!help` takes at most one word and `!schema` exactly one; anything
      else after them makes the command `UNKNOWN`. (`Routes` hands a
      stripped message whose first word is `!help` or `!schema` to these.) */
  lemma HelpArity(m: string)
    requires IsStripped(m) && FirstWord(m) == "!help"
    ensures var r := m[5..];
      HelpCommand(m) ==
        if r == [] then ParsedCommand(Help, [], [], m)
        else if NoSpace(r[LeadWs(r)..]) then ParsedCommand(Help, [r[LeadWs(r)..]], [], m)
        else UnknownCommand(m)
  {
    RestAfterWord(m);
    var r := m[5..];
    WsTokenEndTrimmed(r);
    if r != [] {
      assert |r| >= 2;
    }
  }

  lemma SchemaArity(m: string)
    requires IsStripped(m) && FirstWord(m) == "!schema"
    ensures var r := m[7..];
      SchemaCommand(m) ==
        if r != [] && NoSpace(r[LeadWs(r)..]) then ParsedCommand(Schema, [r[LeadWs(r)..]], [], m)
        else UnknownCommand(m)
  {
    RestAfterWord(m);
    WsTokenEndTrimmed(m[7..]);
  }

  /** Example: `!connect` with nothing after it is `UNKNOWN`. */
  lemma ConnectWithoutArguments(lib: Library)
    ensures ConnectCommand(lib, "!connect") == UnknownCommand("!connect")
  {
    assert "!connect"[8..] == [];
  }

  /** `!connect` followed by one line of text: the text is split like a
      shell line (an unbalanced quote makes the command `UNKNOWN`), the
      first token is the URL and the rest are scanned for options. */
  lemma ConnectArguments(lib: Library, m: string, gap: string, text: string)
    requires m == "!connect" + gap + text
    requires gap != [] && AllSpace(gap) && text != [] && !IsSpace(text[0]) && NoNewline(text)
    ensures ConnectCommand(lib, m) == (
      match lib.shlexSplit(text)
      case None => UnknownCommand(m)
      case Some(tokens) =>
        ParsedCommand(Connect, [if tokens != [] then tokens[0] else ""], ConnectOptions(tokens), m))
  {
    assert m[8..] == gap + text;
    WsDotPlusEndParts(gap, text);
  }

  /** `!call`, blanks, a tool name, blanks and one line of JSON: malformed
      JSON gives `UNKNOWN` with an error entry, JSON that is not an object
      raises `ValueError` out of the parser, and an object becomes the `args`
      entry. */
  lemma CallArguments(lib: Library, m: string, gap: string, tool: string, gap2: string, json: string)
    requires m == "!call" + gap + tool + gap2 + json
    requires gap != [] && AllSpace(gap) && tool != [] && NoSpace(tool) && gap2 != [] && AllSpace(gap2)
    requires json != [] && !IsSpace(json[0]) && NoNewline(json)
    ensures CallCommand(lib, m) ==
      match lib.jsonLoads(json)
      case None => Returned(ParsedCommand(Unknown, [], [("error", JStr("Invalid JSON arguments"))], m))
      case Some(JObj(d)) => Returned(ParsedCommand(Call, [tool], [("args", JObj(d))], m))
      case Some(_) => Raised(PyError(ValueError, "Arguments must be a JSON object"))
  {
    CommandGroups(m, "!call", gap, tool, gap2, json);
  }

  /** `!shorthand`, blanks, a tool name, blanks and one line of
      `key=value` text. */
  lemma ShorthandArguments(m: string, gap: string, tool: string, gap2: string, text: string)
    requires m == "!shorthand" + gap + tool + gap2 + text
    requires gap != [] && AllSpace(gap) && tool != [] && NoSpace(tool) && gap2 != [] && AllSpace(gap2)
    requires text != [] && !IsSpace(text[0]) && NoNewline(text)
    ensures ShorthandCommand(m) == ParsedCommand(Shorthand, [tool], [("args", JObj(ShorthandArgs(text)))], m)
  {
    CommandGroups(m, "!shorthand", gap, tool, gap2, text);
  }

  /** A command word followed by blanks, a token, blanks and one line: the
      `\s+(\S+)\s+(.+)$` groups after the word. */
  lemma CommandGroups(m: string, word: string, gap: string, tool: string, gap2: string, rest: string)
    requires m == word + gap + tool + gap2 + rest
    requires gap != [] && AllSpace(gap) && tool != [] && NoSpace(tool) && gap2 != [] && AllSpace(gap2)
    requires rest != [] && !IsSpace(rest[0]) && NoNewline(rest)
    ensures IsPrefix(word, m) && WsTokenWsRest(m[|word|..]) == Some((tool, rest))
  {
    var tail := gap + tool + gap2 + rest;
    assert m == word + tail;
    PrefixOfConcat(word, tail);
    assert m[|word|..] == tail;
    WsTokenWsRestParts(gap, tool, gap2, rest);
  }

  // ---------------------------------------------------------------- connect

  /** The options the flag scan records from position `i` on: `--token` and
      `--token-env-var` each take the next token; anything else, and a flag
      with nothing after it, is skipped. */
  function ConnectScan(tokens: seq<string>, i: nat): Dict
    decreases |tokens| - i
  {
    if i >= |tokens| then []
    else if tokens[i] == "--token" && i + 1 < |tokens| then
      [("token", JStr(tokens[i + 1]))] + ConnectScan(tokens, i + 2)
    else if tokens[i] == "--token-env-var" && i + 1 < |tokens| then
      [("token_env_var", JStr(tokens[i + 1]))] + ConnectScan(tokens, i + 2)
    else ConnectScan(tokens, i + 1)
  }

  /** The keyword arguments of a connect command whose split arguments
      are `tokens` (the first one is the URL and is not scanned). */
  function ConnectOptions(tokens: seq<string>): Dict {
    PutAll([], ConnectScan(tokens, 1))
  }

  /** The flag loop of `_parse_connect_command`. */
  method ScanConnectOptions(tokens: seq<string>) returns (kwargs: Dict)
    ensures kwargs == ConnectOptions(tokens)
  {
    kwargs := [];
    var i := 1;
    while i < |tokens|
      invariant 1 <= i
      invariant PutAll(kwargs, ConnectScan(tokens, i)) == ConnectOptions(tokens)
      decreases |tokens| - i
    {
      if tokens[i] == "--token" && i + 1 < |tokens| {
        kwargs := Put(kwargs, "token", JStr(tokens[i + 1]));
        i := i + 2;
      } else if tokens[i] == "--token-env-var" && i + 1 < |tokens| {
        kwargs := Put(kwargs, "token_env_var", JStr(tokens[i + 1]));
        i := i + 2;
      } else {
        i := i + 1;
      }
    }
  }

  /** The flag that records option `key`. */
  function FlagFor(key: string): string {
    if key == "token" then "--token" else "--token-env-var"
  }

  /** Every recorded option is `token` or `token_env_var`, and its value is
      the token right after an occurrence of the matching flag at or after
      position `i`. */
  lemma {:induction false} ConnectScanFromFlags(tokens: seq<string>, i: nat)
    ensures forall n :: 0 <= n < |ConnectScan(tokens, i)| ==>
      var (k, v) := ConnectScan(tokens, i)[n];
      (k == "token" || k == "token_env_var") && v.JStr?
      && exists j :: i <= j && j + 1 < |tokens| && tokens[j] == FlagFor(k) && tokens[j + 1] == v.s
    decreases |tokens| - i
  {
    if i < |tokens| {
      if (tokens[i] == "--token" || tokens[i] == "--token-env-var") && i + 1 < |tokens| {
        ConnectScanFromFlags(tokens, i + 2);
        var s := ConnectScan(tokens, i);
        forall n | 0 <= n < |s|
          ensures var (k, v) := s[n];
            (k == "token" || k == "token_env_var") && v.JStr?
            && exists j :: i <= j && j + 1 < |tokens| && tokens[j] == FlagFor(k) && tokens[j + 1] == v.s
        {
          if n == 0 {
            var j := i;
            assert tokens[j] == FlagFor(s[n].0) && tokens[j + 1] == s[n].1.s;
          } else {
            assert s[n] == ConnectScan(tokens, i + 2)[n - 1];
          }
        }
      } else {
        ConnectScanFromFlags(tokens, i + 1);
      }
    }
  }

  /** A connect command's options: only the two known keys, each holding
      the token after its flag, the last recorded occurrence winning. */
  lemma ConnectOptionsFromFlags(tokens: seq<string>, k: string)
    ensures Get(ConnectOptions(tokens), k) == LastFor(ConnectScan(tokens, 1), k)
    ensures Get(ConnectOptions(tokens), k).Some? ==>
      (k == "token" || k == "token_env_var")
      && exists j :: 1 <= j && j + 1 < |tokens| && tokens[j] == FlagFor(k) && Get(ConnectOptions(tokens), k) == Some(JStr(tokens[j + 1]))
  {
    PutAllGet([], ConnectScan(tokens, 1), k);
    ConnectScanFromFlags(tokens, 1);
    LastForIsPair(ConnectScan(tokens, 1), k);
  }

  /** The value `LastFor` finds belongs to some pair with that key. */
  lemma {:induction false} LastForIsPair(pairs: Dict, k: string)
    ensures LastFor(pairs, k).Some? ==> exists n :: 0 <= n < |pairs| && pairs[n] == (k, LastFor(pairs, k).value)
  {
    if pairs != [] {
      LastForIsPair(pairs[1..], k);
      if LastFor(pairs[1..], k).Some? {
        var n :| 0 <= n < |pairs[1..]| && pairs[1..][n] == (k, LastFor(pairs[1..], k).value);
        assert pairs[n + 1] == pairs[1..][n];
      }
    }
  }

  /** Examples: a later `--token` overrides an earlier one, and a trailing
      flag with no value is ignored. */
  lemma ConnectExamples()
    ensures ConnectOptions(["u", "--token", "a", "--token", "b"]) == [("token", JStr("b"))]
    ensures ConnectOptions(["u", "x", "--token-env-var", "V", "--token"]) == [("token_env_var", JStr("V"))]
  {
    assert ConnectScan(["u", "--token", "a", "--token", "b"], 1) == [("token", JStr("a")), ("token", JStr("b"))];
    assert ConnectScan(["u", "x", "--token-env-var", "V", "--token"], 1) == [("token_env_var", JStr("V"))];
  }

  /** `_parse_connect_command`, on a message whose first word is `!connect`. */
  function ConnectCommand(lib: Library, m: string): ParsedCommand {
    if !IsPrefix("!connect", m) then UnknownCommand(m)
    else
      match WsDotPlusEnd(m[8..])
      case None => UnknownCommand(m)
      case Some(text) =>
        match lib.shlexSplit(text)
        case None => UnknownCommand(m)
        case Some(tokens) =>
          ParsedCommand(Connect, [if tokens != [] then tokens[0] else ""], ConnectOptions(tokens), m)
  }

  method ParseConnectCommand(lib: Library, m: string) returns (c: ParsedCommand)
    ensures c == ConnectCommand(lib, m)
  {
    if !IsPrefix("!connect", m) {
      return UnknownCommand(m);
    }
    var text := WsDotPlusEnd(m[8..]);
    if text.None? {
      return UnknownCommand(m);
    }
    var tokens := lib.shlexSplit(text.value);
    if tokens.None? {
      return UnknownCommand(m);
    }
    var url := if tokens.value != [] then tokens.value[0] else "";
    var kwargs := ScanConnectOptions(tokens.value);
    c := ParsedCommand(Connect, [url], kwargs, m);
  }

  // ------------------------------------------------------------------- call

  /** `_parse_call_command`. */
  function CallCommand(lib: Library, m: string): Outcome<ParsedCommand> {
    if !IsPrefix("!call", m) then Returned(UnknownCommand(m))
    else
      match WsTokenWsRest(m[5..])
      case None => Returned(UnknownCommand(m))
      case Some((tool, jsonText)) =>
        match lib.jsonLoads(jsonText)
        case None => Returned(ParsedCommand(Unknown, [], [("error", JStr("Invalid JSON arguments"))], m))
        case Some(JObj(d)) => Returned(ParsedCommand(Call, [tool], [("args", JObj(d))], m))
        case Some(_) => Raised(PyError(ValueError, "Arguments must be a JSON object"))
  }

  // -------------------------------------------------------------- shorthand

  /** End of the run of word characters starting at `p`. */
  function WordRun(s: string, p: nat): (q: nat)
    requires p <= |s|
    ensures p <= q <= |s|
    ensures forall i :: p <= i < q ==> IsWordChar(s[i])
    ensures q < |s| ==> !IsWordChar(s[q])
    decreases |s| - p
  {
    if p < |s| && IsWordChar(s[p]) then WordRun(s, p + 1) else p
  }

  /** Position of the first `c` at or after `p`, or `|s|` when there is none. */
  function FindChar(s: string, c: char, p: nat): (q: nat)
    requires p <= |s|
    ensures p <= q <= |s|
    ensures q < |s| ==> s[q] == c
    ensures forall i :: p <= i < q ==> s[i] != c
    decreases |s| - p
  {
    if p == |s| || s[p] == c then p else FindChar(s, c, p + 1)
  }

  /** End of the run of non-blank characters starting at `p`. */
  function NonSpaceRun(s: string, p: nat): (q: nat)
    requires p <= |s|
    ensures p <= q <= |s|
    ensures forall i :: p <= i < q ==> !IsSpace(s[i])
    ensures q < |s| ==> IsSpace(s[q])
    decreases |s| - p
  {
    if p < |s| && !IsSpace(s[p]) then NonSpaceRun(s, p + 1) else p
  }

  /** One attempt of `(\w+)=(?:"([^"]*)"|('[^']*')|([^\s]*))` at position
      `p`: the key, the first group that took part, and where the match ends. */
  function MatchKeyValue(s: string, p: nat): (r: Option<(string, string, nat)>)
    requires p <= |s|
    ensures r.Some? ==> p < r.value.2 <= |s|
    ensures r.Some? ==> r.value.0 != "" && forall i :: 0 <= i < |r.value.0| ==> IsWordChar(r.value.0[i])
  {
    var q := WordRun(s, p);
    if q == p || q == |s| || s[q] != '=' then None
    else
      var v := q + 1;
      var key := s[p..q];
      if v < |s| && s[v] == '"' && FindChar(s, '"', v + 1) < |s| then
        var c := FindChar(s, '"', v + 1);
        Some((key, s[v + 1..c], c + 1))
      else if v < |s| && s[v] == '\'' && FindChar(s, '\'', v + 1) < |s| then
        var c := FindChar(s, '\'', v + 1);
        Some((key, s[v..c + 1], c + 1))
      else
        var e := NonSpaceRun(s, v);
        Some((key, s[v..e], e))
  }

  /** `re.finditer` of the key=value pattern from position `p`: the raw
      (key, value) of each match, left to right, without overlaps. */
  function KeyValueMatches(s: string, p: nat): (ms: seq<(string, string)>)
    requires p <= |s|
    ensures forall n :: 0 <= n < |ms| ==> ms[n].0 != "" && forall i :: 0 <= i < |ms[n].0| ==> IsWordChar(ms[n].0[i])
    decreases |s| - p
  {
    if p == |s| then []
    else
      match MatchKeyValue(s, p)
      case Some((k, v, e)) => [(k, v)] + KeyValueMatches(s, e)
      case None => KeyValueMatches(s, p + 1)
  }

  /** Drops one pair of matching outer quotes (`value[1:-1]`). */
  function StripQuotes(v: string): (r: string)
    ensures |r| <= |v|
    ensures r != v ==> |v| >= 1 && (v[0] == '"' || v[0] == '\'') && v[0] == v[|v| - 1]
  {
    if |v| >= 1 && ((v[0] == '"' && v[|v| - 1] == '"') || (v[0] == '\'' && v[|v| - 1] == '\'')) then
      if |v| >= 2 then v[1..|v| - 1] else ""
    else v
  }

  /** The leading digits of `s`. */
  function DigitRun(s: string): (n: nat)
    ensures n <= |s|
    ensures forall i :: 0 <= i < n ==> IsDigit(s[i])
    ensures n < |s| ==> !IsDigit(s[n])
  {
    if s != [] && IsDigit(s[0]) then 1 + DigitRun(s[1..]) else 0
  }

  /** `-?\d+\.\d+` matching all of `s`. */
  predicate IsDecimalText(s: string) {
    var t := if s != [] && s[0] == '-' then s[1..] else s;
    var k := DigitRun(t);
    0 < k < |t| && t[k] == '.' && IsDigits(t[k + 1..])
  }

  /** `re.match(r'^-?\d+\.\d+$', s)`; `$` also accepts a final newline. */
  predicate IsFloatText(s: string) {
    IsDecimalText(s) || (s != [] && s[|s| - 1] == '\n' && IsDecimalText(s[..|s| - 1]))
  }

  /** The type conversion of a shorthand value. */
  function Coerce(v: string): (r: Json)
    ensures r.JStr? || r.JInt? || r.JFloat? || r.JBool?
    ensures r.JStr? ==> r.s == v
    ensures r.JInt? ==> IsDigits(v)
    ensures r.JFloat? ==> r.text == v
    ensures IsDigits(v) ==> r == JInt(DecimalValue(v))
    ensures IsFloatText(v) ==> r == JFloat(v)
    ensures Lower(v) == "true" || Lower(v) == "false" ==> r == JBool(Lower(v) == "true")
    ensures !IsDigits(v) && !IsFloatText(v) && Lower(v) != "true" && Lower(v) != "false" ==> r == JStr(v)
  {
    CoerceClassesDisjoint(v);
    if IsDigits(v) then JInt(DecimalValue(v))
    else if IsFloatText(v) then JFloat(v)
    else if Lower(v) == "true" then JBool(true)
    else if Lower(v) == "false" then JBool(false)
    else JStr(v)
  }

  /** The argument dict entries, in match order, before merging. */
  function ShorthandPairs(s: string): (d: Dict)
    ensures |d| == |KeyValueMatches(s, 0)|
  {
    var ms := KeyValueMatches(s, 0);
    seq(|ms|, n requires 0 <= n < |ms| => (ms[n].0, Coerce(StripQuotes(ms[n].1))))
  }

  /** The argument dict of a shorthand command. */
  function ShorthandArgs(s: string): Dict {
    PutAll([], ShorthandPairs(s))
  }

  /** The `finditer` loop of `_parse_shorthand_command`. */
  method CollectShorthandArgs(s: string) returns (d: Dict)
    ensures d == ShorthandArgs(s)
  {
    var matches := KeyValueMatches(s, 0);
    ghost var pairs := ShorthandPairs(s);
    d := [];
    var i := 0;
    while i < |matches|
      invariant 0 <= i <= |matches| == |pairs|
      invariant PutAll(d, pairs[i..]) == ShorthandArgs(s)
    {
      var (key, value) := matches[i];
      value := StripQuotes(value);
      assert pairs[i] == (key, Coerce(value));
      assert pairs[i..][1..] == pairs[i + 1..];
      d := Put(d, key, Coerce(value));
      i := i + 1;
    }
    assert pairs[i..] == [];
  }

  /** Every key of a shorthand dict is a non-empty run of word characters,
      and a key given more than once keeps its last value. */
  lemma ShorthandKeys(s: string, k: string)
    ensures Get(ShorthandArgs(s), k) == LastFor(ShorthandPairs(s), k)
    ensures Get(ShorthandArgs(s), k).Some? ==> k != "" && forall i :: 0 <= i < |k| ==> IsWordChar(k[i])
  {
    PutAllGet([], ShorthandPairs(s), k);
    LastForIsPair(ShorthandPairs(s), k);
  }

  /** Quoting does not keep a value a string: `k="5"` gives the integer 5. */
  lemma QuotedDigitsBecomeInt(d: string)
    requires IsDigits(d)
    ensures Coerce(StripQuotes("\"" + d + "\"")) == JInt(DecimalValue(d))
    ensures Coerce(StripQuotes("'" + d + "'")) == JInt(DecimalValue(d))
  {
    assert ("\"" + d + "\"")[1..|d| + 1] == d;
    assert ("'" + d + "'")[1..|d| + 1] == d;
  }

  /** A negative integer is not converted: `k=-5` stays the string "-5". */
  lemma NegativeIntegerStaysString(d: string)
    requires IsDigits(d)
    ensures Coerce(StripQuotes("-" + d)) == JStr("-" + d)
  {
    var v := "-" + d;
    assert v[0] == '-';
    assert StripQuotes(v) == v;
    assert !IsDigits(v);
    assert !IsDecimalText(v) by {
      assert v[1..] == d;
      DigitRunAll(d);
    }
    assert !IsFloatText(v) by { assert v[|v| - 1] == d[|d| - 1]; }
    assert Lower(v) != "true" && Lower(v) != "false" by { assert Lower(v)[0] == '-'; }
  }

  lemma {:induction false} DigitRunAll(d: string)
    requires forall i :: 0 <= i < |d| ==> IsDigit(d[i])
    ensures DigitRun(d) == |d|
  {
    if d != [] {
      DigitRunAll(d[1..]);
    }
  }

  /** The four kinds a value can take are told apart by disjoint tests:
      a decimal is never a digit string, and a boolean word (in any letter
      case) is neither. */
  lemma CoerceClassesDisjoint(v: string)
    ensures IsFloatText(v) ==> !IsDigits(v)
    ensures Lower(v) == "true" || Lower(v) == "false" ==> !IsDigits(v) && !IsFloatText(v)
  {
    if IsDigits(v) {
      assert v[0] != '-';
      assert !IsDecimalText(v) by { DigitRunAll(v); }
      assert v[|v| - 1] != '\n' by { assert IsDigit(v[|v| - 1]); }
    }
    if Lower(v) == "true" || Lower(v) == "false" {
      assert !IsDigit(v[0]) && v[0] != '-' by { assert LowerChar(v[0]) == Lower(v)[0]; }
      assert !IsDecimalText(v);
      assert v[|v| - 1] != '\n' by { assert LowerChar(v[|v| - 1]) == Lower(v)[|v| - 1]; }
    }
  }

  lemma {:induction false} WordRunTo(s: string, p: nat, q: nat)
    requires p <= q <= |s|
    requires forall i :: p <= i < q ==> IsWordChar(s[i])
    requires q < |s| ==> !IsWordChar(s[q])
    ensures WordRun(s, p) == q
    decreases q - p
  {
    if p < q {
      WordRunTo(s, p + 1, q);
    }
  }

  lemma {:induction false} FindCharAt(s: string, c: char, p: nat, q: nat)
    requires p <= q < |s| && s[q] == c
    requires forall i :: p <= i < q ==> s[i] != c
    ensures FindChar(s, c, p) == q
    decreases q - p
  {
    if p < q {
      FindCharAt(s, c, p + 1, q);
    }
  }

  /** A lone `key="value"` argument: the double quotes are removed, and the
      text between them (after losing a further pair of single quotes, if it
      has one) still goes through the type conversion. */
  lemma ShorthandDoubleQuoted(k: string, v: string)
    requires k != [] && forall i :: 0 <= i < |k| ==> IsWordChar(k[i])
    requires forall i :: 0 <= i < |v| ==> v[i] != '"'
    ensures ShorthandArgs(k + "=\"" + v + "\"") == [(k, Coerce(StripQuotes(v)))]
  {
    var s := k + "=\"" + v + "\"";
    var c := |k| + 2 + |v|;
    assert s[|k|] == '=';
    WordRunTo(s, 0, |k|);
    FindCharAt(s, '"', |k| + 2, c);
    assert s[..|k|] == k;
    assert s[|k| + 2..c] == v;
    assert MatchKeyValue(s, 0) == Some((k, v, c + 1));
    assert KeyValueMatches(s, 0) == [(k, v)];
    assert ShorthandPairs(s) == [(k, Coerce(StripQuotes(v)))];
    assert PutAll([], ShorthandPairs(s)) == PutAll([(k, Coerce(StripQuotes(v)))], []);
  }

  /** `_parse_shorthand_command`. */
  function ShorthandCommand(m: string): ParsedCommand {
    if !IsPrefix("!shorthand", m) then UnknownCommand(m)
    else
      match WsTokenWsRest(m[10..])
      case None => UnknownCommand(m)
      case Some((tool, text)) => ParsedCommand(Shorthand, [tool], [("args", JObj(ShorthandArgs(text)))], m)
  }

  method ParseShorthandCommand(m: string) returns (c: ParsedCommand)
    ensures c == ShorthandCommand(m)
  {
    if !IsPrefix("!shorthand", m) {
      return UnknownCommand(m);
    }
    var groups := WsTokenWsRest(m[10..]);
    if groups.None? {
      return UnknownCommand(m);
    }
    var (tool, text) := groups.value;
    var args := CollectShorthandArgs(text);
    c := ParsedCommand(Shorthand, [tool], [("args", JObj(args))], m);
  }

  // ---------------------------------------------------------- help, schema

  /** `_parse_help_command`. */
  function HelpCommand(m: string): ParsedCommand {
    if !IsPrefix("!help", m) then UnknownCommand(m)
    else
      match OptWsTokenEnd(m[5..])
      case None => UnknownCommand(m)
      case Some(None) => ParsedCommand(Help, [], [], m)
      case Some(Some(name)) => ParsedCommand(Help, [name], [], m)
  }

  /** `_parse_schema_command`. */
  function SchemaCommand(m: string): ParsedCommand {
    if !IsPrefix("!schema", m) then UnknownCommand(m)
    else
      match WsTokenEnd(m[7..])
      case None => UnknownCommand(m)
      case Some(tool) => ParsedCommand(Schema, [tool], [], m)
  }
}
