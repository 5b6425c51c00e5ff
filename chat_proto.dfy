/** The natural-language front end of the chat protocol: a text message is
    stripped, matched case-insensitively against an ordered list of anchored
    phrases, and either rewritten into one `!` command for the agent or
    answered with a list of examples. */
module ChatProtocol {
  import opened Options
  import opened Text
  import opened Regex

  /** What the protocol does with one text message. */
  datatype Reaction =
    | Forward(command: string)   // passed to the agent's `process_message`
    | Reply(text: string)        // sent straight back

  const ExamplesMessage :=
    "I didn't understand that command. Here are some examples of what you can say:\n\n"
    + "- list tools\n"
    + "- call tool_name {\"param\": \"value\"}\n"
    + "- schema tool_name\n"
    + "- status\n"
    + "- help\n"
    + "- disconnect"

  /** A pattern's literal head `word` (lower-case) matched at the start of
      `s` under `re.IGNORECASE`: what follows it. */
  function AfterWord(word: string, s: string): (r: Option<string>)
    ensures r.Some? ==> |word| <= |s| && r.value == s[|word|..]
  {
    if |word| <= |s| && Lower(s[..|word|]) == word then Some(s[|word|..]) else None
  }

  /** `^word$`. */
  predicate Exactly(word: string, s: string) {
    AfterWord(word, s).Some? && AtEnd(AfterWord(word, s).value)
  }

  /** `^call\s+(\S+)\s+(.+)$`: the tool name and the argument text. */
  function CallMatch(s: string): Option<(string, string)> {
    match AfterWord("call", s)
    case None => None
    case Some(rest) => WsTokenWsRest(rest)
  }

  /** `^help(?:\s+(\S+))?$`: `Some(None)` for a bare `help`. */
  function HelpMatch(s: string): Option<Option<string>> {
    match AfterWord("help", s)
    case None => None
    case Some(rest) => OptWsTokenEnd(rest)
  }

  /** `^schema\s+(\S+)$`: the tool name. */
  function SchemaMatch(s: string): Option<string> {
    match AfterWord("schema", s)
    case None => None
    case Some(rest) => WsTokenEnd(rest)
  }

  /** The text branch of `handle_chat_message`: the stripped text and its
      lower-cased copy are matched. */
  function Rewrite(message: string): (r: Reaction)
    ensures r.Forward? ==> IsPrefix("!", r.command)
    ensures r.Reply? ==> r.text == ExamplesMessage
  {
    Recognise(Strip(message), Lower(Strip(message)))
  }

  /** Patterns are tried on `lower` in the order disconnect, list, call,
      status, help, schema; call and schema take their groups from the
      original `text` again so that tool names and arguments keep their
      case. */
  function Recognise(text: string, lower: string): (r: Reaction)
    ensures r.Forward? ==> IsPrefix("!", r.command)
    ensures r.Reply? ==> r.text == ExamplesMessage
  {
    if Exactly("disconnect", lower) then Forward("!disconnect")
    else if Exactly("list tools", lower) then Forward("!list")
    else if CallMatch(lower).Some? then
      var groups := if CallMatch(text).Some? then CallMatch(text).value else CallMatch(lower).value;
      Forward("!call " + Strip(groups.0) + " " + Strip(groups.1))
    else if Exactly("status", lower) then Forward("!status")
    else if HelpMatch(lower).Some? then
      var name := HelpMatch(lower).value;
      Forward(if name.Some? && name.value != "" then "!help " + name.value else "!help")
    else if SchemaMatch(lower).Some? then
      var tool := if SchemaMatch(text).Some? then SchemaMatch(text).value else SchemaMatch(lower).value;
      Forward("!schema " + Strip(tool))
    else Reply(ExamplesMessage)
  }

  // ---------------------------------------------------------------- lemmas

  /** A text whose character `i` differs from the pattern's head does not
      match that head. */
  lemma NotWord(word: string, s: string, i: nat)
    requires i < |word| && i < |s| && LowerChar(s[i]) != word[i]
    ensures AfterWord(word, s).None?
  {
    if |word| <= |s| {
      assert Lower(s[..|word|])[i] == LowerChar(s[i]);
    }
  }

  /** A head that lower-cases to `word` is matched in the original text and
      in its lower-cased copy. */
  lemma HeadWord(word: string, head: string, tail: string)
    requires Lower(head) == word
    ensures AfterWord(word, head + tail) == Some(tail)
    ensures AfterWord(word, Lower(head + tail)) == Some(Lower(tail))
  {
    assert (head + tail)[..|head|] == head;
    LowerConcat(head, tail);
    assert Lower(head + tail)[..|head|] == word;
    assert Lower(word) == word;
  }

  /** Lower-casing keeps blanks blank, words blank-free and lines single. */
  lemma LowerShape(s: string)
    ensures AllSpace(s) ==> AllSpace(Lower(s))
    ensures NoSpace(s) ==> NoSpace(Lower(s))
    ensures NoNewline(s) ==> NoNewline(Lower(s))
    ensures s != [] ==> (IsSpace(Lower(s)[0]) <==> IsSpace(s[0]))
  {
  }

  /** The three bare phrases are recognised whatever their case and
      surrounding blanks. */
  lemma PhraseRewrites(message: string)
    ensures Lower(Strip(message)) == "disconnect" ==> Rewrite(message) == Forward("!disconnect")
    ensures Lower(Strip(message)) == "list tools" ==> Rewrite(message) == Forward("!list")
    ensures Lower(Strip(message)) == "status" ==> Rewrite(message) == Forward("!status")
  {
    var text := Strip(message);
    var lower := Lower(text);
    if lower == "disconnect" {
      WholeWord("disconnect", text);
    } else if lower == "list tools" {
      NotWord("disconnect", lower, 0);
      WholeWord("list tools", text);
    } else if lower == "status" {
      NotWord("disconnect", lower, 0);
      NotWord("list tools", lower, 0);
      NotWord("call", lower, 0);
      WholeWord("status", text);
    }
  }

  /** A text that lower-cases to a phrase matches that phrase exactly. */
  lemma WholeWord(word: string, text: string)
    requires Lower(text) == word
    ensures Exactly(word, Lower(text))
  {
    var lower := Lower(text);
    LowerIdempotent(text);
    assert lower[..|word|] == lower;
    assert lower[|word|..] == [];
  }

  /** Example: `list` on its own is not a phrase of the protocol. */
  lemma BareListNotRecognised()
    ensures Rewrite("list") == Reply(ExamplesMessage)
  {
    StripStripped("list");
    var lower := Lower("list");
    assert lower == "list";
    NoPhrase("list", lower, 'l', 'i');
  }

  /** A text whose first two characters begin no phrase gets the examples
      back. */
  lemma NoPhrase(text: string, lower: string, c0: char, c1: char)
    requires |lower| >= 2 && lower[0] == c0 && lower[1] == c1
    requires LowerChar(c0) == c0 && LowerChar(c1) == c1
    requires c0 != 'd' && c0 != 's' && c0 != 'h'
    requires c0 == 'l' ==> |lower| < |"list tools"|
    requires c0 == 'c' ==> c1 != 'a'
    ensures Recognise(text, lower) == Reply(ExamplesMessage)
  {
    assert !Exactly("disconnect", lower) by { NotWord("disconnect", lower, 0); }
    assert !Exactly("list tools", lower) by {
      if c0 != 'l' {
        NotWord("list tools", lower, 0);
      }
    }
    assert CallMatch(lower).None? by {
      if c0 != 'c' { NotWord("call", lower, 0); } else { NotWord("call", lower, 1); }
    }
    assert !Exactly("status", lower) by { NotWord("status", lower, 0); }
    assert HelpMatch(lower).None? by { NotWord("help", lower, 0); }
    assert SchemaMatch(lower).None? by { NotWord("schema", lower, 0); }
  }

  /** No phrase begins with `connect`, so connecting cannot be asked for in
      plain words. */
  lemma ConnectNotRecognised(message: string)
    requires IsPrefix("connect", Lower(Strip(message)))
    ensures Rewrite(message) == Reply(ExamplesMessage)
  {
    var lower := Lower(Strip(message));
    assert lower[0] == 'c' && lower[1] == 'o' by { assert lower[..7] == "connect"; }
    NoPhrase(Strip(message), lower, 'c', 'o');
  }

  /** The call branch, once the earlier phrases are ruled out. */
  lemma RecogniseCall(text: string, lower: string, tool: string, args: string)
    requires !Exactly("disconnect", lower) && !Exactly("list tools", lower)
    requires CallMatch(lower).Some? && CallMatch(text) == Some((tool, args))
    ensures Recognise(text, lower) == Forward("!call " + Strip(tool) + " " + Strip(args))
  {
  }

  /** The schema branch, once the earlier phrases are ruled out. */
  lemma RecogniseSchema(text: string, lower: string, tool: string)
    requires !Exactly("disconnect", lower) && !Exactly("list tools", lower) && CallMatch(lower).None?
    requires !Exactly("status", lower) && HelpMatch(lower).None?
    requires SchemaMatch(lower).Some? && SchemaMatch(text) == Some(tool)
    ensures Recognise(text, lower) == Forward("!schema " + Strip(tool))
  {
  }

  /** The help branch, once the earlier phrases are ruled out. */
  lemma RecogniseHelp(text: string, lower: string, name: Option<string>)
    requires !Exactly("disconnect", lower) && !Exactly("list tools", lower) && CallMatch(lower).None?
    requires !Exactly("status", lower) && HelpMatch(lower) == Some(name)
    ensures Recognise(text, lower) == Forward(if name.Some? && name.value != "" then "!help " + name.value else "!help")
  {
  }

  /** A stripped text that starts with `head` lower-casing to `word`: the
      text rewritten is the text itself, and its lower-cased copy starts
      with `word`. */
  lemma StrippedHead(head: string, tail: string, word: string)
    requires Lower(head) == word && word != [] && !IsSpace(word[0])
    requires tail == [] || !IsSpace(tail[|tail| - 1])
    requires tail == [] ==> !IsSpace(word[|word| - 1])
    ensures Rewrite(head + tail) == Recognise(head + tail, Lower(head + tail))
    ensures Lower(head + tail)[..|word|] == word
  {
    var text := head + tail;
    assert LowerChar(head[0]) == word[0];
    assert text[0] == head[0];
    if tail == [] {
      assert text == head;
      assert LowerChar(head[|head| - 1]) == word[|word| - 1];
    } else {
      assert text[|text| - 1] == tail[|tail| - 1];
    }
    StripStripped(text);
    LowerConcat(head, tail);
  }

  /** `call <tool> <args>` is forwarded with the tool name and the argument
      text exactly as typed. */
  lemma CallKeepsCase(head: string, gap: string, tool: string, gap2: string, args: string)
    requires Lower(head) == "call"
    requires gap != [] && AllSpace(gap) && tool != [] && NoSpace(tool)
    requires gap2 != [] && AllSpace(gap2)
    requires args != [] && !IsSpace(args[0]) && !IsSpace(args[|args| - 1]) && NoNewline(args)
    ensures Rewrite(head + gap + tool + gap2 + args) == Forward("!call " + tool + " " + args)
  {
    var tail := gap + tool + gap2 + args;
    assert head + tail == head + gap + tool + gap2 + args;
    assert tail[|tail| - 1] == args[|args| - 1];
    StrippedHead(head, tail, "call");
    var text := head + tail;
    var lower := Lower(text);
    assert !Exactly("disconnect", lower) by { NotWord("disconnect", lower, 0); }
    assert !Exactly("list tools", lower) by { NotWord("list tools", lower, 0); }
    assert CallMatch(text) == Some((tool, args)) by {
      HeadWord("call", head, tail);
      WsTokenWsRestParts(gap, tool, gap2, args);
    }
    assert CallMatch(lower).Some? by {
      HeadWord("call", head, tail);
      assert Lower(tail) == Lower(gap) + Lower(tool) + Lower(gap2) + Lower(args) by {
        LowerConcat(gap, tool);
        LowerConcat(gap + tool, gap2);
        LowerConcat(gap + tool + gap2, args);
      }
      LowerShape(gap);
      LowerShape(tool);
      LowerShape(gap2);
      LowerShape(args);
      WsTokenWsRestParts(Lower(gap), Lower(tool), Lower(gap2), Lower(args));
    }
    StripStripped(tool);
    StripStripped(args);
    RecogniseCall(text, lower, tool, args);
  }

  /** Blanks and a word lower-case to blanks and a word. */
  lemma LowerGapWord(gap: string, word: string)
    requires gap != [] && AllSpace(gap) && word != [] && NoSpace(word)
    ensures Lower(gap + word) == Lower(gap) + Lower(word)
    ensures Lower(gap) != [] && AllSpace(Lower(gap)) && Lower(word) != [] && NoSpace(Lower(word))
  {
    LowerConcat(gap, word);
    LowerShape(gap);
    LowerShape(word);
  }

  /** A lower-cased text starting `schema` misses every phrase before it. */
  lemma MissesBeforeSchema(lower: string)
    requires |lower| >= 6 && lower[..6] == "schema"
    ensures !Exactly("disconnect", lower) && !Exactly("list tools", lower) && CallMatch(lower).None?
    ensures !Exactly("status", lower) && HelpMatch(lower).None?
  {
    assert lower[0] == lower[..6][0] && lower[1] == lower[..6][1];
    NotWord("disconnect", lower, 0);
    NotWord("list tools", lower, 0);
    NotWord("call", lower, 0);
    NotWord("status", lower, 1);
    NotWord("help", lower, 0);
  }

  /** A lower-cased text starting `h` misses every phrase before help. */
  lemma MissesBeforeHelp(lower: string)
    requires |lower| >= 1 && lower[0] == 'h'
    ensures !Exactly("disconnect", lower) && !Exactly("list tools", lower) && CallMatch(lower).None?
    ensures !Exactly("status", lower)
  {
    NotWord("disconnect", lower, 0);
    NotWord("list tools", lower, 0);
    NotWord("call", lower, 0);
    NotWord("status", lower, 0);
  }

  /** `^schema\s+(\S+)$` captures the tool name from the text as typed and
      matches its lower-cased copy too. */
  lemma SchemaGroups(head: string, gap: string, tool: string)
    requires Lower(head) == "schema"
    requires gap != [] && AllSpace(gap) && tool != [] && NoSpace(tool)
    ensures SchemaMatch(head + (gap + tool)) == Some(tool)
    ensures SchemaMatch(Lower(head + (gap + tool))).Some?
  {
    HeadWord("schema", head, gap + tool);
    WsTokenEndParts(gap, tool);
    LowerGapWord(gap, tool);
    WsTokenEndParts(Lower(gap), Lower(tool));
  }

  /** `schema <tool>` is forwarded with the tool name as typed. */
  lemma SchemaKeepsCase(head: string, gap: string, tool: string)
    requires Lower(head) == "schema"
    requires gap != [] && AllSpace(gap) && tool != [] && NoSpace(tool)
    ensures Rewrite(head + gap + tool) == Forward("!schema " + tool)
  {
    var tail := gap + tool;
    assert head + gap + tool == head + tail;
    assert tail[|tail| - 1] == tool[|tool| - 1];
    StrippedHead(head, tail, "schema");
    var text := head + tail;
    var lower := Lower(text);
    MissesBeforeSchema(lower);
    SchemaGroups(head, gap, tool);
    assert Strip(tool) == tool by { StripStripped(tool); }
    RecogniseSchema(text, lower, tool);
  }

  /** `help <word>` is forwarded with the word lower-cased. */
  lemma HelpWordRewrites(head: string, gap: string, word: string)
    requires Lower(head) == "help"
    requires gap != [] && AllSpace(gap) && word != [] && NoSpace(word)
    ensures Rewrite(head + gap + word) == Forward("!help " + Lower(word))
  {
    var tail := gap + word;
    assert head + gap + word == head + tail;
    assert tail[|tail| - 1] == word[|word| - 1];
    StrippedHead(head, tail, "help");
    var text := head + tail;
    var lower := Lower(text);
    assert lower[..4][0] == 'h';
    MissesBeforeHelp(lower);
    HeadWord("help", head, tail);
    LowerGapWord(gap, word);
    WsTokenEndParts(Lower(gap), Lower(word));
    RecogniseHelp(text, lower, Some(Lower(word)));
  }

  /** A bare `help`, in any case, is forwarded as `!help`. */
  lemma BareHelpRewrites(head: string)
    requires Lower(head) == "help"
    ensures Rewrite(head) == Forward("!help")
  {
    StrippedHead(head, [], "help");
    assert head + [] == head;
    var lower := Lower(head);
    MissesBeforeHelp(lower);
    HeadWord("help", head, []);
    assert Lower([]) == [];
    RecogniseHelp(head, lower, None);
  }
}
