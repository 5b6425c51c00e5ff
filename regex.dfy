/** The few regular-expression shapes the command grammars use, each matched
    at the start of a string (Python's `re.match`) with the backtracking
    semantics of Python's engine spelled out: `\s` and `\S` split on
    `Text.IsSpace`, `.` is any character but a newline, and `$` matches at
    the end of the text or just before a final newline. */
module Regex {
  import opened Text
  import opened Options

  /** `$` at the current position. */
  predicate AtEnd(s: string) { s == "" || s == "\n" }

  /** What `(.+)$` may capture when matched at the start of `s`. */
  predicate DotPlusEndCaptures(s: string, g: string) {
    g != "" && NoNewline(g)
    && (s == g || (|s| == |g| + 1 && s[..|g|] == g && s[|g|] == '\n'))
  }

  /** `(.+)$` at the start of `s`: the captured group, if it matches. */
  function DotPlusEnd(s: string): (g: Option<string>)
    ensures forall t {:trigger DotPlusEndCaptures(s, t)} :: DotPlusEndCaptures(s, t) <==> g == Some(t)
  {
    if s != "" && NoNewline(s) then Some(s)
    else if |s| > 1 && s[|s| - 1] == '\n' && NoNewline(s[..|s| - 1]) then
      assert !NoNewline(s);
      Some(s[..|s| - 1])
    else None
  }

  /** `\s+(.+)$`: `\s+` first takes all `LeadWs(s)` blanks and gives them
      back one at a time until the rest matches. */
  function WsDotPlusEnd(s: string): Option<string> {
    WsDotPlusEndFrom(s, LeadWs(s))
  }

  function WsDotPlusEndFrom(s: string, k: nat): Option<string>
    requires k <= LeadWs(s)
    decreases k
  {
    if k == 0 then None
    else if DotPlusEnd(s[k..]).Some? then DotPlusEnd(s[k..])
    else WsDotPlusEndFrom(s, k - 1)
  }

  /** On text with a non-blank remainder free of newlines, `\s+(.+)$`
      captures everything after the leading blanks. */
  lemma WsDotPlusEndPlain(s: string)
    requires 0 < LeadWs(s) < |s| && NoNewline(s[LeadWs(s)..])
    ensures WsDotPlusEnd(s) == Some(s[LeadWs(s)..])
  {
    assert DotPlusEndCaptures(s[LeadWs(s)..], s[LeadWs(s)..]);
  }

  /** `\s+(\S+)` at the start of `s`: the token and where it ends. Only the
      greedy split can succeed when something other than `\S` must follow. */
  function WsToken(s: string): (r: Option<(string, nat)>)
    ensures r.Some? ==> r.value.1 <= |s| && r.value.0 != "" && NoSpace(r.value.0)
    ensures r.Some? ==> r.value.1 == |s| || IsSpace(s[r.value.1])
  {
    var n := LeadWs(s);
    var m := LeadNonWs(s[n..]);
    if n == 0 || m == 0 then None
    else
      assert s[n..n + m] == s[n..][..m];
      Some((s[n..n + m], n + m))
  }

  /** `\s+(\S+)\s+(.+)$`: the two captured groups. */
  function WsTokenWsRest(s: string): Option<(string, string)> {
    match WsToken(s)
    case None => None
    case Some((tok, e)) =>
      match WsDotPlusEnd(s[e..])
      case None => None
      case Some(rest) => Some((tok, rest))
  }

  /** `\s+(\S+)$`: the captured group. */
  function WsTokenEnd(s: string): Option<string> {
    match WsToken(s)
    case None => None
    case Some((tok, e)) => if AtEnd(s[e..]) then Some(tok) else None
  }

  /** `(?:\s+(\S+))?$`: `Some(Some(tok))` when the optional part is taken,
      `Some(None)` when only `$` matches, `None` when nothing matches. */
  function OptWsTokenEnd(s: string): Option<Option<string>> {
    match WsTokenEnd(s)
    case Some(tok) => Some(Some(tok))
    case None => if AtEnd(s) then Some(None) else None
  }

  /** On text without trailing blanks, `\s+(\S+)$` matches exactly when the
      text is blanks followed by one blank-free word, and captures that word. */
  lemma WsTokenEndTrimmed(s: string)
    requires s == [] || !IsSpace(s[|s| - 1])
    ensures WsTokenEnd(s) == if 0 < LeadWs(s) < |s| && NoSpace(s[LeadWs(s)..]) then Some(s[LeadWs(s)..]) else None
  {
    var n := LeadWs(s);
    if n == 0 {
    } else if n == |s| {
      assert s[n..] == [];
    } else {
      WsTokenEndWord(s);
    }
  }

  lemma WsTokenEndWord(s: string)
    requires s == [] || !IsSpace(s[|s| - 1])
    requires 0 < LeadWs(s) < |s|
    ensures WsTokenEnd(s) == if NoSpace(s[LeadWs(s)..]) then Some(s[LeadWs(s)..]) else None
  {
    var n := LeadWs(s);
    var e := WsTokenSplit(s);
    WsTokenEndAt(s, s[n..e], e);
    if e < |s| {
      assert !NoSpace(s[n..]) by { assert IsSpace(s[n..][e - n]); }
      assert !AtEnd(s[e..]) by {
        assert e != |s| - 1;
        assert |s[e..]| >= 2;
      }
    } else {
      assert s[n..e] == s[n..];
      assert AtEnd(s[e..]) by { assert s[e..] == []; }
    }
  }

  /** `\s+(\S+)$` once the token and its end are known. */
  lemma WsTokenEndAt(s: string, tok: string, e: nat)
    requires WsToken(s) == Some((tok, e))
    ensures WsTokenEnd(s) == if AtEnd(s[e..]) then Some(tok) else None
  {
  }

  /** Where `\s+(\S+)` ends on text with a non-blank after its leading blanks. */
  lemma WsTokenSplit(s: string) returns (e: nat)
    requires 0 < LeadWs(s) < |s|
    ensures e == LeadWs(s) + LeadNonWs(s[LeadWs(s)..]) && LeadWs(s) < e <= |s|
    ensures WsToken(s) == Some((s[LeadWs(s)..e], e))
    ensures e < |s| ==> IsSpace(s[e])
  {
    var n := LeadWs(s);
    var t := s[n..];
    var m := LeadNonWs(t);
    assert t[0] == s[n];
    e := n + m;
    assert s[n..e] == t[..m];
    if e < |s| {
      assert t[m] == s[e];
    }
  }

  /** `\s+(.+)$` on blanks followed by a single line: the line. */
  lemma WsDotPlusEndParts(gap: string, rest: string)
    requires gap != [] && AllSpace(gap)
    requires rest != [] && !IsSpace(rest[0]) && NoNewline(rest)
    ensures WsDotPlusEnd(gap + rest) == Some(rest)
  {
    LeadWsOf(gap, rest);
    assert (gap + rest)[|gap|..] == rest;
    WsDotPlusEndPlain(gap + rest);
  }

  /** `\s+(\S+)` on blanks, a word and then a blank or the end. */
  lemma WsTokenParts(gap: string, word: string, after: string)
    requires gap != [] && AllSpace(gap) && word != [] && NoSpace(word)
    requires after == [] || IsSpace(after[0])
    ensures WsToken(gap + word + after) == Some((word, |gap| + |word|))
  {
    var rest := word + after;
    var s := gap + rest;
    assert WsToken(s) == Some((word, |gap| + |word|)) by {
      assert rest[0] == word[0];
      LeadWsOf(gap, rest);
      DropGap(gap, rest);
      LeadNonWsOf(word, after);
      WsTokenAt(s, |gap|, |word|);
      TakeWord(gap, word, after);
    }
    SplitAssoc(gap, word, after);
  }

  // Small sequence facts, kept apart so that each is proved in a context
  // free of the blank/word quantifiers.

  lemma SplitAssoc(a: string, b: string, c: string)
    ensures a + b + c == a + (b + c)
  {
  }

  lemma DropGap(a: string, b: string)
    ensures (a + b)[|a|..] == b
  {
  }

  lemma TakeWord(a: string, b: string, c: string)
    ensures (a + (b + c))[|a|..|a| + |b|] == b
  {
  }

  /** `\s+(\S+)` once the lengths of the blank run and the word are known. */
  lemma WsTokenAt(s: string, n: nat, m: nat)
    requires 0 < n && 0 < m && n + m <= |s|
    requires LeadWs(s) == n && LeadNonWs(s[n..]) == m
    ensures WsToken(s) == Some((s[n..n + m], n + m))
  {
    var r := WsToken(s);
    assert r.Some?;
    assert r.value.1 == n + m;
    assert r.value.0 == s[n..n + m];
  }

  /** `\s+(\S+)$` on blanks followed by one word: that word. */
  lemma WsTokenEndParts(gap: string, word: string)
    requires gap != [] && AllSpace(gap) && word != [] && NoSpace(word)
    ensures WsTokenEnd(gap + word) == Some(word)
  {
    WsTokenParts(gap, word, []);
    assert gap + word + [] == gap + word;
    assert (gap + word)[|gap| + |word|..] == [];
  }

  /** `\s+(\S+)\s+(.+)$` on blanks, a word, blanks and a single line: the
      word and the line. */
  lemma WsTokenWsRestParts(gap: string, word: string, gap2: string, rest: string)
    requires gap != [] && AllSpace(gap) && word != [] && NoSpace(word)
    requires gap2 != [] && AllSpace(gap2)
    requires rest != [] && !IsSpace(rest[0]) && NoNewline(rest)
    ensures WsTokenWsRest(gap + word + gap2 + rest) == Some((word, rest))
  {
    var s := gap + word + gap2 + rest;
    assert s == gap + word + (gap2 + rest);
    WsTokenParts(gap, word, gap2 + rest);
    assert s[|gap| + |word|..] == gap2 + rest;
    WsDotPlusEndParts(gap2, rest);
  }
}
