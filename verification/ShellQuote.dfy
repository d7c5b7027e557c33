/** Quoting of a command for the guest's shell, and the shell's own reading of it.

    `Lex` recognises the words of one command line by sections 2.2.1 (escape character), 2.2.2
    (single quotes) and 2.3 (token recognition) of the Shell Command Language of POSIX.1-2017. Any
    other character with a meaning to the shell, met outside quotes, makes it give up, so a line that
    lexes is a line in which nothing is expanded, substituted or interpreted.
 */
module ShellQuote {
  import opened Wrappers

  const EXIT_MARKER := "__KSR_EXIT__"

  // ---- The shell's side ----

  predicate IsBlank(c: char) { c == ' ' || c == '\t' }

  /** Characters that quote, expand, separate, redirect or match; section 2.2, first paragraph. */
  predicate IsSpecial(c: char) {
    c in "|&;<>()$`\"*?[#~=%!{}"
  }

  datatype LexState =
    | Between                                // no word begun
    | Unquoted(word: string)                 // inside a word
    | Quoted(word: string)                   // inside single quotes
    | Escaped(word: string, begun: bool)     // after a backslash

  function Next(st: LexState, c: char): Option<LexState> {
    match st
    case Quoted(w) => Some(if c == '\'' then Unquoted(w) else Quoted(w + [c]))
    case Escaped(w, begun) =>
      if c == '\n' then Some(if begun then Unquoted(w) else Between) else Some(Unquoted(w + [c]))
    case Between => InWord("", false, c)
    case Unquoted(w) => InWord(w, true, c)
  }

  function InWord(w: string, begun: bool, c: char): Option<LexState> {
    if IsBlank(c) then Some(Between)
    else if c == '\'' then Some(Quoted(w))
    else if c == '\\' then Some(Escaped(w, begun))
    else if IsSpecial(c) then None
    else Some(Unquoted(w + [c]))
  }

  /** Reading `c` in `st` ends a word. */
  predicate EndsWord(st: LexState, c: char) {
    st.Unquoted? && IsBlank(c)
  }

  predicate EndsLine(st: LexState, c: char) {
    c == '\n' && (st.Between? || st.Unquoted?)
  }

  /** The words of the command line `s`, up to and including its closing newline. */
  function Lex(st: LexState, s: string): Option<seq<string>>
    decreases |s|
  {
    if s == [] then None
    else if EndsLine(st, s[0]) then
      if |s| > 1 then None else Some(if st.Unquoted? then [st.word] else [])
    else
      match Next(st, s[0])
      case None => None
      case Some(st') => if EndsWord(st, s[0]) then Prepend(st.word, Lex(st', s[1..])) else Lex(st', s[1..])
  }

  function Prepend(w: string, ws: Option<seq<string>>): Option<seq<string>> {
    match ws
    case None => None
    case Some(words) => Some([w] + words)
  }

  lemma {:induction false} LexStep(st: LexState, c: char, rest: string)
    requires !EndsLine(st, c) && Next(st, c).Some? && !EndsWord(st, c)
    ensures Lex(st, [c] + rest) == Lex(Next(st, c).value, rest)
  {
    assert ([c] + rest)[1..] == rest;
  }

  lemma {:induction false} LexSpace(w: string, rest: string)
    ensures Lex(Unquoted(w), " " + rest) == Prepend(w, Lex(Between, rest))
  {
    assert (" " + rest)[1..] == rest;
  }

  // ---- The tool's side ----

  /** The inside of the quotes: a quote leaves them, escapes itself and enters them again. */
  function Body(arg: string): string {
    if arg == [] then [] else (if arg[0] == '\'' then "'\\''" else [arg[0]]) + Body(arg[1..])
  }

  function Escape(arg: string): string {
    if arg == [] then "''" else "'" + Body(arg) + "'"
  }

  lemma {:induction false} BodySnoc(a: string, c: char)
    ensures Body(a + [c]) == Body(a) + (if c == '\'' then "'\\''" else [c])
  {
    if a == [] {
      assert a + [c] == [c];
      assert [c][1..] == [];
    } else {
      assert (a + [c])[1..] == a[1..] + [c];
      BodySnoc(a[1..], c);
    }
  }

  method ShellEscapeArg(arg: string) returns (escaped: string)
    ensures escaped == Escape(arg)
  {
    if arg == [] { return "''"; }
    escaped := "'";
    for k := 0 to |arg|
      invariant escaped == "'" + Body(arg[..k])
    {
      assert arg[..k + 1] == arg[..k] + [arg[k]];
      BodySnoc(arg[..k], arg[k]);
      if arg[k] == '\'' { escaped := escaped + "'\\''"; } else { escaped := escaped + [arg[k]]; }
    }
    assert arg[..|arg|] == arg;
    escaped := escaped + "'";
  }

  function Wrapper(token: string): string {
    "\"$@\"; rc=$?; printf '%s:%s:%s\\n' '" + EXIT_MARKER + "' '" + token + "' \"$rc\"; exit \"$rc\""
  }

  function Joined(command: seq<string>): string
    requires command != []
  {
    if |command| == 1 then Escape(command[0]) else Escape(command[0]) + " " + Joined(command[1..])
  }

  function Payload(command: seq<string>, token: string): Option<string> {
    if command == [] then None
    else Some("exec sh -c " + Escape(Wrapper(token)) + " 'sh' " + Joined(command) + "\n")
  }

  // ---- Reading back what was quoted ----

  /** Leaving the quotes, an escaped quote, entering them again: one literal quote. */
  lemma {:induction false} LexQuote(w: string, tail: string)
    ensures Lex(Quoted(w), "'\\''" + tail) == Lex(Quoted(w + ['\'']), tail)
  {
    var q := '\'';
    assert "'\\''" + tail == [q] + (['\\'] + ([q] + ([q] + tail)));
    LexStep(Quoted(w), q, ['\\'] + ([q] + ([q] + tail)));
    LexStep(Unquoted(w), '\\', [q] + ([q] + tail));
    LexStep(Escaped(w, true), q, [q] + tail);
    LexStep(Unquoted(w + [q]), q, tail);
  }

  lemma {:induction false} LexBody(w: string, arg: string, rest: string)
    ensures Lex(Quoted(w), Body(arg) + ("'" + rest)) == Lex(Unquoted(w + arg), rest)
    decreases |arg|
  {
    if arg == [] {
      assert Body(arg) + ("'" + rest) == ['\''] + rest && w + arg == w;
      LexStep(Quoted(w), '\'', rest);
    } else {
      var c, more := arg[0], Body(arg[1..]) + ("'" + rest);
      LexBody(w + [c], arg[1..], rest);
      assert w + [c] + arg[1..] == w + arg;
      BodyHead(arg, "'" + rest);
      if c == '\'' { LexQuote(w, more); } else { LexStep(Quoted(w), c, more); }
    }
  }

  lemma {:induction false} BodyHead(arg: string, rest: string)
    requires arg != []
    ensures Body(arg) + rest == (if arg[0] == '\'' then "'\\''" else [arg[0]]) + (Body(arg[1..]) + rest)
  {}

  lemma {:induction false} LexEscaped(arg: string, rest: string)
    ensures Lex(Between, Escape(arg) + rest) == Lex(Unquoted(arg), rest)
  {
    EscapeHead(arg, rest);
    LexStep(Between, '\'', Body(arg) + ("'" + rest));
    LexBody("", arg, rest);
    assert "" + arg == arg;
  }

  lemma {:induction false} EscapeHead(arg: string, rest: string)
    ensures Escape(arg) + rest == ['\''] + (Body(arg) + ("'" + rest))
  {}

  lemma {:induction false} LexEscapedWord(arg: string, rest: string)
    ensures Lex(Between, Escape(arg) + (" " + rest)) == Prepend(arg, Lex(Between, rest))
  {
    LexEscaped(arg, " " + rest);
    LexSpace(arg, rest);
  }

  lemma {:induction false} LexJoined(command: seq<string>)
    requires command != []
    ensures Lex(Between, Joined(command) + "\n") == Some(command)
  {
    if |command| == 1 {
      LexEscaped(command[0], "\n");
      assert command == [command[0]];
    } else {
      var more := Joined(command[1..]) + "\n";
      assert Joined(command) + "\n" == Escape(command[0]) + (" " + more);
      LexEscapedWord(command[0], more);
      LexJoined(command[1..]);
      assert command == [command[0]] + command[1..];
    }
  }

  predicate Plain(s: string) {
    forall i :: 0 <= i < |s| ==> s[i] != '\'' && s[i] != '\\' && s[i] != '\n' && !IsBlank(s[i]) && !IsSpecial(s[i])
  }

  lemma {:induction false} LexPlain(st: LexState, w: string, s: string, rest: string)
    requires Plain(s) && (st == Unquoted(w) || (st.Between? && w == "" && s != []))
    ensures Lex(st, s + rest) == Lex(Unquoted(w + s), rest)
    decreases |s|
  {
    if s == [] {
      assert s + rest == rest && w + s == w;
    } else {
      assert s + rest == [s[0]] + (s[1..] + rest);
      LexStep(st, s[0], s[1..] + rest);
      LexPlain(Unquoted(w + [s[0]]), w + [s[0]], s[1..], rest);
      assert w + [s[0]] + s[1..] == w + s;
    }
  }

  lemma {:induction false} LexWord(s: string, rest: string)
    requires s != [] && Plain(s)
    ensures Lex(Between, s + (" " + rest)) == Prepend(s, Lex(Between, rest))
  {
    LexPlain(Between, "", s, " " + rest);
    assert "" + s == s;
    LexSpace(s, rest);
  }

  /** For every non-empty argument vector and every token, the guest's shell reads the payload as
      exactly these words: the arguments arrive unchanged, whatever quotes, blanks, newlines or
      nothing at all they consist of. An empty vector is refused. */
  lemma {:induction false} PayloadKeepsArguments(command: seq<string>, token: string)
    ensures Payload(command, token).None? <==> command == []
    ensures command != [] ==>
              Lex(Between, Payload(command, token).value) == Some(["exec", "sh", "-c", Wrapper(token), "sh"] + command)
  {
    if command != [] {
      PayloadShape(command, Wrapper(token), token);
      LexJoined(command);
      LexQuotedWords(Wrapper(token), Joined(command) + "\n", command);
      LexPlainWords(Escape(Wrapper(token)) + (" " + (Escape("sh") + (" " + (Joined(command) + "\n")))),
                    [Wrapper(token)] + (["sh"] + command));
      assert ["exec", "sh", "-c"] + ([Wrapper(token)] + (["sh"] + command)) ==
             ["exec", "sh", "-c", Wrapper(token), "sh"] + command;
    }
  }

  lemma {:induction false} LexQuotedWords(wrapper: string, rest: string, words: seq<string>)
    requires Lex(Between, rest) == Some(words)
    ensures Lex(Between, Escape(wrapper) + (" " + (Escape("sh") + (" " + rest)))) == Some([wrapper] + (["sh"] + words))
  {
    LexEscapedWord("sh", rest);
    LexEscapedWord(wrapper, Escape("sh") + (" " + rest));
  }

  lemma {:induction false} LexPlainWords(rest: string, words: seq<string>)
    requires Lex(Between, rest) == Some(words)
    ensures Lex(Between, "exec" + (" " + ("sh" + (" " + ("-c" + (" " + rest)))))) == Some(["exec", "sh", "-c"] + words)
  {
    PlainWord("-c", rest, words);
    PlainWord("sh", "-c" + (" " + rest), ["-c"] + words);
    PlainWord("exec", "sh" + (" " + ("-c" + (" " + rest))), ["sh"] + (["-c"] + words));
    assert ["exec"] + (["sh"] + (["-c"] + words)) == ["exec", "sh", "-c"] + words;
  }

  lemma {:induction false} PlainWord(s: string, rest: string, words: seq<string>)
    requires s == "exec" || s == "sh" || s == "-c"
    requires Lex(Between, rest) == Some(words)
    ensures Lex(Between, s + (" " + rest)) == Some([s] + words)
  {
    LexWord(s, rest);
  }

  lemma {:induction false} PayloadShape(command: seq<string>, wrapper: string, token: string)
    requires command != [] && wrapper == Wrapper(token)
    ensures Payload(command, token).value ==
            "exec" + (" " + ("sh" + (" " + ("-c" + (" " + (Escape(wrapper) + (" " + (Escape("sh") + (" " + (Joined(command) + "\n"))))))))))
  {
    assert Escape("sh") == "'sh'" by { assert Body("sh") == "sh"; }
    Reassociate(Escape(wrapper), Escape("sh"), Joined(command));
  }

  lemma {:induction false} Reassociate(a: string, b: string, c: string)
    requires b == "'sh'"
    ensures "exec sh -c " + a + " 'sh' " + c + "\n" ==
            "exec" + (" " + ("sh" + (" " + ("-c" + (" " + (a + (" " + (b + (" " + (c + "\n"))))))))))
  {
    assert "exec sh -c " == "exec" + (" " + ("sh" + (" " + ("-c" + " "))));
    assert " 'sh' " == " " + (b + " ");
    var tail := c + "\n";
    assert a + " 'sh' " + c + "\n" == a + (" " + (b + (" " + tail)));
  }

  /** `build_exec_payload`. */
  method BuildExecPayload(command: seq<string>, token: string) returns (r: Option<string>)
    ensures r == Payload(command, token)
  {
    if command == [] { return None; }
    var escaped := EscapeAll(command);
    var wrapper := ShellEscapeArg(Wrapper(token));
    return Some("exec sh -c " + wrapper + " 'sh' " + escaped + "\n");
  }

  method EscapeAll(command: seq<string>) returns (escaped: string)
    requires command != []
    ensures escaped == Joined(command)
  {
    escaped := ShellEscapeArg(command[0]);
    assert command[..1] == [command[0]];
    for k := 1 to |command|
      invariant escaped == Joined(command[..k])
    {
      var one := ShellEscapeArg(command[k]);
      JoinedNext(command, k);
      escaped := escaped + " " + one;
    }
    assert command[..|command|] == command;
  }

  lemma {:induction false} JoinedNext(command: seq<string>, k: nat)
    requires 0 < k < |command|
    ensures Joined(command[..k + 1]) == Joined(command[..k]) + " " + Escape(command[k])
  {
    var front, next := command[..k], command[..k + 1];
    assert next == front + [command[k]];
    assert front != [] && next != [];
    JoinedSnoc(front, command[k]);
  }

  lemma {:induction false} JoinedSnoc(a: seq<string>, x: string)
    requires a != []
    ensures Joined(a + [x]) == Joined(a) + " " + Escape(x)
  {
    var b := a + [x];
    assert b[0] == a[0] && |b| > 1;
    if |a| == 1 {
      assert b[1..] == [x];
    } else {
      assert b[1..] == a[1..] + [x];
      JoinedSnoc(a[1..], x);
      CatSpaced(Escape(a[0]), Joined(a[1..]), Escape(x));
    }
  }

  lemma {:induction false} CatSpaced(a: string, b: string, c: string)
    ensures a + " " + (b + " " + c) == a + " " + b + " " + c
  {}
}
