/** The command line handed to the remote login shell (src/bootstrap.rs:10-46), read back by
    the word-splitting rules of a POSIX shell. */
module ShellQuote {
  import opened Basics

  // ---------------------------------------------------------------- the shell's side

  /** The characters that section 2.2 (quoting) lists as special to the shell, always or under
      certain circumstances. */
  predicate Special(c: char) {
    || c == '|' || c == '&' || c == ';' || c == '<' || c == '>' || c == '(' || c == ')' || c == '$' || c == '`'
    || c == '\\' || c == '"' || c == '\'' || c == ' ' || c == '\t' || c == '\n'
    || c == '*' || c == '?' || c == '[' || c == '#' || c == '~' || c == '=' || c == '%'
  }

  function Extend(word: Option<string>, c: char): string {
    (if word.Some? then word.value else "") + [c]
  }

  function Delimit(word: Option<string>, rest: Option<seq<string>>): Option<seq<string>> {
    if word.None? || rest.None? then rest else Some([word.value] + rest.value)
  }

  /** The words of a simple command, after quote removal, by sections 2.2.1 (escape character),
      2.2.2 (single quotes) and 2.3 (token recognition) of the Shell Command Language in IEEE
      Std 1003.1-2017. `word` is the word being read, if one has begun. None when a quote is
      left open, or at an unquoted character that may be an operator or cause an expansion. */
  function Scan(text: string, word: Option<string>, quoted: bool): (words: Option<seq<string>>)
    decreases |text|
  {
    if text == "" then (if quoted then None else Delimit(word, Some([])))
    else
      var c, rest := text[0], text[1..];
      if quoted then
        if c == '\'' then Scan(rest, word, false) else Scan(rest, Some(Extend(word, c)), true)
      else if c == ' ' || c == '\t' then Delimit(word, Scan(rest, None, false))
      else if c == '\'' then Scan(rest, Some(if word.Some? then word.value else ""), true)
      else if c == '\\' then
        if rest == "" then None
        else if rest[0] == '\n' then Scan(rest[1..], word, false)
        else Scan(rest[1..], Some(Extend(word, rest[0])), false)
      else if Special(c) then None
      else Scan(rest, Some(Extend(word, c)), false)
  }

  function Tokens(text: string): Option<seq<string>> {
    Scan(text, None, false)
  }

  // ---------------------------------------------------------------- the client's side

  function Escape(value: string): string {
    if value == "" then ""
    else if value[0] == '\'' then "'\\''" + Escape(value[1..])
    else [value[0]] + Escape(value[1..])
  }

  /** Left unquoted by the client. */
  predicate Plain(c: char) {
    'a' <= c <= 'z' || 'A' <= c <= 'Z' || '0' <= c <= '9' || c == '.' || c == '/' || c == '_' || c == '-'
  }

  predicate AllPlain(value: string) {
    forall i :: 0 <= i < |value| ==> Plain(value[i])
  }

  function Quote(value: string): string {
    if AllPlain(value) then value else "'" + (Escape(value) + "'")
  }

  /** Each word after a space. */
  function Spaced(words: seq<string>): string {
    if words == [] then "" else " " + (Quote(words[0]) + Spaced(words[1..]))
  }

  function Useful(term: string): bool {
    term != "" && term != "dumb"
  }

  const DEFAULT_TERM := "xterm-256color"

  /** `terminal_type_from_env`. */
  function TerminalType(env: Option<string>): (term: string)
    ensures term != "" && term != "dumb"
    ensures env.Some? && env.value != "" && env.value != "dumb" ==> term == env.value
    ensures env.None? || !Useful(env.value) ==> term == "xterm-256color"
  {
    if env.Some? && Useful(env.value) then env.value else DEFAULT_TERM
  }

  function NonEmpty(words: seq<string>): seq<string> {
    if words == [] then []
    else if words[0] == "" then NonEmpty(words[1..])
    else [words[0]] + NonEmpty(words[1..])
  }

  // ---------------------------------------------------------------- round trip

  lemma {:induction false} PlainScans(value: string, word: string, tail: string)
    requires AllPlain(value)
    ensures Scan(value + tail, Some(word), false) == Scan(tail, Some(word + value), false)
    decreases |value|
  {
    if value == "" {
      assert value + tail == tail && word + value == word;
    } else {
      PlainScans(value[1..], word + [value[0]], tail);
      assert (value + tail)[1..] == value[1..] + tail;
      assert word + [value[0]] + value[1..] == word + value;
    }
  }

  lemma {:induction false} EscapeScans(value: string, word: string, tail: string)
    ensures Scan(Escape(value) + ("'" + tail), Some(word), true) == Scan(tail, Some(word + value), false)
    decreases |value|
  {
    var text := Escape(value) + ("'" + tail);
    if value == "" {
      assert text == "'" + tail && text[1..] == tail && word + value == word;
    } else {
      var c, rest := value[0], Escape(value[1..]) + ("'" + tail);
      EscapeScans(value[1..], word + [c], tail);
      assert word + [c] + value[1..] == word + value;
      if c == '\'' {
        QuoteEscapeScans(word, rest);
        assert text == "'\\''" + rest;
      } else {
        assert text[1..] == rest;
      }
    }
  }

  /** A quote inside quotes: close, an escaped quote, open again. */
  lemma QuoteEscapeScans(word: string, rest: string)
    ensures Scan("'\\''" + rest, Some(word), true) == Scan(rest, Some(word + "'"), true)
  {
    var t0, t1, t2, t3 := "'\\''" + rest, "\\''" + rest, "''" + rest, "'" + rest;
    assert t0[1..] == t1 && t1[1..] == t2 && t2[1..] == t3 && t3[1..] == rest;
    assert Scan(t0, Some(word), true) == Scan(t1, Some(word), false);
    assert Scan(t1, Some(word), false) == Scan(t3, Some(Extend(Some(word), '\'')), false);
    assert Scan(t3, Some(word + "'"), false) == Scan(rest, Some(word + "'"), true);
  }

  lemma PlainWordScans(value: string, tail: string)
    requires AllPlain(value) && value != ""
    ensures Scan(value + tail, None, false) == Scan(tail, Some(value), false)
  {
    var first := [value[0]];
    assert (value + tail)[1..] == value[1..] + tail;
    assert Extend(None, value[0]) == first;
    assert Scan(value + tail, None, false) == Scan(value[1..] + tail, Some(first), false);
    PlainScans(value[1..], first, tail);
    assert first + value[1..] == value;
  }

  lemma QuotedWordScans(value: string, tail: string)
    ensures Scan("'" + (Escape(value) + "'") + tail, None, false) == Scan(tail, Some(value), false)
  {
    var text := "'" + (Escape(value) + "'") + tail;
    assert text[1..] == Escape(value) + ("'" + tail);
    assert Scan(text, None, false) == Scan(Escape(value) + ("'" + tail), Some(""), true);
    EscapeScans(value, "", tail);
    assert "" + value == value;
  }

  /** Where a word may begin, a quoted value reads as that value; an empty one is not there. */
  lemma QuoteScans(value: string, tail: string)
    ensures Scan(Quote(value) + tail, None, false) == Scan(tail, if value == "" then None else Some(value), false)
  {
    if value == "" {
      assert Quote(value) + tail == tail;
    } else if AllPlain(value) {
      PlainWordScans(value, tail);
    } else {
      QuotedWordScans(value, tail);
    }
  }

  lemma {:induction false} SpacedScans(words: seq<string>, word: Option<string>)
    ensures Scan(Spaced(words), word, false) == Delimit(word, Some(NonEmpty(words)))
    decreases |words|
  {
    if words != [] {
      var rest := Spaced(words[1..]);
      assert Spaced(words)[1..] == Quote(words[0]) + rest;
      QuoteScans(words[0], rest);
      SpacedScans(words[1..], if words[0] == "" then None else Some(words[0]));
    }
  }

  /** Any command line that begins with a word and lists quoted words reads back as exactly
      the non-empty ones. */
  lemma CommandScans(first: string, words: seq<string>)
    ensures Tokens(Quote(first) + Spaced(words)) == Some(NonEmpty([first] + words))
  {
    QuoteScans(first, Spaced(words));
    SpacedScans(words, if first == "" then None else Some(first));
    assert ([first] + words)[1..] == words;
  }

  lemma {:induction false} NonEmptyIff(words: seq<string>)
    ensures |NonEmpty(words)| <= |words|
    ensures NonEmpty(words) == words <==> "" !in words
  {
    if words != [] {
      NonEmptyIff(words[1..]);
      assert words == [words[0]] + words[1..];
      if words[0] != "" && NonEmpty(words) == words {
        assert NonEmpty(words[1..]) == NonEmpty(words)[1..];
      }
    }
  }

  lemma Regroup(a: string, b: string, c: string, d: string, e: string)
    ensures a + (b + (c + d + e)) == a + (b + c) + d + e
  {
  }

  lemma {:induction false} SpacedSnoc(words: seq<string>, last: string)
    ensures Spaced(words + [last]) == Spaced(words) + " " + Quote(last)
    decreases |words|
  {
    var longer := words + [last];
    if words == [] {
      assert longer == [last] && longer[1..] == [];
    } else {
      SpacedSnoc(words[1..], last);
      assert longer[1..] == words[1..] + [last] && longer[0] == words[0];
      Regroup(" ", Quote(words[0]), Spaced(words[1..]), " ", Quote(last));
    }
  }

  // ---------------------------------------------------------------- the command line

  /** The options the command line always carries. */
  function Fixed(script: string, baseline: string, version: string, term: string): seq<string> {
    ["-c", script, "sh", baseline, "--client-version", version, "--term", term]
  }

  /** The `format!` that starts the command line. */
  function FixedText(script: string, baseline: string, version: string, term: string): string {
    "sh -c " + Quote(script) + " sh " + Quote(baseline) + " --client-version " + Quote(version)
    + " --term " + Quote(term)
  }

  lemma RegroupOption(s: string, blank: string, option: string, value: string)
    ensures s + blank + option + blank + value == s + (blank + option + blank) + value
  {
  }

  /** An option and its value, as the format string writes them. */
  lemma SpacedOption(words: seq<string>, option: string, value: string, separator: string)
    requires AllPlain(option) && separator == " " + option + " "
    ensures Spaced(words + [option] + [value]) == Spaced(words) + separator + Quote(value)
  {
    SpacedSnoc(words, option);
    SpacedSnoc(words + [option], value);
    RegroupOption(Spaced(words), " ", option, Quote(value));
  }

  lemma FourOptions(o1: string, v1: string, s1: string, o2: string, v2: string, s2: string,
                    o3: string, v3: string, s3: string, o4: string, v4: string, s4: string)
    requires AllPlain(o1) && AllPlain(o2) && AllPlain(o3) && AllPlain(o4)
    requires s1 == " " + o1 + " " && s2 == " " + o2 + " " && s3 == " " + o3 + " " && s4 == " " + o4 + " "
    ensures Spaced([o1, v1, o2, v2, o3, v3, o4, v4])
         == s1 + Quote(v1) + s2 + Quote(v2) + s3 + Quote(v3) + s4 + Quote(v4)
  {
    var w1 := [] + [o1] + [v1];
    var w2 := w1 + [o2] + [v2];
    var w3 := w2 + [o3] + [v3];
    SpacedOption([], o1, v1, s1);
    assert Spaced([]) + s1 == s1;
    SpacedOption(w1, o2, v2, s2);
    SpacedOption(w2, o3, v3, s3);
    SpacedOption(w3, o4, v4, s4);
    EightWords(o1, v1, o2, v2, o3, v3, o4, v4);
  }

  lemma EightWords(a: string, b: string, c: string, d: string, e: string, f: string, g: string, h: string)
    ensures [] + [a] + [b] + [c] + [d] + [e] + [f] + [g] + [h] == [a, b, c, d, e, f, g, h]
  {
  }

  lemma AfterCommandName(name: string, spaced: string, blank: string, last: string)
    ensures name + (spaced + blank + last) == name + spaced + blank + last
  {
  }

  lemma Prefixed(p: string, s: string, t: string,
                 a: string, b: string, c: string, d: string, e: string, f: string, g: string)
    requires t == p + s
    ensures p + (s + a + b + c + d + e + f + g) == t + a + b + c + d + e + f + g
  {
  }

  lemma OptionNames()
    ensures AllPlain("-c") && AllPlain("sh") && AllPlain("--client-version") && AllPlain("--term")
  {
  }

  lemma Separators()
    ensures " -c " == " " + "-c" + " " && " sh " == " " + "sh" + " " && "sh -c " == "sh" + " -c "
    ensures " --client-version " == " " + "--client-version" + " " && " --term " == " " + "--term" + " "
  {
  }

  lemma FixedPart(script: string, baseline: string, version: string, term: string)
    ensures FixedText(script, baseline, version, term) == "sh" + Spaced(Fixed(script, baseline, version, term))
  {
    OptionNames();
    Separators();
    FourOptions("-c", script, " -c ", "sh", baseline, " sh ",
                "--client-version", version, " --client-version ", "--term", term, " --term ");
    Prefixed("sh", " -c ", "sh -c ", Quote(script), " sh ", Quote(baseline), " --client-version ", Quote(version),
             " --term ", Quote(term));
  }

  /** The argument list that the command line is meant to convey. */
  function Intended(script: string, baseline: string, version: string, term: string, serverArgs: seq<string>)
    : (words: seq<string>)
    ensures |words| == 9 + |serverArgs| && words[9..] == serverArgs
    ensures words[0] == "sh" && words[1] == "-c" && words[2] == script && words[3] == "sh" && words[4] == baseline
    ensures words[5] == "--client-version" && words[6] == version && words[7] == "--term" && words[8] == term
  {
    ["sh"] + (Fixed(script, baseline, version, term) + serverArgs)
  }

  lemma IntendedIff(script: string, baseline: string, version: string, term: string, serverArgs: seq<string>)
    ensures var words := Intended(script, baseline, version, term, serverArgs);
      (NonEmpty(words) == words)
        <==> (script != "" && baseline != "" && version != "" && term != "" && "" !in serverArgs)
  {
    NonEmptyIff(Intended(script, baseline, version, term, serverArgs));
    var fixed := Fixed(script, baseline, version, term);
    assert fixed[1] == script && fixed[3] == baseline && fixed[5] == version && fixed[7] == term;
  }

  lemma CommandReads(command: string, fixed: seq<string>, serverArgs: seq<string>)
    requires command == Command(fixed, serverArgs, |serverArgs|)
    ensures Tokens(command) == Some(NonEmpty(["sh"] + (fixed + serverArgs)))
  {
    assert AllPlain("sh") && serverArgs[..|serverArgs|] == serverArgs;
    CommandScans("sh", fixed + serverArgs);
  }

  /** The command line after `i` server arguments. */
  function Command(fixed: seq<string>, serverArgs: seq<string>, i: nat): string
    requires i <= |serverArgs|
  {
    "sh" + Spaced(fixed + serverArgs[..i])
  }

  lemma CommandNext(fixed: seq<string>, serverArgs: seq<string>, i: nat)
    requires i < |serverArgs|
    ensures Command(fixed, serverArgs, i + 1) == Command(fixed, serverArgs, i) + " " + Quote(serverArgs[i])
  {
    SpacedSnoc(fixed + serverArgs[..i], serverArgs[i]);
    assert fixed + serverArgs[..i + 1] == fixed + serverArgs[..i] + [serverArgs[i]];
    AfterCommandName("sh", Spaced(fixed + serverArgs[..i]), " ", Quote(serverArgs[i]));
  }

  /** `remote_shell_command`: the remote shell sees the intended arguments, with every quote,
      blank and newline intact, if and only if none of them is empty. */
  method RemoteShellCommand(script: string, baseline: string, version: string, term: string, serverArgs: seq<string>)
    returns (command: string)
    ensures Tokens(command) == Some(NonEmpty(Intended(script, baseline, version, term, serverArgs)))
    ensures Tokens(command) == Some(Intended(script, baseline, version, term, serverArgs))
       <==> script != "" && baseline != "" && version != "" && term != "" && "" !in serverArgs
  {
    command := FixedText(script, baseline, version, term);
    ghost var fixed := Fixed(script, baseline, version, term);
    FixedPart(script, baseline, version, term);
    assert fixed + serverArgs[..0] == fixed;
    for i := 0 to |serverArgs|
      invariant command == Command(fixed, serverArgs, i)
    {
      CommandNext(fixed, serverArgs, i);
      command := command + " ";
      command := command + Quote(serverArgs[i]);
    }
    CommandReads(command, fixed, serverArgs);
    IntendedIff(script, baseline, version, term, serverArgs);
  }
}
