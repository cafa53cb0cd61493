/** The line-oriented prologue that precedes framing on the same byte stream
    (src/client.rs:1574-1626, src/bootstrap.rs:4-6).

    Lines are compared as bytes. The source converts each line with replacement characters
    for invalid UTF-8 first; since every marker is plain ASCII that conversion neither
    creates nor destroys a match. */
module Bootstrap {
  import opened Basics
  import opened Wire

  const LF: byte := 10
  const CR: byte := 13
  /** "OBI-" */
  const OBI: seq<byte> := [79, 66, 73, 45]
  /** "OBI-SERVER-READY" */
  const READY_MARKER: seq<byte> := OBI + [83, 69, 82, 86, 69, 82, 45, 82, 69, 65, 68, 89]
  /** "OBI-INSTALL-REQUIRED" */
  const INSTALL_REQUIRED_MARKER: seq<byte> :=
    OBI + [73, 78, 83, 84, 65, 76, 76, 45, 82, 69, 81, 85, 73, 82, 69, 68]
  /** "OBI-ERROR " */
  const ERROR_PREFIX: seq<byte> := OBI + [69, 82, 82, 79, 82, 32]

  datatype Verdict =
    | Ready
    | InstallDeclined
    | RemoteBootstrap(message: seq<byte>)
    | UnexpectedBootstrapEof
    | ReadBootstrap
    | WriteBootstrap
    | Prompt

  /** How the prologue ended, how many bytes it took, and how many install prompts were
      confirmed on the way. */
  datatype Boot = Boot(verdict: Verdict, consumed: nat, confirmed: nat)

  /** Bytes up to and including the first newline, or all of them. */
  function LineLength(rest: seq<byte>): (n: nat)
    ensures n <= |rest| && (rest != [] ==> 0 < n)
    ensures forall i :: 0 <= i < n - 1 ==> rest[i] != LF
    ensures n == |rest| || rest[n - 1] == LF
  {
    if rest == [] then 0
    else if rest[0] == LF then 1
    else 1 + LineLength(rest[1..])
  }

  predicate HasLine(rest: seq<byte>) {
    rest != [] && rest[LineLength(rest) - 1] == LF
  }

  function TrimEnd(line: seq<byte>): (trimmed: seq<byte>)
    ensures trimmed <= line
  {
    if line != [] && (line[|line| - 1] == LF || line[|line| - 1] == CR) then TrimEnd(line[..|line| - 1])
    else line
  }

  datatype Kind = ReadyLine | InstallLine | ErrorLine(message: seq<byte>) | OtherLine

  /** The tests applied to one trimmed line, in the order they are applied. */
  function Classify(line: seq<byte>): Kind {
    if line == READY_MARKER then ReadyLine
    else if line == INSTALL_REQUIRED_MARKER then InstallLine
    else if ERROR_PREFIX <= line then ErrorLine(line[|ERROR_PREFIX|..])
    else if OBI <= line then ErrorLine(line)
    else OtherLine
  }

  datatype Line = Line(bytes: seq<byte>) | NoLine | LineError

  function NextLine(rest: seq<byte>, ending: Ending): Line {
    if HasLine(rest) || (rest != [] && ending == Eof) then Line(rest[..LineLength(rest)])
    else if ending == Eof then NoLine
    else LineError
  }

  /** An install prompt is answered no, or yes with the reply reaching the remote side or not. */
  datatype Answer = No | Yes | YesUnsent

  datatype Reaction = Stop(verdict: Verdict) | Proceed(confirmed: nat)

  /** What the client does about one line; `answers` are the user's replies to install
      prompts, of which `confirmed` have been used up; past their end prompting fails. */
  function React(line: Line, answers: seq<Answer>, confirmed: nat): (r: Reaction)
    requires confirmed <= |answers|
    ensures r.Proceed? ==> line.Line? && confirmed <= r.confirmed <= |answers|
  {
    match line
    case NoLine => Stop(UnexpectedBootstrapEof)
    case LineError => Stop(ReadBootstrap)
    case Line(bytes) =>
      match Classify(TrimEnd(bytes))
      case ReadyLine => Stop(Ready)
      case ErrorLine(message) => Stop(RemoteBootstrap(message))
      case OtherLine => Proceed(confirmed)
      case InstallLine =>
        if confirmed == |answers| then Stop(Prompt)
        else match answers[confirmed]
          case Yes => Proceed(confirmed + 1)
          case YesUnsent => Stop(WriteBootstrap)
          case No => Stop(InstallDeclined)
  }

  /** The prologue on a stream that will deliver `rest`. */
  function Prologue(rest: seq<byte>, ending: Ending, answers: seq<Answer>, confirmed: nat := 0): (b: Boot)
    requires confirmed <= |answers|
    ensures b.consumed <= |rest|
    decreases |rest|
  {
    var n := LineLength(rest);
    match React(NextLine(rest, ending), answers, confirmed)
    case Stop(verdict) => Boot(verdict, n, confirmed)
    case Proceed(c) => Further(n, Prologue(rest[n..], ending, answers, c))
  }

  function Further(consumed: nat, b: Boot): Boot {
    b.(consumed := consumed + b.consumed)
  }

  // ---------------------------------------------------------------- the reader

  lemma {:induction false} LineLengthAt(rest: seq<byte>, i: nat)
    requires i < |rest| && rest[i] == LF && LF !in rest[..i]
    ensures LineLength(rest) == i + 1
  {
    if i > 0 {
      assert rest[0] in rest[..i];
      assert rest[1..][..i - 1] == rest[..i][1..];
      LineLengthAt(rest[1..], i - 1);
    }
  }

  lemma {:induction false} LineLengthWithout(rest: seq<byte>)
    requires LF !in rest
    ensures LineLength(rest) == |rest| && !HasLine(rest)
  {
    if rest != [] {
      LineLengthWithout(rest[1..]);
    }
  }

  lemma NewlineEndsLine(before: seq<byte>, after: seq<byte>, ending: Ending)
    requires LF !in before
    ensures var rest := before + [LF] + after;
      NextLine(rest, ending) == Line(before + [LF]) && LineLength(rest) == |before| + 1
  {
    var rest := before + [LF] + after;
    assert rest[..|before|] == before && rest[..|before| + 1] == before + [LF];
    LineLengthAt(rest, |before|);
  }

  lemma StreamEndsLine(bytes: seq<byte>, ending: Ending)
    requires LF !in bytes
    ensures LineLength(bytes) == |bytes|
    ensures NextLine(bytes, ending)
         == if ending == ReadError then LineError else if bytes == [] then NoLine else Line(bytes)
  {
    LineLengthWithout(bytes);
    assert bytes[..|bytes|] == bytes;
  }

  /** `read_line_lossy`: one byte per read call, so nothing past the newline is taken. */
  method ReadLine(stream: Stream) returns (line: Line)
    requires stream.Valid()
    modifies stream
    ensures stream.Valid()
    ensures line == NextLine(old(stream.Rest()), stream.ending)
    ensures stream.pos == old(stream.pos) + LineLength(old(stream.Rest()))
  {
    var bytes: seq<byte> := [];
    ghost var start, rest := stream.pos, stream.Rest();
    while true
      invariant stream.Valid()
      invariant rest == bytes + stream.Rest() && stream.pos == start + |bytes|
      invariant LF !in bytes
      decreases |stream.Rest()|
    {
      ghost var pending := stream.Rest();
      var c := stream.Read(1);
      if !c.Bytes? {
        assert rest == bytes;
        StreamEndsLine(rest, stream.ending);
        return if c.Broken? then LineError else if bytes == [] then NoLine else Line(bytes);
      }
      assert c.bytes == [c.bytes[0]];
      assert rest == bytes + c.bytes + stream.Rest();
      if c.bytes[0] == LF {
        NewlineEndsLine(bytes, stream.Rest(), stream.ending);
        return Line(bytes + c.bytes);
      }
      bytes := bytes + c.bytes;
    }
  }

  /** `wait_for_bootstrap`. */
  method WaitForBootstrap(stream: Stream, answers: seq<Answer>) returns (verdict: Verdict, confirmed: nat)
    requires stream.Valid()
    modifies stream
    ensures stream.Valid() && old(stream.pos) <= stream.pos
    ensures Boot(verdict, stream.pos - old(stream.pos), confirmed)
         == Prologue(old(stream.Rest()), stream.ending, answers)
  {
    confirmed := 0;
    ghost var start := stream.pos;
    while true
      invariant stream.Valid() && start <= stream.pos && confirmed <= |answers|
      invariant Prologue(old(stream.Rest()), stream.ending, answers)
             == Further(stream.pos - start, Prologue(stream.Rest(), stream.ending, answers, confirmed))
      decreases |stream.Rest()|
    {
      ghost var rest := stream.Rest();
      var line := ReadLine(stream);
      assert stream.Rest() == rest[LineLength(rest)..];
      match React(line, answers, confirmed)
      case Stop(v) =>
        return v, confirmed;
      case Proceed(c) =>
        confirmed := c;
    }
  }

  // ---------------------------------------------------------------- exact handoff

  /** A line is some bytes without a newline, and then its newline. */
  predicate IsLine(line: seq<byte>) {
    line != [] && line[|line| - 1] == LF && LF !in line[..|line| - 1]
  }

  predicate Chatter(line: seq<byte>) {
    IsLine(line) && !(OBI <= line)
  }

  predicate IsEol(b: byte) {
    b == 10 || b == 13
  }

  /** `line` is `text` followed by nothing but carriage returns and newlines. */
  predicate Reads(line: seq<byte>, text: seq<byte>)
    decreases |line|
  {
    if line == text then text == [] || !IsEol(text[|text| - 1])
    else line != [] && IsEol(line[|line| - 1]) && Reads(line[..|line| - 1], text)
  }

  predicate MarkerLine(line: seq<byte>, marker: seq<byte>) {
    IsLine(line) && Reads(line, marker)
  }

  /** Trimming finds the text of a line. */
  lemma {:induction false} TrimFindsText(line: seq<byte>, text: seq<byte>)
    requires Reads(line, text)
    ensures TrimEnd(line) == text
    decreases |line|
  {
    if line != text {
      TrimFindsText(line[..|line| - 1], text);
    }
  }

  /** The markers are the ones the remote script prints. */
  lemma MarkersSpelled()
    ensures Spells(READY_MARKER, "OBI-SERVER-READY") && Spells(INSTALL_REQUIRED_MARKER, "OBI-INSTALL-REQUIRED")
    ensures Spells(ERROR_PREFIX, "OBI-ERROR ") && Spells(OBI, "OBI-")
  {
  }

  predicate Passable(line: seq<byte>) {
    Chatter(line) || MarkerLine(line, INSTALL_REQUIRED_MARKER)
  }

  predicate Prelude(lines: seq<seq<byte>>) {
    forall i :: 0 <= i < |lines| ==> Passable(lines[i])
  }

  function PromptCount(line: seq<byte>): nat {
    if MarkerLine(line, INSTALL_REQUIRED_MARKER) then 1 else 0
  }

  function InstallPrompts(lines: seq<seq<byte>>): nat {
    if lines == [] then 0
    else PromptCount(lines[0]) + InstallPrompts(lines[1..])
  }

  function Joined(lines: seq<seq<byte>>): seq<byte> {
    if lines == [] then [] else lines[0] + Joined(lines[1..])
  }

  lemma FirstLine(line: seq<byte>, rest: seq<byte>, ending: Ending)
    requires IsLine(line)
    ensures NextLine(line + rest, ending) == Line(line) && LineLength(line + rest) == |line|
    ensures (line + rest)[|line|..] == rest
  {
    var before := line[..|line| - 1];
    NewlineEndsLine(before, rest, ending);
    assert before + [LF] == line;
  }

  /** A stream that starts with a whole line is handled line first. */
  lemma LineThenRest(line: seq<byte>, rest: seq<byte>, ending: Ending, answers: seq<Answer>, c: nat, r: Reaction)
    requires IsLine(line) && c <= |answers| && r == React(Line(line), answers, c)
    ensures Prologue(line + rest, ending, answers, c)
         == if r.Stop? then Boot(r.verdict, |line|, c)
            else Further(|line|, Prologue(rest, ending, answers, r.confirmed))
  {
    FirstLine(line, rest, ending);
  }

  lemma ReadyEndsPrologue(line: seq<byte>, rest: seq<byte>, ending: Ending, answers: seq<Answer>, c: nat)
    requires MarkerLine(line, READY_MARKER) && c <= |answers|
    ensures Prologue(line + rest, ending, answers, c) == Boot(Ready, |line|, c)
  {
    TrimFindsText(line, READY_MARKER);
    LineThenRest(line, rest, ending, answers, c, Stop(Ready));
  }

  /** Only lines that begin with "OBI-" mean anything. */
  lemma MeaningBegins(line: seq<byte>)
    ensures Classify(TrimEnd(line)) == OtherLine || OBI <= line
  {
    var trimmed := TrimEnd(line);
    assert READY_MARKER[..|OBI|] == OBI && INSTALL_REQUIRED_MARKER[..|OBI|] == OBI && ERROR_PREFIX[..|OBI|] == OBI;
    if ERROR_PREFIX <= trimmed {
      assert trimmed[..|OBI|] == ERROR_PREFIX[..|OBI|];
    }
    if OBI <= trimmed {
      assert trimmed[..|OBI|] == line[..|OBI|];
    }
  }

  /** Noise, or a prompt that the user agrees to. */
  predicate Takes(line: seq<byte>, answers: seq<Answer>, c: nat, c': nat) {
    && Passable(line) && c' == c + PromptCount(line) <= |answers|
    && (PromptCount(line) == 1 ==> answers[c] == Yes)
  }

  lemma LineReaction(line: seq<byte>, answers: seq<Answer>, c: nat, c': nat)
    requires Takes(line, answers, c, c')
    ensures React(Line(line), answers, c) == Proceed(c')
  {
    if MarkerLine(line, INSTALL_REQUIRED_MARKER) {
      assert READY_MARKER[4] != INSTALL_REQUIRED_MARKER[4];
      TrimFindsText(line, INSTALL_REQUIRED_MARKER);
    } else {
      MeaningBegins(line);
    }
  }

  /** The user agrees to every install prompt that `lines` will raise. */
  predicate Agrees(answers: seq<Answer>, c: nat, lines: seq<seq<byte>>) {
    c + InstallPrompts(lines) <= |answers| && forall i :: c <= i < c + InstallPrompts(lines) ==> answers[i] == Yes
  }

  lemma JoinedHead(lines: seq<seq<byte>>, tail: seq<byte>)
    requires lines != []
    ensures Joined(lines) + tail == lines[0] + (Joined(lines[1..]) + tail)
  {
  }

  lemma LineIsPassed(
    line: seq<byte>, tail: seq<byte>, ending: Ending, answers: seq<Answer>, c: nat, c': nat, n: nat, b: Boot)
    requires Takes(line, answers, c, c') && Prologue(tail, ending, answers, c') == Further(n, b)
    ensures Prologue(line + tail, ending, answers, c) == Further(|line| + n, b)
  {
    LineReaction(line, answers, c, c');
    LineThenRest(line, tail, ending, answers, c, Proceed(c'));
  }

  predicate TakesAll(lines: seq<seq<byte>>, answers: seq<Answer>, c: nat, asked: nat) {
    if lines == [] then c == asked <= |answers|
    else
      var c' := c + PromptCount(lines[0]);
      Takes(lines[0], answers, c, c') && TakesAll(lines[1..], answers, c', asked)
  }

  lemma {:induction false} AgreesTakesAll(lines: seq<seq<byte>>, answers: seq<Answer>, c: nat)
    requires Prelude(lines) && Agrees(answers, c, lines)
    ensures TakesAll(lines, answers, c, c + InstallPrompts(lines))
  {
    if lines != [] {
      assert Passable(lines[0]);
      AgreesTakesAll(lines[1..], answers, c + PromptCount(lines[0]));
    }
  }

  lemma {:induction false} AllArePassed(
    lines: seq<seq<byte>>, rest: seq<byte>, ending: Ending, answers: seq<Answer>, c: nat, asked: nat, b: Boot)
    requires TakesAll(lines, answers, c, asked) && c <= |answers| && asked <= |answers|
    requires Prologue(rest, ending, answers, asked) == b
    ensures Prologue(Joined(lines) + rest, ending, answers, c) == Further(|Joined(lines)|, b)
    decreases |lines|
  {
    if lines == [] {
      assert Joined(lines) + rest == rest;
    } else {
      var line, more, c' := lines[0], lines[1..], c + PromptCount(lines[0]);
      AllArePassed(more, rest, ending, answers, c', asked, b);
      LineIsPassed(line, Joined(more) + rest, ending, answers, c, c', |Joined(more)|, b);
      JoinedHead(lines, rest);
    }
  }

  /** Login noise and confirmed install prompts, in any number and order, are passed over. */
  lemma PreludeIsPassed(
    lines: seq<seq<byte>>, rest: seq<byte>, ending: Ending, answers: seq<Answer>, c: nat, asked: nat, b: Boot)
    requires Prelude(lines) && Agrees(answers, c, lines) && asked == c + InstallPrompts(lines)
    requires b == Prologue(rest, ending, answers, asked)
    ensures Prologue(Joined(lines) + rest, ending, answers, c) == Further(|Joined(lines)|, b)
  {
    AgreesTakesAll(lines, answers, c);
    AllArePassed(lines, rest, ending, answers, c, asked, b);
  }

  /** Then the ready line: the prologue ends ready, having consumed exactly through the ready
      line's newline, whatever comes after it. */
  lemma PrologueStopsAtReady(
    lines: seq<seq<byte>>, ready: seq<byte>, rest: seq<byte>, ending: Ending, answers: seq<Answer>, c: nat)
    requires Prelude(lines) && MarkerLine(ready, READY_MARKER) && Agrees(answers, c, lines)
    ensures Prologue(Joined(lines) + (ready + rest), ending, answers, c)
         == Boot(Ready, |Joined(lines)| + |ready|, c + InstallPrompts(lines))
  {
    var asked := c + InstallPrompts(lines);
    ReadyEndsPrologue(ready, rest, ending, answers, asked);
    PreludeIsPassed(lines, ready + rest, ending, answers, c, asked, Boot(Ready, |ready|, asked));
  }

  // ---------------------------------------------------------------- every other end

  /** What a line with the given text ends the prologue with, the user's answer to it being
      `answer` when it is an install prompt. */
  predicate Decides(text: seq<byte>, answer: Option<Answer>, verdict: Verdict) {
    || (text == READY_MARKER && verdict == Ready)
    || (text == INSTALL_REQUIRED_MARKER && answer == Some(No) && verdict == InstallDeclined)
    || (text == INSTALL_REQUIRED_MARKER && answer == Some(YesUnsent) && verdict == WriteBootstrap)
    || (text == INSTALL_REQUIRED_MARKER && answer == None && verdict == Prompt)
    || (ERROR_PREFIX <= text && verdict == RemoteBootstrap(text[10..]))
    || (OBI <= text && !(ERROR_PREFIX <= text) && text != READY_MARKER && text != INSTALL_REQUIRED_MARKER
        && verdict == RemoteBootstrap(text))
  }

  function AnswerTo(answers: seq<Answer>, c: nat): Option<Answer> {
    if c < |answers| then Some(answers[c]) else None
  }

  lemma MarkersDiffer()
    ensures READY_MARKER != INSTALL_REQUIRED_MARKER
    ensures !(ERROR_PREFIX <= READY_MARKER) && !(ERROR_PREFIX <= INSTALL_REQUIRED_MARKER)
  {
    assert READY_MARKER[4] == 83 && INSTALL_REQUIRED_MARKER[4] == 73 && ERROR_PREFIX[4] == 69;
  }

  lemma DecidedReaction(line: seq<byte>, text: seq<byte>, answers: seq<Answer>, c: nat, verdict: Verdict)
    requires Reads(line, text) && c <= |answers| && Decides(text, AnswerTo(answers, c), verdict)
    ensures React(Line(line), answers, c) == Stop(verdict)
  {
    TrimFindsText(line, text);
    MarkersDiffer();
  }

  /** Every other end of the prologue: after any noise and confirmed prompts, a declined prompt,
      an unsent reply, a failing prompt, an error report or any other marker ends it with the
      verdict listed for it, consumed exactly through that line. */
  lemma PrologueEndsAt(
    lines: seq<seq<byte>>, line: seq<byte>, text: seq<byte>, rest: seq<byte>, ending: Ending,
    answers: seq<Answer>, c: nat, verdict: Verdict)
    requires Prelude(lines) && Agrees(answers, c, lines) && IsLine(line) && Reads(line, text)
    requires Decides(text, AnswerTo(answers, c + InstallPrompts(lines)), verdict)
    ensures Prologue(Joined(lines) + (line + rest), ending, answers, c)
         == Boot(verdict, |Joined(lines)| + |line|, c + InstallPrompts(lines))
  {
    var asked := c + InstallPrompts(lines);
    DecidedReaction(line, text, answers, asked, verdict);
    LineThenRest(line, rest, ending, answers, asked, Stop(verdict));
    PreludeIsPassed(lines, line + rest, ending, answers, c, asked, Boot(verdict, |line|, asked));
  }

  lemma StopsInLine(last: seq<byte>, ending: Ending, answers: seq<Answer>, asked: nat) returns (b: Boot)
    requires LF !in last && asked <= |answers|
    ensures b == Prologue(last, ending, answers, asked)
    ensures ending == ReadError ==> b == Boot(ReadBootstrap, |last|, asked)
    ensures ending == Eof && !(OBI <= last) ==> b == Boot(UnexpectedBootstrapEof, |last|, asked)
  {
    b := Prologue(last, ending, answers, asked);
    StreamEndsLine(last, ending);
    if ending == Eof && last != [] && !(OBI <= last) {
      MeaningBegins(last);
      assert last[|last|..] == [];
      StreamEndsLine([], ending);
      assert Prologue([], ending, answers, asked) == Boot(UnexpectedBootstrapEof, 0, asked);
    }
  }

  /** A stream that stops in an error, or at its end after a last line that means nothing. */
  lemma PrologueCutShort(
    lines: seq<seq<byte>>, last: seq<byte>, ending: Ending, answers: seq<Answer>, c: nat)
    requires Prelude(lines) && Agrees(answers, c, lines) && LF !in last
    ensures ending == ReadError || !(OBI <= last) ==> (
      Prologue(Joined(lines) + last, ending, answers, c)
      == Boot(if ending == ReadError then ReadBootstrap else UnexpectedBootstrapEof,
              |Joined(lines)| + |last|, c + InstallPrompts(lines)))
  {
    var asked := c + InstallPrompts(lines);
    var b := StopsInLine(last, ending, answers, asked);
    PreludeIsPassed(lines, last, ending, answers, c, asked, b);
  }

  /** A last line without newline counts as a line. */
  lemma LastLineDecides(
    lines: seq<seq<byte>>, last: seq<byte>, text: seq<byte>, answers: seq<Answer>, c: nat, verdict: Verdict)
    requires Prelude(lines) && Agrees(answers, c, lines) && LF !in last && last != [] && Reads(last, text)
    requires Decides(text, AnswerTo(answers, c + InstallPrompts(lines)), verdict)
    ensures Prologue(Joined(lines) + last, Eof, answers, c)
         == Boot(verdict, |Joined(lines)| + |last|, c + InstallPrompts(lines))
  {
    var asked := c + InstallPrompts(lines);
    StreamEndsLine(last, Eof);
    DecidedReaction(last, text, answers, asked, verdict);
    PreludeIsPassed(lines, last, Eof, answers, c, asked, Boot(verdict, |last|, asked));
  }

  /** Exact-byte handoff: what follows the ready line is read as exactly the frames the
      broker sent, and then as a clean end of stream. */
  lemma ExactHandoff(
    lines: seq<seq<byte>>, ready: seq<byte>, frames: seq<Frame>, answers: seq<Answer>, stream: seq<byte>)
    requires Prelude(lines) && MarkerLine(ready, READY_MARKER) && AllFit(frames)
    requires Agrees(answers, 0, lines)
    requires stream == Joined(lines) + (ready + EncodeAll(frames))
    ensures Prologue(stream, Eof, answers).verdict == Ready
    ensures Prologue(stream, Eof, answers).confirmed == InstallPrompts(lines)
    ensures ReadAll(stream[Prologue(stream, Eof, answers).consumed..], Eof) == Transcript(frames, CleanEof)
  {
    var n := |Joined(lines)| + |ready|;
    assert stream[n..] == EncodeAll(frames);
    assert Prologue(stream, Eof, answers) == Boot(Ready, n, InstallPrompts(lines)) by {
      PrologueStopsAtReady(lines, ready, EncodeAll(frames), Eof, answers, 0);
    }
    WholeStreamRoundTrip(frames);
  }
}
