/**
 Output of a child process, cut into chunks by the operating system and put together into lines again.
 `Process` is what the two readers of spawn-async.ts keep; their event handlers are the classes below.
 */
module Lines {
  import opened Wrappers
  import opened Strings

  const NEWLINE := "\n"
  const MARKER := "__FUNCTION_RESULT__"

  datatype Stream = Stdout | Stderr

  datatype Chunk = Chunk(stream: Stream, text: string)

  datatype LogLine = LogLine(stream: Stream, text: string)

  /** `code` is absent when a signal ended the process. */
  datatype ExitError = Exited(code: Option<int>) | NoResult(code: Option<int>)

  type Promise = Option<Result<string, ExitError>>

  datatype Process = Process(out: string, err: string, logs: seq<LogLine>, settled: Promise)
  {
    function Buffer(stream: Stream): string {
      if stream.Stdout? then out else err
    }

    function WithBuffer(stream: Stream, text: string): Process {
      if stream.Stdout? then this.(out := text) else this.(err := text)
    }
  }

  const STARTED := Process("", "", [], None)

  /** Only the first settlement of a promise counts. */
  function Settle(p: Promise, r: Result<string, ExitError>): Promise {
    if p.Some? then p else Some(r)
  }

  function Tagged(stream: Stream, lines: seq<string>): (logs: seq<LogLine>)
    ensures |logs| == |lines| && forall i :: 0 <= i < |lines| ==> logs[i] == LogLine(stream, lines[i])
  {
    seq(|lines|, i requires 0 <= i < |lines| => LogLine(stream, lines[i]))
  }

  function LoggedFrom(logs: seq<LogLine>, stream: Stream): seq<string> {
    if logs == [] then []
    else
      var before, last := LoggedFrom(logs[..|logs| - 1], stream), logs[|logs| - 1];
      if last.stream == stream then before + [last.text] else before
  }

  function StreamOf(chunks: seq<Chunk>, stream: Stream): string {
    if chunks == [] then ""
    else
      var before, last := StreamOf(chunks[..|chunks| - 1], stream), chunks[|chunks| - 1];
      if last.stream == stream then before + last.text else before
  }

  lemma LoggedOne(logs: seq<LogLine>, source: Stream, line: string, stream: Stream)
    ensures LoggedFrom(logs + [LogLine(source, line)], stream) ==
              LoggedFrom(logs, stream) + if source == stream then [line] else []
  {
    assert (logs + [LogLine(source, line)])[..|logs|] == logs;
  }

  lemma TaggedSnoc(source: Stream, lines: seq<string>)
    requires lines != []
    ensures Tagged(source, lines) == Tagged(source, lines[..|lines| - 1]) + [LogLine(source, lines[|lines| - 1])]
  {}

  lemma LogNext(logs: seq<LogLine>, source: Stream, lines: seq<string>, i: nat)
    requires i < |lines|
    ensures logs + Tagged(source, lines[..i + 1]) == logs + Tagged(source, lines[..i]) + [LogLine(source, lines[i])]
  {
    assert lines[..i + 1][..i] == lines[..i];
    TaggedSnoc(source, lines[..i + 1]);
    Assoc(logs, Tagged(source, lines[..i]), [LogLine(source, lines[i])]);
  }

  lemma {:induction false} LoggedMore(logs: seq<LogLine>, source: Stream, lines: seq<string>, stream: Stream)
    ensures LoggedFrom(logs + Tagged(source, lines), stream) ==
              LoggedFrom(logs, stream) + if source == stream then lines else []
    decreases |lines|
  {
    if lines == [] {
      assert logs + Tagged(source, lines) == logs;
    } else {
      var front, last := lines[..|lines| - 1], lines[|lines| - 1];
      LoggedMore(logs, source, front, stream);
      TaggedSnoc(source, lines);
      LoggedOne(logs + Tagged(source, front), source, last, stream);
      Assoc(logs, Tagged(source, front), [LogLine(source, last)]);
      Assoc(LoggedFrom(logs, stream), front, [last]);
      assert front + [last] == lines;
    }
  }

  // ---------------------------------------------------------------- the plain reader

  function Read(p: Process, c: Chunk): Process {
    var text := p.Buffer(c.stream) + c.text;
    p.WithBuffer(c.stream, Remainder(text, NEWLINE)).(logs := p.logs + Tagged(c.stream, Complete(text, NEWLINE)))
  }

  function ReadAll(chunks: seq<Chunk>): Process {
    if chunks == [] then STARTED else Read(ReadAll(chunks[..|chunks| - 1]), chunks[|chunks| - 1])
  }

  lemma NothingRead()
    ensures Complete("", NEWLINE) == [] && Remainder("", NEWLINE) == ""
  {
    NotFound("", NEWLINE);
    Uncontained("", NEWLINE);
  }

  /** However a stream is cut and interleaved with the other, its logged lines are its complete lines, in order. */
  lemma {:induction false} LoggedIsComplete(chunks: seq<Chunk>, stream: Stream)
    ensures LoggedFrom(ReadAll(chunks).logs, stream) == Complete(StreamOf(chunks, stream), NEWLINE)
    ensures ReadAll(chunks).Buffer(stream) == Remainder(StreamOf(chunks, stream), NEWLINE)
    ensures ReadAll(chunks).settled == None
  {
    NothingRead();
    if chunks != [] {
      var front, last := chunks[..|chunks| - 1], chunks[|chunks| - 1];
      LoggedIsComplete(front, stream);
      var p := ReadAll(front);
      LoggedMore(p.logs, last.stream, Complete(p.Buffer(last.stream) + last.text, NEWLINE), stream);
      SplitAppend(StreamOf(front, stream), last.text, NEWLINE);
    }
  }

  /** `code ?? 0 > 0` groups as `code ?? (0 > 0)`: any code but zero rejects, a missing one does not. */
  function Exit(p: Process, code: Option<int>): Process {
    p.(settled := Settle(p.settled, if code.Some? && code.value != 0 then Err(Exited(code)) else Ok("")))
  }

  /** All of a stream has been logged but what follows its last newline, which stays in the buffer. */
  lemma NothingIsLost(chunks: seq<Chunk>, stream: Stream)
    ensures Join(LoggedFrom(ReadAll(chunks).logs, stream) + [ReadAll(chunks).Buffer(stream)], NEWLINE) == StreamOf(chunks, stream)
  {
    LoggedIsComplete(chunks, stream);
    PartsRejoin(StreamOf(chunks, stream));
  }

  lemma PartsRejoin(s: string)
    ensures Join(Complete(s, NEWLINE) + [Remainder(s, NEWLINE)], NEWLINE) == s
  {
    JoinSplit(s, NEWLINE);
    var parts := Split(s, NEWLINE);
    assert parts[..|parts| - 1] + [parts[|parts| - 1]] == parts;
  }

  /** How the plain reader ends: the exit code alone decides, and a later close changes nothing. */
  lemma ExitCodeDecides(chunks: seq<Chunk>, code: Option<int>, again: Option<int>)
    ensures var p := Exit(ReadAll(chunks), code);
            && p.settled == Some(if code in {None, Some(0)} then Ok("") else Err(Exited(code)))
            && Exit(p, again) == p && p.logs == ReadAll(chunks).logs
  {
    LoggedIsComplete(chunks, Stdout);
  }

  class LoggedProcess {
    var stdoutBuffer: string
    var stderrBuffer: string
    var logs: seq<LogLine>
    var settled: Promise

    constructor ()
      ensures Value() == STARTED
    {
      stdoutBuffer, stderrBuffer, logs, settled := "", "", [], None;
    }

    function Value(): Process
      reads this
    {
      Process(stdoutBuffer, stderrBuffer, logs, settled)
    }

    method OnStdout(chunk: string)
      modifies this
      ensures Value() == Read(old(Value()), Chunk(Stdout, chunk))
    {
      stdoutBuffer := stdoutBuffer + chunk;
      var lines := Split(stdoutBuffer, NEWLINE);
      stdoutBuffer, lines := lines[|lines| - 1], lines[..|lines| - 1];
      for i := 0 to |lines|
        invariant logs == old(logs) + Tagged(Stdout, lines[..i])
        invariant stdoutBuffer == Remainder(old(stdoutBuffer) + chunk, NEWLINE)
        invariant stderrBuffer == old(stderrBuffer) && settled == old(settled)
      {
        LogNext(old(logs), Stdout, lines, i);
        logs := logs + [LogLine(Stdout, lines[i])];
      }
      assert lines[..|lines|] == lines;
    }

    method OnStderr(chunk: string)
      modifies this
      ensures Value() == Read(old(Value()), Chunk(Stderr, chunk))
    {
      stderrBuffer := stderrBuffer + chunk;
      var lines := Split(stderrBuffer, NEWLINE);
      stderrBuffer, lines := lines[|lines| - 1], lines[..|lines| - 1];
      for i := 0 to |lines|
        invariant logs == old(logs) + Tagged(Stderr, lines[..i])
        invariant stderrBuffer == Remainder(old(stderrBuffer) + chunk, NEWLINE)
        invariant stdoutBuffer == old(stdoutBuffer) && settled == old(settled)
      {
        LogNext(old(logs), Stderr, lines, i);
        logs := logs + [LogLine(Stderr, lines[i])];
      }
      assert lines[..|lines|] == lines;
    }

    method OnClose(code: Option<int>)
      modifies this
      ensures Value() == Exit(old(Value()), code)
    {
      if code.Some? && code.value != 0 {
        settled := Settle(settled, Err(Exited(code)));
      } else {
        settled := Settle(settled, Ok(""));
      }
    }
  }

  // ---------------------------------------------------------------- the reader of a function result

  /** The characters `trim()` removes. */
  predicate IsSpace(c: char) {
    || '\U{0009}' <= c <= '\U{000D}' || c == ' ' || c == '\U{00A0}' || c == '\U{1680}'
    || '\U{2000}' <= c <= '\U{200A}' || c == '\U{2028}' || c == '\U{2029}' || c == '\U{202F}'
    || c == '\U{205F}' || c == '\U{3000}' || c == '\U{FEFF}'
  }

  /** By code point: the white space and line terminators of sections 12.2 and 12.3 of ECMA-262. */
  lemma SpaceIs(c: char)
    ensures IsSpace(c) <==>
              c as int in {0x9, 0xA, 0xB, 0xC, 0xD, 0x20, 0xA0, 0x1680, 0x2000, 0x2001, 0x2002, 0x2003, 0x2004, 0x2005, 0x2006,
                           0x2007, 0x2008, 0x2009, 0x200A, 0x2028, 0x2029, 0x202F, 0x205F, 0x3000, 0xFEFF}
  {}

  predicate AllSpace(s: string) {
    forall c :: c in s ==> IsSpace(c)
  }

  function TrimStart(s: string): (r: string)
    ensures |r| <= |s| && s == s[..|s| - |r|] + r
    ensures AllSpace(s[..|s| - |r|])
    ensures r != "" ==> !IsSpace(r[0])
  {
    if s == "" || !IsSpace(s[0]) then s else TrimStart(s[1..])
  }

  function TrimEnd(s: string): (r: string)
    ensures |r| <= |s| && s == r + s[|r|..]
    ensures AllSpace(s[|r|..])
    ensures r != "" ==> !IsSpace(r[|r| - 1])
  {
    if s == "" || !IsSpace(s[|s| - 1]) then s else TrimEnd(s[..|s| - 1])
  }

  function Trim(s: string): string {
    TrimEnd(TrimStart(s))
  }

  predicate TrimmedFrom(s: string, r: string, a: string, b: string) {
    AllSpace(a) && AllSpace(b) && s == a + r + b
  }

  lemma Concatenated(a: string, r: string, b: string)
    ensures a + (r + b) == a + r + b
    ensures r != "" ==> (r + b)[0] == r[0]
  {}

  /** Trimming takes white space off both ends, all of it and nothing else. */
  lemma TrimOnlyTrims(s: string) returns (a: string, b: string)
    ensures TrimmedFrom(s, Trim(s), a, b)
    ensures Trim(s) != "" ==> !IsSpace(Trim(s)[0]) && !IsSpace(Trim(s)[|Trim(s)| - 1])
  {
    var t := TrimStart(s);
    var r := TrimEnd(t);
    a, b := s[..|s| - |t|], t[|r|..];
    Concatenated(a, r, b);
  }

  predicate Marked(line: string) {
    MARKER <= line
  }

  /** `line.replace(MARKER, "")` takes out the first occurrence. */
  function RemoveFirst(s: string, part: string): string
    requires part != ""
  {
    var at := Find(s, part);
    if at.None? then s else s[..at.value] + s[at.value + |part|..]
  }

  function ResultOf(line: string): string {
    Trim(RemoveFirst(line, MARKER))
  }

  /** The result of a marker line is what follows the marker, trimmed. */
  lemma ResultIsRest(rest: string)
    ensures ResultOf(MARKER + rest) == Trim(rest)
  {
    var line := MARKER + rest;
    assert Find(line, MARKER) == Some(0);
    assert line[..0] + line[|MARKER|..] == rest;
  }

  /** Line `k` is the first marker line, and `rest` is what follows the marker in it. */
  ghost predicate FirstMarkedAt(lines: seq<string>, k: int, rest: string) {
    0 <= k < |lines| && lines[k] == MARKER + rest && forall j :: 0 <= j < k ==> !(MARKER <= lines[j])
  }

  lemma FirstMarkedIs(lines: seq<string>, k: int, rest: string)
    requires FirstMarkedAt(lines, k, rest)
    ensures FirstMarked(lines) == Some(MARKER + rest)
  {}

  /** Number of lines before the first marker line. */
  function Unmarked(lines: seq<string>): (n: nat)
    ensures n <= |lines| && forall i :: 0 <= i < n ==> !Marked(lines[i])
    ensures n < |lines| ==> Marked(lines[n])
  {
    if lines == [] || Marked(lines[0]) then 0 else 1 + Unmarked(lines[1..])
  }

  function BeforeMarker(lines: seq<string>): seq<string> {
    lines[..Unmarked(lines)]
  }

  function FirstMarked(lines: seq<string>): Option<string> {
    if Unmarked(lines) < |lines| then Some(lines[Unmarked(lines)]) else None
  }

  /** After a marker line the handler returns: the rest of that chunk is not looked at. */
  function Receive(p: Process, c: Chunk): Process {
    if c.stream.Stderr? then Read(p, c)
    else
      var text := p.out + c.text;
      var lines := Complete(text, NEWLINE);
      var marked := FirstMarked(lines);
      p.(out := Remainder(text, NEWLINE),
         logs := p.logs + Tagged(Stdout, BeforeMarker(lines)),
         settled := if marked.Some? then Settle(p.settled, Ok(ResultOf(marked.value))) else p.settled)
  }

  function ReceiveAll(chunks: seq<Chunk>): Process {
    if chunks == [] then STARTED else Receive(ReceiveAll(chunks[..|chunks| - 1]), chunks[|chunks| - 1])
  }

  function Close(p: Process, code: Option<int>): Process {
    p.(settled := Settle(p.settled, if Marked(p.out) then Ok(ResultOf(p.out)) else Err(NoResult(code))))
  }

  /** What the promise of the process should become, from its whole standard output. */
  function OutcomeOf(stdout: string, code: Option<int>): Result<string, ExitError> {
    var marked := FirstMarked(Complete(stdout, NEWLINE));
    if marked.Some? then Ok(ResultOf(marked.value))
    else if Marked(Remainder(stdout, NEWLINE)) then Ok(ResultOf(Remainder(stdout, NEWLINE)))
    else Err(NoResult(code))
  }

  lemma {:induction false} UnmarkedOfBoth(a: seq<string>, b: seq<string>)
    ensures Unmarked(a + b) == if Unmarked(a) < |a| then Unmarked(a) else |a| + Unmarked(b)
    decreases |a|
  {
    if a == [] {
      assert a + b == b;
    } else {
      ConsTail(a, b);
      UnmarkedOfBoth(a[1..], b);
    }
  }

  lemma MarkerOfBoth(a: seq<string>, b: seq<string>)
    ensures FirstMarked(a + b) == if FirstMarked(a).Some? then FirstMarked(a) else FirstMarked(b)
    ensures BeforeMarker(a + b) == if FirstMarked(a).Some? then BeforeMarker(a) else a + BeforeMarker(b)
  {
    UnmarkedOfBoth(a, b);
  }

  /** Of the lines of the stream so far, these have been logged. */
  ghost predicate LoggedOk(lines: seq<string>, logged: seq<string>) {
    if FirstMarked(lines).None? then logged == lines
    else BeforeMarker(lines) <= logged && |logged| < |lines|
  }

  lemma LogMore(lines: seq<string>, logged: seq<string>, more: seq<string>)
    requires LoggedOk(lines, logged)
    ensures LoggedOk(lines + more, logged + BeforeMarker(more))
  {
    MarkerOfBoth(lines, more);
    if FirstMarked(lines).None? && FirstMarked(more).None? {
      assert BeforeMarker(more) == more;
    }
  }

  function SettledBy(lines: seq<string>): Promise {
    var marked := FirstMarked(lines);
    if marked.Some? then Some(Ok(ResultOf(marked.value))) else None
  }

  ghost predicate Tracks(p: Process, stdout: string) {
    && p.out == Remainder(stdout, NEWLINE)
    && p.settled == SettledBy(Complete(stdout, NEWLINE))
    && LoggedOk(Complete(stdout, NEWLINE), LoggedFrom(p.logs, Stdout))
  }

  lemma TracksStdout(p: Process, stdout: string, text: string)
    requires Tracks(p, stdout)
    ensures Tracks(Receive(p, Chunk(Stdout, text)), stdout + text)
  {
    var lines, more := Complete(stdout, NEWLINE), Complete(p.out + text, NEWLINE);
    SplitAppend(stdout, text, NEWLINE);
    MarkerOfBoth(lines, more);
    LoggedMore(p.logs, Stdout, BeforeMarker(more), Stdout);
    LogMore(lines, LoggedFrom(p.logs, Stdout), more);
  }

  lemma TracksStderr(p: Process, stdout: string, text: string)
    requires Tracks(p, stdout)
    ensures Tracks(Receive(p, Chunk(Stderr, text)), stdout)
  {
    LoggedMore(p.logs, Stderr, Complete(p.err + text, NEWLINE), Stdout);
  }

  /** Before closing: settled by the first marker line of the stream, however it was cut. */
  lemma {:induction false} ReceivedSoFar(chunks: seq<Chunk>)
    ensures Tracks(ReceiveAll(chunks), StreamOf(chunks, Stdout))
  {
    NothingRead();
    if chunks != [] {
      var front, last := chunks[..|chunks| - 1], chunks[|chunks| - 1];
      ReceivedSoFar(front);
      if last.stream.Stdout? {
        TracksStdout(ReceiveAll(front), StreamOf(front, Stdout), last.text);
      } else {
        TracksStderr(ReceiveAll(front), StreamOf(front, Stdout), last.text);
      }
    }
  }

  /** The result of the process is a function of what it wrote, not of how it arrived. */
  lemma OutcomeIgnoresChunks(chunks: seq<Chunk>, code: Option<int>)
    ensures Close(ReceiveAll(chunks), code).settled == Some(OutcomeOf(StreamOf(chunks, Stdout), code))
  {
    ReceivedSoFar(chunks);
  }

  ghost predicate NoneMarked(lines: seq<string>) {
    forall line :: line in lines ==> !(MARKER <= line)
  }

  /** What a process that wrote `lines` and last the unterminated `last` resolves to, or rejects with. */
  ghost predicate IsOutcome(lines: seq<string>, last: string, code: Option<int>, r: Result<string, ExitError>) {
    && (forall k, rest :: FirstMarkedAt(lines, k, rest) ==> r == Ok(Trim(rest)))
    && (forall rest :: NoneMarked(lines) && last == MARKER + rest ==> r == Ok(Trim(rest)))
    && (NoneMarked(lines) && !(MARKER <= last) ==> r == Err(NoResult(code)))
  }

  lemma NothingMarked(lines: seq<string>)
    requires NoneMarked(lines)
    ensures FirstMarked(lines) == None
  {
    forall k | 0 <= k < |lines| ensures !Marked(lines[k]) { assert lines[k] in lines; }
  }

  lemma OutcomeIs(stdout: string, code: Option<int>)
    ensures IsOutcome(Complete(stdout, NEWLINE), Remainder(stdout, NEWLINE), code, OutcomeOf(stdout, code))
  {
    var lines, last := Complete(stdout, NEWLINE), Remainder(stdout, NEWLINE);
    forall k, rest | FirstMarkedAt(lines, k, rest) ensures OutcomeOf(stdout, code) == Ok(Trim(rest)) {
      FirstMarkedIs(lines, k, rest);
      ResultIsRest(rest);
    }
    if NoneMarked(lines) { NothingMarked(lines); }
    forall rest | NoneMarked(lines) && last == MARKER + rest ensures OutcomeOf(stdout, code) == Ok(Trim(rest)) {
      ResultIsRest(rest);
    }
  }

  /**
   However the output is cut, the promise takes the trimmed rest of the first marker line, an unterminated last line
   counting when no complete line is marked, and is rejected when there is none.
   */
  lemma OutcomeIsRest(chunks: seq<Chunk>, code: Option<int>)
    ensures var stdout, settled := StreamOf(chunks, Stdout), Close(ReceiveAll(chunks), code).settled;
            && settled.Some?
            && IsOutcome(Complete(stdout, NEWLINE), Remainder(stdout, NEWLINE), code, settled.value)
  {
    OutcomeIgnoresChunks(chunks, code);
    OutcomeIs(StreamOf(chunks, Stdout), code);
  }

  /** The lines logged before the promise settles are those before the first marker line, and no others. */
  lemma LoggedBeforeSettling(chunks: seq<Chunk>, c: Chunk)
    requires ReceiveAll(chunks).settled.None? && Receive(ReceiveAll(chunks), c).settled.Some?
    ensures LoggedFrom(Receive(ReceiveAll(chunks), c).logs, Stdout) ==
              BeforeMarker(Complete(StreamOf(chunks + [c], Stdout), NEWLINE))
  {
    ReceivedSoFar(chunks);
    assert (chunks + [c])[..|chunks|] == chunks;
    SettledHere(ReceiveAll(chunks), StreamOf(chunks, Stdout), c.text);
  }

  lemma SettledHere(p: Process, stdout: string, text: string)
    requires Tracks(p, stdout) && p.settled.None? && Receive(p, Chunk(Stdout, text)).settled.Some?
    ensures LoggedFrom(Receive(p, Chunk(Stdout, text)).logs, Stdout) == BeforeMarker(Complete(stdout + text, NEWLINE))
  {
    var lines, more := Complete(stdout, NEWLINE), Complete(p.out + text, NEWLINE);
    SplitAppend(stdout, text, NEWLINE);
    MarkerOfBoth(lines, more);
    LoggedMore(p.logs, Stdout, BeforeMarker(more), Stdout);
  }

  /** Until a marker line appears every complete line has been logged. */
  lemma AllLoggedIffUnmarked(chunks: seq<Chunk>)
    ensures var lines := Complete(StreamOf(chunks, Stdout), NEWLINE);
            LoggedFrom(ReceiveAll(chunks).logs, Stdout) == lines <==> forall line :: line in lines ==> !Marked(line)
  {
    ReceivedSoFar(chunks);
    var lines := Complete(StreamOf(chunks, Stdout), NEWLINE);
    assert BeforeMarker(lines) == lines[..|BeforeMarker(lines)|];
  }

  /** Standard error is logged whole whatever happens on standard output. */
  lemma {:induction false} ErrorsAreLogged(chunks: seq<Chunk>)
    ensures LoggedFrom(ReceiveAll(chunks).logs, Stderr) == Complete(StreamOf(chunks, Stderr), NEWLINE)
    ensures ReceiveAll(chunks).err == Remainder(StreamOf(chunks, Stderr), NEWLINE)
  {
    NothingRead();
    if chunks != [] {
      var front, last := chunks[..|chunks| - 1], chunks[|chunks| - 1];
      ErrorsAreLogged(front);
      var p := ReceiveAll(front);
      if last.stream.Stderr? {
        SplitAppend(StreamOf(front, Stderr), last.text, NEWLINE);
        LoggedMore(p.logs, Stderr, Complete(p.err + last.text, NEWLINE), Stderr);
      } else {
        LoggedMore(p.logs, Stdout, BeforeMarker(Complete(p.out + last.text, NEWLINE)), Stderr);
      }
    }
  }

  // ---------------------------------------------------------------- what is logged after the result

  /** No complete line after the first marker line lacks the marker. */
  ghost predicate NothingFollows(lines: seq<string>) {
    forall k :: Unmarked(lines) < k < |lines| ==> Marked(lines[k])
  }

  lemma NothingFollowedBefore(lines: seq<string>, more: seq<string>)
    requires NothingFollows(lines + more)
    ensures NothingFollows(lines)
    ensures FirstMarked(lines).Some? ==> BeforeMarker(more) == []
  {
    UnmarkedOfBoth(lines, more);
    forall k | Unmarked(lines) < k < |lines| ensures Marked(lines[k]) {
      assert (lines + more)[k] == lines[k];
    }
    if FirstMarked(lines).Some? && more != [] {
      assert (lines + more)[|lines|] == more[0];
    }
  }

  lemma OnlyBefore(lines: seq<string>, more: seq<string>)
    requires NothingFollows(lines + more)
    ensures BeforeMarker(lines) + BeforeMarker(more) == BeforeMarker(lines + more)
  {
    NothingFollowedBefore(lines, more);
    MarkerOfBoth(lines, more);
    if FirstMarked(lines).None? { assert BeforeMarker(lines) == lines; }
  }

  lemma StdoutLogs(p: Process, stdout: string, text: string)
    requires p.out == Remainder(stdout, NEWLINE) && NothingFollows(Complete(stdout + text, NEWLINE))
    requires LoggedFrom(p.logs, Stdout) == BeforeMarker(Complete(stdout, NEWLINE))
    ensures LoggedFrom(Receive(p, Chunk(Stdout, text)).logs, Stdout) == BeforeMarker(Complete(stdout + text, NEWLINE))
  {
    var more := Complete(p.out + text, NEWLINE);
    SplitAppend(stdout, text, NEWLINE);
    OnlyBefore(Complete(stdout, NEWLINE), more);
    LoggedMore(p.logs, Stdout, BeforeMarker(more), Stdout);
  }

  /** When nothing follows the marker, any cuts log exactly the lines before it. */
  lemma {:induction false} LoggedIsBeforeMarker(chunks: seq<Chunk>)
    requires NothingFollows(Complete(StreamOf(chunks, Stdout), NEWLINE))
    ensures LoggedFrom(ReceiveAll(chunks).logs, Stdout) == BeforeMarker(Complete(StreamOf(chunks, Stdout), NEWLINE))
  {
    NothingRead();
    if chunks != [] {
      var front, last := chunks[..|chunks| - 1], chunks[|chunks| - 1];
      var p, stdout := ReceiveAll(front), StreamOf(front, Stdout);
      ReceivedSoFar(front);
      if last.stream.Stdout? {
        SplitAppend(stdout, last.text, NEWLINE);
        NothingFollowedBefore(Complete(stdout, NEWLINE), Complete(p.out + last.text, NEWLINE));
        LoggedIsBeforeMarker(front);
        StdoutLogs(p, stdout, last.text);
      } else {
        LoggedIsBeforeMarker(front);
        LoggedMore(p.logs, Stderr, Complete(p.err + last.text, NEWLINE), Stdout);
      }
    }
  }

  /** A text can be cut right before any of its complete lines. */
  lemma {:induction false} CutBefore(s: string, k: nat) returns (head: string, tail: string)
    requires k <= |Complete(s, NEWLINE)|
    ensures s == head + tail
    ensures Complete(head, NEWLINE) == Complete(s, NEWLINE)[..k] && Remainder(head, NEWLINE) == ""
    ensures Complete(tail, NEWLINE) == Complete(s, NEWLINE)[k..]
    decreases k
  {
    NothingRead();
    if k == 0 {
      head, tail := "", s;
    } else {
      if !Contains(s, NEWLINE) { Uncontained(s, NEWLINE); }
      var line, rest := SplitPoint(s, NEWLINE);
      CompleteCons(line, NEWLINE, rest);
      ConsSlices(line, Complete(rest, NEWLINE), k);
      var front;
      front, tail := CutBefore(rest, k - 1);
      CompleteCons(line, NEWLINE, front);
      Assoc(line + NEWLINE, front, tail);
      head := line + NEWLINE + front;
    }
  }

  lemma FirstChunk(text: string)
    ensures StreamOf([Chunk(Stdout, text)], Stdout) == text
    ensures ReceiveAll([Chunk(Stdout, text)]) == Receive(STARTED, Chunk(Stdout, text))
    ensures STARTED.out + text == text
  {
    assert [Chunk(Stdout, text)][..0] == [] && "" + text == text;
  }

  lemma OneChunkLogs(text: string)
    ensures StreamOf([Chunk(Stdout, text)], Stdout) == text
    ensures LoggedFrom(ReceiveAll([Chunk(Stdout, text)]).logs, Stdout) == BeforeMarker(Complete(text, NEWLINE))
    ensures ReceiveAll([Chunk(Stdout, text)]).out == Remainder(text, NEWLINE)
  {
    FirstChunk(text);
    LoggedMore([], Stdout, BeforeMarker(Complete(text, NEWLINE)), Stdout);
  }

  /** Cut at the end of a line, a text logs what each of its two parts logs. */
  lemma TwoChunksLog(head: string, tail: string)
    requires Remainder(head, NEWLINE) == ""
    ensures StreamOf([Chunk(Stdout, head), Chunk(Stdout, tail)], Stdout) == head + tail
    ensures LoggedFrom(ReceiveAll([Chunk(Stdout, head), Chunk(Stdout, tail)]).logs, Stdout) ==
              BeforeMarker(Complete(head, NEWLINE)) + BeforeMarker(Complete(tail, NEWLINE))
  {
    var two := [Chunk(Stdout, head), Chunk(Stdout, tail)];
    assert two[..1] == [Chunk(Stdout, head)];
    OneChunkLogs(head);
    var p := ReceiveAll([Chunk(Stdout, head)]);
    assert "" + tail == tail;
    LoggedMore(p.logs, Stdout, BeforeMarker(Complete(tail, NEWLINE)), Stdout);
  }

  ghost predicate SameLogs(stdout: string, a: seq<Chunk>, b: seq<Chunk>) {
    StreamOf(a, Stdout) == stdout && StreamOf(b, Stdout) == stdout ==>
      LoggedFrom(ReceiveAll(a).logs, Stdout) == LoggedFrom(ReceiveAll(b).logs, Stdout)
  }

  lemma CutGainsLines(lines: seq<string>, k: nat)
    requires Unmarked(lines) < k < |lines| && !Marked(lines[k])
    ensures |BeforeMarker(lines[..k])| + |BeforeMarker(lines[k..])| > |BeforeMarker(lines)|
  {
    assert lines[..k] + lines[k..] == lines;
    UnmarkedOfBoth(lines[..k], lines[k..]);
    assert lines[k..][0] == lines[k];
  }

  /** Cut before an unmarked line that follows the marker, the text logs more than in one piece. */
  lemma CutLogsMore(stdout: string, k: nat) returns (one: seq<Chunk>, two: seq<Chunk>)
    requires var lines := Complete(stdout, NEWLINE); Unmarked(lines) < k < |lines| && !Marked(lines[k])
    ensures !SameLogs(stdout, one, two)
  {
    var head, tail := CutBefore(stdout, k);
    one, two := [Chunk(Stdout, stdout)], [Chunk(Stdout, head), Chunk(Stdout, tail)];
    OneChunkLogs(stdout);
    TwoChunksLog(head, tail);
    CutGainsLines(Complete(stdout, NEWLINE), k);
  }

  /** The log does not depend on the cuts exactly when no unmarked complete line follows the first marker line. */
  lemma LogsIgnoreChunksIffNothingFollows(stdout: string)
    ensures (forall a, b :: SameLogs(stdout, a, b)) <==> NothingFollows(Complete(stdout, NEWLINE))
  {
    var lines := Complete(stdout, NEWLINE);
    if NothingFollows(lines) {
      forall a, b ensures SameLogs(stdout, a, b) {
        if StreamOf(a, Stdout) == stdout && StreamOf(b, Stdout) == stdout {
          LoggedIsBeforeMarker(a);
          LoggedIsBeforeMarker(b);
        }
      }
    } else {
      var k :| Unmarked(lines) < k < |lines| && !Marked(lines[k]);
      var one, two := CutLogsMore(stdout, k);
    }
  }

  /** A text that shows it: one stream, two logs. */
  lemma LaterLogsDependOnChunks() returns (one: seq<Chunk>, two: seq<Chunk>)
    ensures StreamOf(one, Stdout) == StreamOf(two, Stdout) == MARKER + NEWLINE + ("x" + NEWLINE)
    ensures LoggedFrom(ReceiveAll(one).logs, Stdout) == [] && LoggedFrom(ReceiveAll(two).logs, Stdout) == ["x"]
  {
    var a, b := MARKER + NEWLINE, "x" + NEWLINE;
    one, two := [Chunk(Stdout, a + b)], [Chunk(Stdout, a), Chunk(Stdout, b)];
    TwoLines(MARKER, "x");
    OneLine(MARKER);
    OneLine("x");
    OneChunkLogs(a + b);
    TwoChunksLog(a, b);
    MarkerThenPlain();
  }

  lemma MarkerThenPlain()
    ensures BeforeMarker([MARKER, "x"]) == [] && BeforeMarker([MARKER]) == [] && BeforeMarker(["x"]) == ["x"]
  {
    assert Unmarked([MARKER, "x"]) == 0 && Unmarked([MARKER]) == 0;
    assert !Marked("x");
  }

  lemma OneLine(line: string)
    requires '\n' !in line
    ensures Complete(line + NEWLINE, NEWLINE) == [line] && Remainder(line + NEWLINE, NEWLINE) == ""
  {
    NothingRead();
    CompleteCons(line, NEWLINE, "");
    assert line + NEWLINE + "" == line + NEWLINE;
  }

  lemma TwoLines(a: string, b: string)
    requires '\n' !in a && '\n' !in b
    ensures Complete(a + NEWLINE + (b + NEWLINE), NEWLINE) == [a, b]
  {
    OneLine(b);
    CompleteCons(a, NEWLINE, b + NEWLINE);
  }

  class FunctionProcess {
    var stdoutBuffer: string
    var stderrBuffer: string
    var logs: seq<LogLine>
    var settled: Promise

    constructor ()
      ensures Value() == STARTED
    {
      stdoutBuffer, stderrBuffer, logs, settled := "", "", [], None;
    }

    function Value(): Process
      reads this
    {
      Process(stdoutBuffer, stderrBuffer, logs, settled)
    }

    method OnStdout(chunk: string)
      modifies this
      ensures Value() == Receive(old(Value()), Chunk(Stdout, chunk))
      ensures forall k, rest ::
                FirstMarkedAt(Complete(old(stdoutBuffer) + chunk, NEWLINE), k, rest) && old(settled).None? ==>
                  settled == Some(Ok(Trim(rest)))
    {
      forall k, rest | FirstMarkedAt(Complete(stdoutBuffer + chunk, NEWLINE), k, rest)
        ensures FirstMarked(Complete(stdoutBuffer + chunk, NEWLINE)) == Some(MARKER + rest)
        ensures ResultOf(MARKER + rest) == Trim(rest)
      {
        FirstMarkedIs(Complete(stdoutBuffer + chunk, NEWLINE), k, rest);
        ResultIsRest(rest);
      }
      stdoutBuffer := stdoutBuffer + chunk;
      var lines := Split(stdoutBuffer, NEWLINE);
      stdoutBuffer, lines := lines[|lines| - 1], lines[..|lines| - 1];
      for i := 0 to |lines|
        invariant i <= Unmarked(lines)
        invariant logs == old(logs) + Tagged(Stdout, lines[..i])
        invariant stdoutBuffer == Remainder(old(stdoutBuffer) + chunk, NEWLINE)
        invariant stderrBuffer == old(stderrBuffer) && settled == old(settled)
      {
        if MARKER <= lines[i] {
          assert i == Unmarked(lines);
          settled := Settle(settled, Ok(Trim(RemoveFirst(lines[i], MARKER))));
          return;
        }
        LogNext(old(logs), Stdout, lines, i);
        logs := logs + [LogLine(Stdout, lines[i])];
      }
      assert lines[..|lines|] == lines;
      assert BeforeMarker(lines) == lines;
    }

    method OnStderr(chunk: string)
      modifies this
      ensures Value() == Receive(old(Value()), Chunk(Stderr, chunk))
    {
      stderrBuffer := stderrBuffer + chunk;
      var lines := Split(stderrBuffer, NEWLINE);
      stderrBuffer, lines := lines[|lines| - 1], lines[..|lines| - 1];
      for i := 0 to |lines|
        invariant logs == old(logs) + Tagged(Stderr, lines[..i])
        invariant stderrBuffer == Remainder(old(stderrBuffer) + chunk, NEWLINE)
        invariant stdoutBuffer == old(stdoutBuffer) && settled == old(settled)
      {
        LogNext(old(logs), Stderr, lines, i);
        logs := logs + [LogLine(Stderr, lines[i])];
      }
      assert lines[..|lines|] == lines;
    }

    method OnClose(code: Option<int>)
      modifies this
      ensures Value() == Close(old(Value()), code)
      ensures forall rest :: stdoutBuffer == MARKER + rest && old(settled).None? ==> settled == Some(Ok(Trim(rest)))
      ensures !(MARKER <= stdoutBuffer) && old(settled).None? ==> settled == Some(Err(NoResult(code)))
    {
      forall rest ensures ResultOf(MARKER + rest) == Trim(rest) { ResultIsRest(rest); }
      if MARKER <= stdoutBuffer {
        settled := Settle(settled, Ok(Trim(RemoveFirst(stdoutBuffer, MARKER))));
        return;
      }
      settled := Settle(settled, Err(NoResult(code)));
    }
  }
}
