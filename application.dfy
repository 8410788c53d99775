/** The application driver of command.py: `_main`, `main` and the
    `__main__` entry point, over a process whose destination stream,
    logging configuration, log trace and shutdown flag are fields. */
module Application {
  import opened Outcomes
  import opened Constants
  import opened Arguments
  import opened LoggingSetup

  // ---------------------------------------------------------------------
  // Streams as text

  /** The lines a text stream yields when iterated, each keeping its
      terminating newline; the last one may lack it. */
  function SplitLines(text: string): (lines: seq<string>)
    ensures |lines| <= |text|
    ensures text == [] <==> lines == []
  {
    if text == [] then []
    else
      var rest := SplitLines(text[1..]);
      if text[0] == '\n' || rest == [] then [[text[0]]] + rest
      else [[text[0]] + rest[0]] + rest[1..]
  }

  /** The text a sequence of writes leaves in a stream. */
  function Concat(lines: seq<string>): string
  {
    if lines == [] then [] else lines[0] + Concat(lines[1..])
  }

  predicate EndsWithNewline(s: string)
  {
    |s| > 0 && s[|s| - 1] == '\n'
  }

  /** A newline occurs in `s` at most as its last character. */
  predicate NewlineOnlyAtEnd(s: string)
  {
    forall j :: 0 <= j < |s| - 1 ==> s[j] != '\n'
  }

  /** What line iteration promises: no empty line, every newline ends a
      line, and every line but the last ends with one. */
  predicate WellFormedLines(lines: seq<string>)
  {
    && (forall i :: 0 <= i < |lines| ==> lines[i] != [] && NewlineOnlyAtEnd(lines[i]))
    && (forall i :: 0 <= i < |lines| - 1 ==> EndsWithNewline(lines[i]))
  }

  lemma {:induction false} ConcatSplitLines(text: string)
    ensures Concat(SplitLines(text)) == text
  {
    if text != [] {
      var rest := SplitLines(text[1..]);
      ConcatSplitLines(text[1..]);
      if text[0] == '\n' || rest == [] {
        assert Concat([[text[0]]] + rest) == [text[0]] + Concat(rest);
      } else {
        var ls := [[text[0]] + rest[0]] + rest[1..];
        assert ls[1..] == rest[1..];
        assert Concat(rest) == rest[0] + Concat(rest[1..]);
        assert Concat(ls) == [text[0]] + rest[0] + Concat(rest[1..]);
      }
    }
  }

  lemma {:induction false} SplitLinesWellFormed(text: string)
    ensures WellFormedLines(SplitLines(text))
  {
    if text != [] {
      var rest := SplitLines(text[1..]);
      SplitLinesWellFormed(text[1..]);
      var ls := SplitLines(text);
      if text[0] == '\n' || rest == [] {
        assert ls == [[text[0]]] + rest;
        forall i | 0 <= i < |ls| - 1 ensures EndsWithNewline(ls[i]) {
          if i > 0 { assert ls[i] == rest[i - 1]; }
        }
      } else {
        assert ls == [[text[0]] + rest[0]] + rest[1..];
        forall i | 0 <= i < |ls| ensures ls[i] != [] && NewlineOnlyAtEnd(ls[i]) {
          if i > 0 { assert ls[i] == rest[i]; }
        }
        forall i | 0 <= i < |ls| - 1 ensures EndsWithNewline(ls[i]) {
          assert i > 0 ==> ls[i] == rest[i];
        }
      }
    }
  }

  /** A complete line at the front of a text is the first line it yields. */
  lemma {:induction false} SplitLinesFirst(line: string, rest: string)
    requires EndsWithNewline(line) && NewlineOnlyAtEnd(line)
    ensures SplitLines(line + rest) == [line] + SplitLines(rest)
  {
    var text := line + rest;
    if |line| > 1 {
      var tail := line[1..];
      assert text[1..] == tail + rest;
      assert EndsWithNewline(tail) && NewlineOnlyAtEnd(tail) by {
        forall j | 0 <= j < |tail| - 1 ensures tail[j] != '\n' {
          assert tail[j] == line[j + 1];
        }
      }
      SplitLinesFirst(tail, rest);
      assert text[0] != '\n';
      assert [text[0]] + tail == line;
    } else {
      assert text[1..] == rest;
      assert line == [text[0]];
    }
  }

  /** Splitting and rejoining at any line leaves the stream's text intact. */
  lemma {:induction false} ConcatSplit(lines: seq<string>, k: nat)
    requires k <= |lines|
    ensures Concat(lines[..k]) + Concat(lines[k..]) == Concat(lines)
  {
    if k > 0 {
      ConcatSplit(lines[1..], k - 1);
      assert lines[..k][1..] == lines[1..][..k - 1];
      assert lines[k..] == lines[1..][k - 1..];
    }
  }

  lemma ConcatSnoc(lines: seq<string>, line: string)
    ensures Concat(lines + [line]) == Concat(lines) + line
  {
    var all := lines + [line];
    ConcatSplit(all, |lines|);
    assert all[..|lines|] == lines;
    assert all[|lines|..] == [line];
    assert Concat([line]) == line + Concat([]);
  }

  // ---------------------------------------------------------------------
  // _main: the line-copy loop, specified

  /** An I/O failure: the read of line `at` (`at` equal to the line count
      is the read that would detect end of file) or the write of line `at`
      raises `error`. */
  datatype Fault = Fault(at: nat, onWrite: bool, error: Exc)

  /** The source stream's text and the failure, if any, its reads or the
      destination's writes run into. */
  datatype Io = Io(text: string, fault: Option<Fault>)

  function Lines(io: Io): seq<string>
  {
    SplitLines(io.text)
  }

  predicate ReadFails(io: Io, i: nat)
  {
    io.fault.Some? && !io.fault.value.onWrite && io.fault.value.at == i
  }

  predicate WriteFails(io: Io, i: nat)
  {
    io.fault.Some? && io.fault.value.onWrite && io.fault.value.at == i
  }

  /** The fault is hit before the loop ends. */
  predicate Faulted(io: Io)
  {
    exists i :: 0 <= i <= |Lines(io)| && (ReadFails(io, i) || (i < |Lines(io)| && WriteFails(io, i)))
  }

  /** How many lines are copied before the loop stops. */
  function Copied(io: Io): (k: nat)
    ensures k <= |Lines(io)|
    ensures Faulted(io) ==> k == io.fault.value.at
    ensures !Faulted(io) ==> k == |Lines(io)|
  {
    var n := |Lines(io)|;
    match io.fault
    case None => n
    case Some(f) =>
      if (f.onWrite && f.at < n) || (!f.onWrite && f.at <= n) then
        assert ReadFails(io, f.at) || WriteFails(io, f.at);
        f.at
      else n
  }

  /** The two debug records logged for each line copied. */
  function LineRecords(lines: seq<string>): seq<Record>
  {
    if lines == [] then []
    else LineRecords(lines[..|lines| - 1]) + [Record(Debug, FoundLine(lines[|lines| - 1])), Record(Debug, WroteLine)]
  }

  /** The records _main logs: two per copied line, then either the "Found
      line" record of the line whose write failed, nothing (a read failed),
      or the closing "Exiting successfully". */
  function CopyTrace(io: Io): (trace: seq<Record>)
    ensures |trace| == 2 * Copied(io) + (if Faulted(io) && !io.fault.value.onWrite then 0 else 1)
    ensures forall i :: 0 <= i < Copied(io) ==>
      trace[2 * i] == Record(Debug, FoundLine(Lines(io)[i])) && trace[2 * i + 1] == Record(Debug, WroteLine)
    ensures Faulted(io) && io.fault.value.onWrite ==>
      trace[|trace| - 1] == Record(Debug, FoundLine(Lines(io)[io.fault.value.at]))
    ensures !Faulted(io) ==> trace[|trace| - 1] == Record(Info, ExitingSuccessfully)
  {
    var lines := Lines(io);
    LineRecordsAt(lines[..Copied(io)]);
    LineRecords(lines[..Copied(io)])
      + if !Faulted(io) then [Record(Info, ExitingSuccessfully)]
        else if io.fault.value.onWrite then [Record(Debug, FoundLine(lines[Copied(io)]))]
        else []
  }

  /** What _main returns or raises: SUCCESS exactly when it got as far as
      logging "Exiting successfully", and otherwise the exception of the
      failing read or write. */
  function CopyResult(io: Io): (r: Result<int, Exc>)
    ensures r.Success? <==> !Faulted(io)
    ensures r.Success? <==> Record(Info, ExitingSuccessfully) in CopyTrace(io)
    ensures r.Success? ==> r.value == SuccessCode
    ensures r.Failure? ==> io.fault.Some? && r.error == io.fault.value.error
  {
    LineRecordsDebug(Lines(io)[..Copied(io)]);
    if Faulted(io) then Failure(io.fault.value.error) else Success(SuccessCode)
  }

  /** What _main writes to the destination: always a prefix of the source's
      text, and all of it when no read or write fails. */
  function CopyOutput(io: Io): (out: string)
    ensures out <= io.text
    ensures !Faulted(io) ==> out == io.text
  {
    var lines := Lines(io);
    ConcatSplitLines(io.text);
    ConcatSplit(lines, Copied(io));
    assert !Faulted(io) ==> lines[..Copied(io)] == lines;
    Concat(lines[..Copied(io)])
  }

  /** A line whose read and write both succeed is copied in full. */
  lemma CopiedPast(io: Io, i: nat)
    requires i <= Copied(io) && i < |Lines(io)|
    requires !ReadFails(io, i) && !WriteFails(io, i)
    ensures i + 1 <= Copied(io)
  {
  }

  lemma LineRecordsSnoc(lines: seq<string>, line: string)
    ensures LineRecords(lines + [line]) == LineRecords(lines) + [Record(Debug, FoundLine(line)), Record(Debug, WroteLine)]
  {
    assert (lines + [line])[..|lines|] == lines;
  }

  /** Where _main stops at a failing read or write of line `i`. */
  lemma CopyStopsAt(io: Io, i: nat)
    requires i <= |Lines(io)|
    requires ReadFails(io, i) || (i < |Lines(io)| && WriteFails(io, i))
    ensures Faulted(io) && Copied(io) == i
    ensures CopyResult(io) == Failure(io.fault.value.error)
    ensures CopyOutput(io) == Concat(Lines(io)[..i])
    ensures CopyTrace(io) == LineRecords(Lines(io)[..i]) +
      if WriteFails(io, i) then [Record(Debug, FoundLine(Lines(io)[i]))] else []
  {
  }

  /** Where _main stops when no read or write fails. */
  lemma CopyCompletes(io: Io)
    requires !Faulted(io)
    ensures Copied(io) == |Lines(io)|
    ensures CopyResult(io) == Success(SuccessCode)
    ensures CopyOutput(io) == Concat(Lines(io))
    ensures CopyTrace(io) == LineRecords(Lines(io)) + [Record(Info, ExitingSuccessfully)]
  {
    assert Lines(io)[..|Lines(io)|] == Lines(io);
  }

  lemma {:induction false} LineRecordsAt(lines: seq<string>)
    ensures |LineRecords(lines)| == 2 * |lines|
    ensures forall i :: 0 <= i < |lines| ==>
      LineRecords(lines)[2 * i] == Record(Debug, FoundLine(lines[i])) &&
      LineRecords(lines)[2 * i + 1] == Record(Debug, WroteLine)
  {
    if lines != [] {
      var init := lines[..|lines| - 1];
      LineRecordsAt(init);
      forall i | 0 <= i < |lines|
        ensures LineRecords(lines)[2 * i] == Record(Debug, FoundLine(lines[i]))
        ensures LineRecords(lines)[2 * i + 1] == Record(Debug, WroteLine)
      {
        if i < |init| { assert init[i] == lines[i]; }
      }
    }
  }

  /** Copying lines logs only debug records, none of them the closing one. */
  lemma {:induction false} LineRecordsDebug(lines: seq<string>)
    ensures forall r :: r in LineRecords(lines) ==> r.severity == Debug && r.message != ExitingSuccessfully
  {
    if lines != [] {
      LineRecordsDebug(lines[..|lines| - 1]);
    }
  }

  /** A copy that runs into no fault writes the source's text unchanged,
      logs "Found line" for every line in order, each followed by the write
      record, then exactly one "Exiting successfully", and returns SUCCESS. */
  lemma CopySucceeds(io: Io)
    requires !Faulted(io)
    ensures CopyResult(io) == Success(0)
    ensures CopyOutput(io) == io.text
    ensures |CopyTrace(io)| == 2 * |Lines(io)| + 1
    ensures forall i :: 0 <= i < |Lines(io)| ==>
      CopyTrace(io)[2 * i] == Record(Debug, FoundLine(Lines(io)[i])) &&
      CopyTrace(io)[2 * i + 1] == Record(Debug, WroteLine)
    ensures CopyTrace(io)[|CopyTrace(io)| - 1] == Record(Info, ExitingSuccessfully)
    ensures forall i :: 0 <= i < |CopyTrace(io)| - 1 ==> CopyTrace(io)[i].message != ExitingSuccessfully
  {
    var lines := Lines(io);
    assert lines[..Copied(io)] == lines;
    ConcatSplitLines(io.text);
    LineRecordsAt(lines);
    LineRecordsDebug(lines);
    var trace := CopyTrace(io);
    forall i | 0 <= i < |trace| - 1 ensures trace[i].message != ExitingSuccessfully {
      assert trace[i] in LineRecords(lines);
    }
  }

  /** A copy that runs into its fault raises the fault's exception, has
      written only a prefix of the source's text, and never logs
      "Exiting successfully". */
  lemma CopyFails(io: Io)
    requires Faulted(io)
    ensures CopyResult(io) == Failure(io.fault.value.error)
    ensures CopyOutput(io) <= io.text
    ensures forall r :: r in CopyTrace(io) ==> r.message != ExitingSuccessfully && r.severity == Debug
  {
    var lines := Lines(io);
    ConcatSplitLines(io.text);
    ConcatSplit(lines, Copied(io));
    LineRecordsDebug(lines[..Copied(io)]);
  }

  // ---------------------------------------------------------------------
  // main and the entry point, specified

  /** The phases of one invocation. A failure that escapes `main` leaves it
      in the phase where it was raised. */
  datatype Phase = Start | ParsingArgs | ConfiguringLogging | Running | Done | ErrorExit

  /** How `main` ends: it returns a code, or an exception escapes it. */
  datatype MainOutcome = Returned(rc: int) | Raised(error: Exc)

  /** Everything one call of `main` does: how it ends, the phase it ends in,
      the records it logs, the text it writes, and the logging state it
      installs (None when configure_logging did not complete). */
  datatype Run = Run(outcome: MainOutcome, phase: Phase, records: seq<Record>, output: string, logging: Option<LogState>)

  /** main, given argparse's outcome, what opening the log file raises and
      the I/O environment of the copy. Parse failures and run failures that
      are `Exception`s are logged and become UNHANDLED_EXCEPTION; a failure
      of configure_logging is not caught. */
  function MainRun(parsed: Result<Namespace, Exc>, openError: Option<Exc>, io: Io): (run: Run)
    ensures run.logging.Some? <==> parsed.Success? && HandlerList(parsed.value.logFile, openError).Success?
    ensures run.logging.Some? ==> run.logging.value.level == VerbosityLevel(parsed.value.verbose)
    ensures run.output <= io.text
    ensures run.output != [] ==> run.logging.Some?
    ensures run.outcome.Returned? ==> run.outcome.rc in {SuccessCode, UnhandledExceptionCode}
    ensures run.outcome == Returned(SuccessCode) <==> run.phase == Done
  {
    match ParseArgs(parsed)
    case Failure(e) =>
      if e.ordinary then
        Run(Returned(UnhandledExceptionCode), ErrorExit, [Record(Critical, UnhandledException(e.description))], [], None)
      else Run(Raised(e), ParsingArgs, [], [], None)
    case Success(args) => ConfiguredRun(args, openError, io)
  }

  /** The part of main after parse_args returned: configure_logging, which
      nothing catches, then "Received args" and _main under the second
      boundary. */
  function ConfiguredRun(args: Args, openError: Option<Exc>, io: Io): (run: Run)
    ensures run.logging.Some? <==> HandlerList(args.logFile, openError).Success?
    ensures run.logging.Some? ==> run.logging.value == LogState(args.verbose, HandlerList(args.logFile, openError).value)
    ensures run.output <= io.text
    ensures run.output != [] ==> run.logging.Some?
    ensures run.outcome.Returned? ==> run.outcome.rc in {SuccessCode, UnhandledExceptionCode}
    ensures run.outcome == Returned(SuccessCode) <==> run.phase == Done
  {
    match HandlerList(args.logFile, openError)
    case Failure(e) => Run(Raised(e), ConfiguringLogging, [], [], None)
    case Success(handlers) =>
      var logging := Some(LogState(args.verbose, handlers));
      var records := [Record(Debug, ReceivedArgs)] + CopyTrace(io);
      match CopyResult(io)
      case Success(rc) => Run(Returned(rc), Done, records, CopyOutput(io), logging)
      case Failure(e) =>
        if e.ordinary then
          Run(Returned(UnhandledExceptionCode), ErrorExit,
              records + [Record(Critical, UnhandledException(e.description))], CopyOutput(io), logging)
        else Run(Raised(e), Running, records, CopyOutput(io), logging)
  }

  /** The code the entry point exits with: main's return value, or
      UNHANDLED_EXCEPTION for anything that escaped main. */
  function ExitCode(outcome: MainOutcome): (rc: int)
    ensures outcome.Returned? ==> rc == outcome.rc
    ensures rc == SuccessCode ==> outcome == Returned(SuccessCode)
  {
    match outcome
    case Returned(rc) => rc
    case Raised(_) => UnhandledExceptionCode
  }

  /** A failed parse never reaches configure_logging: nothing is written and
      the logging state is untouched. An `Exception` is logged once as
      critical and main returns 1; anything else (argparse's SystemExit)
      escapes main. The process exits with 1 either way. */
  lemma ParseFailureShortCircuits(parsed: Result<Namespace, Exc>, openError: Option<Exc>, io: Io)
    requires parsed.Failure?
    ensures MainRun(parsed, openError, io).logging == None
    ensures MainRun(parsed, openError, io).output == []
    ensures parsed.error.ordinary ==>
      && MainRun(parsed, openError, io).outcome == Returned(1)
      && MainRun(parsed, openError, io).records == [Record(Critical, UnhandledException(parsed.error.description))]
    ensures !parsed.error.ordinary ==>
      && MainRun(parsed, openError, io).outcome == Raised(parsed.error)
      && MainRun(parsed, openError, io).records == []
    ensures ExitCode(MainRun(parsed, openError, io).outcome) == 1
  {
  }

  /** A log file that cannot be opened makes configure_logging raise, and
      nothing in main catches it: main neither logs nor writes, and the
      entry point turns the escaped exception into exit code 1. */
  lemma ConfigureFailureEscapes(parsed: Result<Namespace, Exc>, openError: Option<Exc>, io: Io)
    requires parsed.Success? && parsed.value.logFile.Some? && openError.Some?
    ensures MainRun(parsed, openError, io).outcome == Raised(openError.value)
    ensures MainRun(parsed, openError, io).phase == ConfiguringLogging
    ensures MainRun(parsed, openError, io).records == [] && MainRun(parsed, openError, io).output == []
    ensures ExitCode(MainRun(parsed, openError, io).outcome) == 1
  {
  }

  /** A run failure that is an `Exception` is logged as exactly one critical
      record, at the very end, and main returns 1; when it is not one it
      escapes main, unlogged. Either way what was written is a prefix of the
      source's text. */
  lemma RunFailureHandled(parsed: Result<Namespace, Exc>, openError: Option<Exc>, io: Io)
    requires parsed.Success? && HandlerList(parsed.value.logFile, openError).Success?
    requires Faulted(io)
    ensures MainRun(parsed, openError, io).output <= io.text
    ensures io.fault.value.error.ordinary ==>
      MainRun(parsed, openError, io).outcome == Returned(1) &&
      MainRun(parsed, openError, io).phase == ErrorExit
    ensures !io.fault.value.error.ordinary ==> MainRun(parsed, openError, io).outcome == Raised(io.fault.value.error)
    ensures var records := MainRun(parsed, openError, io).records;
      forall i :: 0 <= i < |records| ==>
        (records[i].severity == Critical <==> io.fault.value.error.ordinary && i == |records| - 1)
    ensures var records := MainRun(parsed, openError, io).records;
      io.fault.value.error.ordinary ==>
        records[|records| - 1] == Record(Critical, UnhandledException(io.fault.value.error.description))
  {
    CopyFails(io);
    var records := MainRun(parsed, openError, io).records;
    var trace := [Record(Debug, ReceivedArgs)] + CopyTrace(io);
    forall i | 0 <= i < |trace| ensures trace[i].severity == Debug {
      if i > 0 { assert trace[i] in CopyTrace(io); }
    }
  }

  /** The process exits with 0 exactly when parsing, logging configuration
      and the copy all succeed, and with 1 otherwise; when they all succeed
      main returns _main's own value. The final phase tells the outcome. */
  lemma ExitCodeIsZeroIffAllSucceed(parsed: Result<Namespace, Exc>, openError: Option<Exc>, io: Io)
    ensures ExitCode(MainRun(parsed, openError, io).outcome) in {SuccessCode, UnhandledExceptionCode}
    ensures ExitCode(MainRun(parsed, openError, io).outcome) == 0 <==>
      parsed.Success? && HandlerList(parsed.value.logFile, openError).Success? && CopyResult(io).Success?
    ensures parsed.Success? && HandlerList(parsed.value.logFile, openError).Success? && CopyResult(io).Success? ==>
      MainRun(parsed, openError, io).outcome == Returned(CopyResult(io).value)
    ensures MainRun(parsed, openError, io).phase == Done <==> ExitCode(MainRun(parsed, openError, io).outcome) == 0
    ensures MainRun(parsed, openError, io).phase == ErrorExit <==> MainRun(parsed, openError, io).outcome == Returned(1)
  {
  }

  /** A run whose steps all succeed copies the source to the destination
      unchanged, installs the selected level with the handlers for the given
      log file, logs "Received args", then one "Found line" record per line
      in order, then "Exiting successfully" last, and exits with 0. */
  lemma SuccessfulRun(ns: Namespace, openError: Option<Exc>, io: Io)
    requires ns.logFile.None? || openError.None?
    requires !Faulted(io)
    ensures MainRun(Success(ns), openError, io).outcome == Returned(0)
    ensures MainRun(Success(ns), openError, io).output == io.text
    ensures MainRun(Success(ns), openError, io).logging ==
      Some(LogState(VerbosityLevel(ns.verbose), HandlerList(ns.logFile, None).value))
    ensures var records := MainRun(Success(ns), openError, io).records;
      && |records| == 2 * |Lines(io)| + 2
      && records[0] == Record(Debug, ReceivedArgs)
      && (forall i :: 0 <= i < |Lines(io)| ==> records[2 * i + 1] == Record(Debug, FoundLine(Lines(io)[i])))
      && records[|records| - 1] == Record(Info, ExitingSuccessfully)
      && (forall i :: 0 <= i < |records| - 1 ==> records[i].message != ExitingSuccessfully)
  {
    CopySucceeds(io);
    var records := MainRun(Success(ns), openError, io).records;
    assert records == [Record(Debug, ReceivedArgs)] + CopyTrace(io);
    forall i | 0 <= i < |Lines(io)| ensures records[2 * i + 1] == Record(Debug, FoundLine(Lines(io)[i])) {
      assert records[2 * i + 1] == CopyTrace(io)[2 * i];
    }
    forall i | 0 <= i < |records| - 1 ensures records[i].message != ExitingSuccessfully {
      if i > 0 { assert records[i] == CopyTrace(io)[i - 1]; }
    }
  }

  /** The two lines the tests feed to stdin, and their text. */
  const FirstLine: string := "first line\n"
  const SecondLine: string := "second line\n"
  const TwoLineInput: string := FirstLine + SecondLine

  lemma TestLines()
    ensures SplitLines(TwoLineInput) == [FirstLine, SecondLine]
  {
    assert EndsWithNewline(FirstLine) && NewlineOnlyAtEnd(FirstLine);
    assert EndsWithNewline(SecondLine) && NewlineOnlyAtEnd(SecondLine);
    SplitLinesFirst(SecondLine, "");
    assert SecondLine + "" == SecondLine;
    SplitLinesFirst(FirstLine, SecondLine);
  }

  /** Two lines on stdin and no arguments: stdout receives the same two
      lines and the process exits with 0. */
  lemma TwoLinesCopied()
    ensures var io := Io(TwoLineInput, None);
      && Lines(io) == [FirstLine, SecondLine]
      && MainRun(Success(DefaultNamespace), None, io).output == TwoLineInput
      && ExitCode(MainRun(Success(DefaultNamespace), None, io).outcome) == 0
  {
    var io := Io(TwoLineInput, None);
    TestLines();
    assert !Faulted(io);
    SuccessfulRun(DefaultNamespace, None, io);
  }

  /** Five `-v` flags and a log file: logging is set to DEBUG with the stderr
      handler and a truncating handler for the file, and the records include
      both lines and the closing message. */
  lemma LogFileRun(path: string)
    ensures var run := MainRun(Success(Namespace(5, Some(path), StandardStream, StandardStream)), None, Io(TwoLineInput, None));
      && run.logging == Some(LogState("DEBUG", [StreamHandler(Stderr), FileHandler(path, "w")]))
      && Record(Debug, FoundLine(FirstLine)) in run.records
      && Record(Debug, FoundLine(SecondLine)) in run.records
      && Record(Info, ExitingSuccessfully) in run.records
  {
    var io := Io(TwoLineInput, None);
    var ns := Namespace(5, Some(path), StandardStream, StandardStream);
    TestLines();
    assert !Faulted(io);
    SuccessfulRun(ns, None, io);
    var records := MainRun(Success(ns), None, io).records;
    assert records[1] == Record(Debug, FoundLine(FirstLine));
    assert records[3] == Record(Debug, FoundLine(SecondLine));
  }

  // ---------------------------------------------------------------------
  // The process

  /** The state one invocation of the program changes: the destination
      stream's text, the process-wide logging configuration, the log
      records emitted so far, whether `logging.shutdown` has run, and the
      phase of the invocation. */
  class Process {
    var destination: string
    var logging: Option<LogState>
    var trace: seq<Record>
    var shutdown: bool
    var phase: Phase

    constructor ()
      ensures destination == [] && logging == None && trace == []
      ensures !shutdown && phase == Start
    {
      destination, logging, trace := [], None, [];
      shutdown, phase := false, Start;
    }

    /** configure_logging: builds the handler list and installs it with the
        level; if opening the log file raises, the exception is returned and
        the logging state is left as it was. */
    method ConfigureLogging(newLevel: string, filename: Option<string>, openError: Option<Exc>) returns (raised: Option<Exc>)
      modifies this
      ensures raised.None? <==> HandlerList(filename, openError).Success?
      ensures raised.Some? ==> raised.value == HandlerList(filename, openError).error
      ensures raised.None? ==> logging == Some(LogState(newLevel, HandlerList(filename, openError).value))
      ensures raised.Some? ==> logging == old(logging)
      ensures destination == old(destination) && trace == old(trace)
      ensures shutdown == old(shutdown) && phase == old(phase)
    {
      var list := [StreamHandler(Stderr)];
      if filename.Some? {
        if openError.Some? {
          return Some(openError.value);
        }
        list := list + [FileHandler(filename.value, "w")];
      }
      assert list == HandlerList(filename, openError).value;
      logging := Some(LogState(newLevel, list));
      return None;
    }

    /** _main: copies the source line by line to the destination, logging
        each line found and each write, then the success message. */
    method CopyLines(io: Io) returns (r: Result<int, Exc>)
      modifies this
      ensures r == CopyResult(io)
      ensures destination == old(destination) + CopyOutput(io)
      ensures trace == old(trace) + CopyTrace(io)
      ensures logging == old(logging)
      ensures shutdown == old(shutdown) && phase == old(phase)
    {
      var lines := Lines(io);
      var i := 0;
      while i < |lines|
        invariant i <= Copied(io)
        invariant destination == old(destination) + Concat(lines[..i])
        invariant trace == old(trace) + LineRecords(lines[..i])
        invariant logging == old(logging)
        invariant shutdown == old(shutdown) && phase == old(phase)
      {
        if ReadFails(io, i) {
          CopyStopsAt(io, i);
          return Failure(io.fault.value.error);
        }
        ghost var done := LineRecords(lines[..i]);
        var found := Record(Debug, FoundLine(lines[i]));
        trace := trace + [found];
        assert trace == old(trace) + (done + [found]);
        if WriteFails(io, i) {
          CopyStopsAt(io, i);
          return Failure(io.fault.value.error);
        }
        assert lines[..i + 1] == lines[..i] + [lines[i]];
        ConcatSnoc(lines[..i], lines[i]);
        LineRecordsSnoc(lines[..i], lines[i]);
        CopiedPast(io, i);
        destination := destination + lines[i];
        trace := trace + [Record(Debug, WroteLine)];
        assert trace == old(trace) + (done + [found, Record(Debug, WroteLine)]);
        i := i + 1;
      }
      assert lines[..i] == lines;
      if ReadFails(io, |lines|) {
        CopyStopsAt(io, i);
        return Failure(io.fault.value.error);
      }
      CopyCompletes(io);
      trace := trace + [Record(Info, ExitingSuccessfully)];
      assert trace == old(trace) + (LineRecords(lines) + [Record(Info, ExitingSuccessfully)]);
      return Success(SuccessCode);
    }

    /** The state after a call of main that did what `run` describes,
        starting from the given trace, destination text and logging state:
        it is in the run's phase, has the run's records and output appended,
        and holds the logging state the run installed, or the old one. */
    ghost predicate Reflects(run: Run, trace0: seq<Record>, destination0: string, logging0: Option<LogState>)
      reads this
    {
      && phase == run.phase
      && trace == trace0 + run.records
      && destination == destination0 + run.output
      && logging == (if run.logging.Some? then run.logging else logging0)
    }

    /** main: parse_args under the first boundary, then the rest. */
    method MainDriver(parsed: Result<Namespace, Exc>, openError: Option<Exc>, io: Io) returns (outcome: MainOutcome)
      modifies this
      ensures outcome == MainRun(parsed, openError, io).outcome
      ensures Reflects(MainRun(parsed, openError, io), old(trace), old(destination), old(logging))
      ensures shutdown == old(shutdown)
    {
      phase := ParsingArgs;
      var args := ParseArgs(parsed);
      if args.Failure? {
        if !args.error.ordinary {
          return Raised(args.error);
        }
        trace := trace + [Record(Critical, UnhandledException(args.error.description))];
        phase := ErrorExit;
        return Returned(UnhandledExceptionCode);
      }
      outcome := ConfigureAndRun(args.value, openError, io);
    }

    /** The rest of main: configure_logging with no boundary around it, the
        "Received args" record, and _main under the second boundary, whose
        `Exception`s are logged as critical and become UNHANDLED_EXCEPTION. */
    method ConfigureAndRun(args: Args, openError: Option<Exc>, io: Io) returns (outcome: MainOutcome)
      modifies this
      ensures outcome == ConfiguredRun(args, openError, io).outcome
      ensures Reflects(ConfiguredRun(args, openError, io), old(trace), old(destination), old(logging))
      ensures shutdown == old(shutdown)
    {
      phase := ConfiguringLogging;
      var raised := ConfigureLogging(args.verbose, args.logFile, openError);
      if raised.Some? {
        return Raised(raised.value);
      }
      ghost var trace0 := old(trace);
      trace := trace + [Record(Debug, ReceivedArgs)];
      phase := Running;
      var r := CopyLines(io);
      ghost var records := [Record(Debug, ReceivedArgs)] + CopyTrace(io);
      assert trace == trace0 + records;
      if r.Success? {
        phase := Done;
        return Returned(r.value);
      }
      if !r.error.ordinary {
        return Raised(r.error);
      }
      var critical := Record(Critical, UnhandledException(r.error.description));
      trace := trace + [critical];
      assert trace == trace0 + (records + [critical]);
      phase := ErrorExit;
      return Returned(UnhandledExceptionCode);
    }

    /** The `__main__` block: runs main, maps anything that escapes it to
        UNHANDLED_EXCEPTION, and shuts logging down on every path. */
    method EntryPoint(parsed: Result<Namespace, Exc>, openError: Option<Exc>, io: Io) returns (rc: int)
      modifies this
      ensures rc == ExitCode(MainRun(parsed, openError, io).outcome)
      ensures Reflects(MainRun(parsed, openError, io), old(trace), old(destination), old(logging))
      ensures shutdown
    {
      var outcome := MainDriver(parsed, openError, io);
      match outcome {
        case Returned(code) => rc := code;
        case Raised(_) => rc := UnhandledExceptionCode;
      }
      shutdown := true;
    }
  }
}
