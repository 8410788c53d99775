# A verified model of a command-line program template

The program is a template for Python command-line tools. Its one source file,
`command.py`, has three parts:

- `parse_args` turns the argument vector into an argument record. The record
  holds a source stream (stdin by default) and a destination stream (stdout by
  default). It also holds a verbosity level, taken from the `LOG_LEVELS` list
  by the count of `-v` flags, clamped to the last entry. Last, it holds an
  optional log-file path.
- `configure_logging` installs the process-wide logging configuration. There
  is always a stderr handler. A truncating file handler is added when a log
  file is given.
- The driver. `_main` copies the source to the destination line by line and
  logs each step. `main` parses, configures logging and runs `_main`; it
  catches failures of parsing and of running, but not of logging
  configuration. The `__main__` block maps anything that escapes `main` to
  `UNHANDLED_EXCEPTION` and always calls `logging.shutdown()`.

The Dafny model has five modules:

- `Outcomes`: `Option`, `Result`, and `Exc` for a raised Python exception.
- `Constants`: `LOG_LEVELS` and `RETURN_CODES`.
- `Arguments`: the post-processing in `parse_args`. The level a `-v` count
  selects, with lemmas on clamping and monotonicity.
- `LoggingSetup`: handler, severity and record datatypes, and `HandlerList`,
  the list `configure_logging` builds.
- `Application`: the driver. Pure functions say what one call of `_main`
  (`CopyTrace`, `CopyOutput`, `CopyResult`) and of `main` (`MainRun`) does.
  Lemmas state the properties of those functions. The class `Process` holds
  the destination text, the logging state (level and handlers), the record trace,
  the shutdown flag and the invocation's phase. Its methods do what the
  Python functions do: `CopyLines` has the copy loop. Each method's
  postcondition ties the new state to the pure specification.

The things the program cannot see are inputs to the model:

- argparse's outcome, as a `Result<Namespace, Exc>`;
- what opening the log file raises, as an `Option<Exc>`;
- the source's text and the one read or write that fails, if any, as an `Io`.

A stream is a `string`. The source yields its lines the way Python iterates a
text file (`SplitLines`): each line keeps its newline, and only the last may
lack one.

### Parse failures escape `main`

argparse reports these by raising `SystemExit`:

- a usage error;
- a source or destination that cannot be opened;
- `--help`.

`SystemExit` does not derive from `Exception`, so `except Exception` at
command.py:122 does not catch it. Such a failure leaves `main` without the
critical log record. The bare `except:` at command.py:138 catches it and turns
it into exit code 1, so `--help` also exits with 1. Only an `Exception`
raised while parsing is logged and returned as 1 by `main` itself. In the
model, `Exc.ordinary` tells the two kinds apart, and
`ParseFailureShortCircuits` states both outcomes.

The six entries of `LOG_LEVELS` include `FATAL`, which Python's logging
library treats as an alias of `CRITICAL`.

## Model

| member | source | states |
|---|---|---|
| Constants.TablesWellFormed | command.py:23-35 | six distinct level names from CRITICAL to DEBUG; SUCCESS is 0 and UNHANDLED_EXCEPTION is 1 |
| Arguments.VerbosityLevel | command.py:71 | the level a `-v` count selects is always a member of LOG_LEVELS, for every count |
| Arguments.ParseArgs | command.py:37-72 | succeeds exactly when argparse succeeds, passing its exception through otherwise; on success the level is the LOG_LEVELS entry at position min(count, 5), and the log file and both streams are kept |
| Arguments.IndexOfDistinct | command.py:23-30 | in a list without repeats, an entry's position is its index, so a level name determines its verbosity |
| Arguments.VerbosityIndex | command.py:71 | the selected level's position is min(count, 5): exactly the count up to 5, and DEBUG for any larger count |
| Arguments.VerbosityMonotone | command.py:56-71 | more `-v` flags never select a less verbose level |
| Arguments.DefaultArgs | command.py:42-62 | without arguments: level CRITICAL, no log file, the standard streams |
| Arguments.TestedVerbosities | test_command.py:45-67 | counts 0 to 5 select CRITICAL, FATAL, ERROR, WARNING, INFO, DEBUG; 11 selects DEBUG |
| LoggingSetup.HandlerList | command.py:78-89 | the stderr handler is first; there are two handlers, the second a mode-"w" file handler for the file, exactly when a filename is given, otherwise one; it fails only when a given file cannot be opened, with that exception |
| Application.ConcatSplitLines | command.py:100 | rejoining the lines that iterating the source yields gives back the source's text |
| Application.SplitLinesWellFormed | command.py:100 | the lines are never empty, a newline only ends a line, and every line but the last ends with one |
| Application.SplitLines | command.py:100 | iterating a text yields no more lines than it has characters, and no lines exactly when it is empty |
| Application.Copied | command.py:100-103 | the copy stops at the line whose read or write fails, and otherwise copies every line |
| Application.CopyTrace | command.py:101-104 | two records per copied line: "Found line" with the line, then the write record. After them comes the "Found line" record of a line whose write failed, or nothing after a failed read, or "Exiting successfully" when nothing failed |
| Application.CopyResult | command.py:100-105 | SUCCESS exactly when "Exiting successfully" was logged, that is, when no read or write failed; otherwise the failing operation's exception |
| Application.CopyOutput | command.py:100-102 | what the copy writes is always a prefix of the source's text, and all of it when nothing fails |
| Application.LineRecordsAt | command.py:101-103 | for each copied line, in order, a "Found line" debug record carrying it, then a write debug record |
| Application.CopySucceeds | command.py:100-105 | without a failure the destination receives exactly the source's text; the trace is "Found line" and write records per line in order, then exactly one "Exiting successfully" info record, last; it returns 0 |
| Application.CopyFails | command.py:100-103 | on a failure the exception propagates, only a prefix of the source's text was written, and only debug records were logged, never "Exiting successfully" |
| Application.MainRun | command.py:108-133 | logging is configured exactly when parsing and opening the log file succeed, at the level the `-v` count selects. Text is written only after that, and it is a prefix of the source's text. main returns only 0 or 1, and 0 exactly when it ends in the Done phase |
| Application.ConfiguredRun | command.py:125-133 | after a successful parse: logging is installed exactly when the handler list can be built, with the parsed level and that list. The output is a prefix of the source's text, written only after logging was installed. main returns only 0 or 1, and 0 exactly in the Done phase |
| Application.ExitCode | command.py:136-139 | the entry point's code is main's return value when main returned; it is 0 only when main returned 0, so an escaped exception never exits with success |
| Application.ParseFailureShortCircuits | command.py:120-124 | a failed parse never configures logging and writes nothing; an Exception is logged once as critical and main returns 1; a SystemExit escapes main unlogged; the exit code is 1 either way |
| Application.ConfigureFailureEscapes | command.py:125 | an unopenable log file makes main raise, uncaught, in the logging phase, with nothing logged or written; the exit code is 1 |
| Application.RunFailureHandled | command.py:128-132 | a failing run that raised an Exception ends with exactly one critical record, the last one, and main returns 1; any other exception escapes main; only a prefix of the text was written |
| Application.ExitCodeIsZeroIffAllSucceed | command.py:120-141 | the exit code is 0 or 1, and 0 exactly when parsing, logging configuration and the copy all succeed; then main returns _main's value; the phase is Done exactly on exit code 0 and ErrorExit exactly when main returned 1 |
| Application.SuccessfulRun | command.py:125-133 | on success the destination gets the source's text; logging gets the selected level and the handlers for the given file; the records are "Received args", one "Found line" per line in order, and "Exiting successfully" exactly once at the end; main returns 0 |
| Application.TestLines | test_command.py:90 | the two-line test input yields the lines "first line\n" and "second line\n" |
| Application.TwoLinesCopied | test_command.py:89-95 | with no arguments and the two-line input, stdout receives exactly that text and the exit code is 0 |
| Application.LogFileRun | test_command.py:69-85 | with five `-v` and a log file: level DEBUG, a stderr handler and a mode-"w" handler for the file; the records hold "Found line" for both lines and "Exiting successfully" |
| Application.Process.ConfigureLogging | command.py:74-94 | builds the stderr-first handler list, appending the file handler when a filename is given, and installs it with the level; if the file cannot be opened it returns the exception and changes nothing |
| Application.Process.CopyLines | command.py:96-105 | the loop appends each line to the destination and the records to the trace: the new destination and trace are the old ones followed by CopyOutput and CopyTrace, and the result is CopyResult |
| Application.Process.MainDriver | command.py:108-133 | runs parse_args under the first boundary, logging an `Exception` as critical and returning 1, and letting anything else escape; then runs the rest; the result and the new phase, trace, destination and logging state are those MainRun gives; shutdown is not touched |
| Application.Process.ConfigureAndRun | command.py:125-133 | configure_logging with no boundary, so its exception escapes; then "Received args" and _main under the second boundary, where an `Exception` is logged as critical and becomes 1; the result and the new state are those ConfiguredRun gives |
| Application.Process.EntryPoint | command.py:135-142 | exits with main's return value, or 1 for anything that escaped main; its state is as for MainDriver, and logging has been shut down on every path |

## Left out

- argparse internals are not modelled: flag syntax, `-vvv` splitting, `--help` output, and `FileType` opening the streams. argparse's result is an input of the model: a failure, or a namespace with the `-v` count, the optional log-file path and the two opened streams.
- Parsing is a function, so giving the same argument vector twice yields the same record trivially. The model does not cover stream identity (`sys.stdin is args.source`).
- Real file and stream I/O is not modelled. A stream is its text. The source's text is an input, and so is the one read or write that fails. The source and destination named in the argument record are not linked to the `Io` value: the model copies whatever text `Io` gives.
- Universal newlines are not modelled: Python also ends a line at `\r\n` or a lone `\r` and turns both into `\n`. The model splits lines only at `\n`.
- The Python logging library is not modelled. A log call is an abstract record of a severity and a message kind, with no formatting, no level filtering and no flushing. So the model does not say which records reach stderr or the file. Nor does it say that `FATAL` and `CRITICAL` are the same numeric threshold.
- `logging.basicConfig` is modelled as installing the level and the handlers. Python's rule that it does nothing when the root logger already has handlers is not modelled.
- The byte count in the "Wrote {n} bytes" record is not modelled, because it depends on the stream. The record appears as `WroteLine`.
- `sys.exit` is not modelled; the entry point returns the code it would exit with. The test harness mechanics (`patch`, `TemporaryDirectory`, `StringIO`) are not modelled either.
- Application.LogFileRun: the test checks the log file's text for the two lines. The abstract records carry no file contents, so the lemma states that the records were logged and that the file handler is installed.
