/** The logging configurator of command.py (`configure_logging`) and the
    abstract log records the rest of the program emits. The Python logging
    library itself (formatting, filtering, flushing) is not modelled. */
module LoggingSetup {
  import opened Outcomes

  /** The process stream a stream handler writes to. */
  datatype StdStream = Stderr

  /** A log handler: a stream handler, or a file handler with its open mode. */
  datatype Handler = StreamHandler(stream: StdStream) | FileHandler(filename: string, mode: string)

  /** The severities the program logs at. */
  datatype Severity = Debug | Info | Critical

  /** The kinds of message the program logs. */
  datatype Message =
    | FoundLine(line: string)                  // "Found line: {line}"
    | WroteLine                                // "Wrote {n} bytes to {destination}"
    | ExitingSuccessfully                      // "Exiting successfully"
    | ReceivedArgs                             // "Received args: {args}"
    | UnhandledException(description: string)  // "An unhandled exception has occurred: {e}"

  datatype Record = Record(severity: Severity, message: Message)

  /** The process-wide logging state that `logging.basicConfig` sets. */
  datatype LogState = LogState(level: string, handlers: seq<Handler>)

  /** The handler list configure_logging builds: the stderr handler first,
      then a truncating file handler exactly when a filename is given.
      `openError` is what opening that file raises, if anything. */
  function HandlerList(filename: Option<string>, openError: Option<Exc>): (r: Result<seq<Handler>, Exc>)
    ensures r.Failure? <==> filename.Some? && openError.Some?
    ensures r.Failure? ==> r.error == openError.value
    ensures r.Success? ==> |r.value| in {1, 2} && r.value[0] == StreamHandler(Stderr)
    ensures r.Success? ==> (|r.value| == 2 <==> filename.Some?)
    ensures r.Success? && filename.Some? ==> r.value[1] == FileHandler(filename.value, "w")
    ensures r.Success? ==> forall h :: h in r.value && h.FileHandler? ==> filename == Some(h.filename) && h.mode == "w"
  {
    if filename.None? then Success([StreamHandler(Stderr)])
    else if openError.Some? then Failure(openError.value)
    else Success([StreamHandler(Stderr), FileHandler(filename.value, "w")])
  }
}
