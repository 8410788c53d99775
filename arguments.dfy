/** The argument parser of command.py: `parse_args`. The argparse library is
    abstract here; only the post-processing of its result is modelled. */
module Arguments {
  import opened Outcomes
  import opened Constants

  /** An opened stream as argparse hands it over: the standard stream for
      `-` (the default), or a named file. */
  datatype Stream = StandardStream | FileStream(path: string)

  /** What `parser.parse_args(argv)` returns: the `-v` count, the optional
      `--log-file` path and the two opened streams. */
  datatype Namespace = Namespace(verbose: nat, logFile: Option<string>, source: Stream, destination: Stream)

  /** The namespace after post-processing: `verbose` is now a level name. */
  datatype Args = Args(verbose: string, logFile: Option<string>, source: Stream, destination: Stream)

  /** What argparse yields for an empty argument vector. */
  const DefaultNamespace: Namespace := Namespace(0, None, StandardStream, StandardStream)

  function Min(a: int, b: int): int
  {
    if a <= b then a else b
  }

  /** Position of `x` in `s`, or -1 when it does not occur. */
  function IndexOf<T(==)>(s: seq<T>, x: T): (i: int)
    ensures -1 <= i < |s|
    ensures 0 <= i ==> s[i] == x
    ensures i < 0 <==> x !in s
  {
    if s == [] then -1
    else if s[0] == x then 0
    else var j := IndexOf(s[1..], x); if j < 0 then -1 else j + 1
  }

  /** In a list without repeats, an entry's position is its index. */
  lemma IndexOfDistinct<T>(s: seq<T>, k: nat)
    requires Distinct(s) && k < |s|
    ensures IndexOf(s, s[k]) == k
  {
  }

  /** How verbose a level name is: its position in LogLevels. */
  function LevelIndex(name: string): int
  {
    IndexOf(LogLevels, name)
  }

  /** The level selected by `count` occurrences of `-v`. */
  function VerbosityLevel(count: nat): (level: string)
    ensures level in LogLevels
  {
    LogLevels[Min(count, |LogLevels| - 1)]
  }

  /** parse_args: argparse's outcome is propagated unchanged when it raised;
      otherwise the count is replaced by a level name and the rest is kept. */
  function ParseArgs(parsed: Result<Namespace, Exc>): (r: Result<Args, Exc>)
    ensures r.Success? <==> parsed.Success?
    ensures r.Failure? ==> r.error == parsed.error
    ensures r.Success? ==> r.value.verbose in LogLevels
    ensures r.Success? ==> LevelIndex(r.value.verbose) == Min(parsed.value.verbose, |LogLevels| - 1)
    ensures r.Success? ==> r.value.logFile == parsed.value.logFile
    ensures r.Success? ==> r.value.source == parsed.value.source && r.value.destination == parsed.value.destination
  {
    match parsed
    case Failure(e) => Failure(e)
    case Success(ns) =>
      VerbosityIndex(ns.verbose);
      Success(Args(VerbosityLevel(ns.verbose), ns.logFile, ns.source, ns.destination))
  }

  /** The selected level sits at position min(count, 5) of LogLevels: exactly
      `count` for counts up to 5, and DEBUG for any larger count. */
  lemma VerbosityIndex(count: nat)
    ensures LevelIndex(VerbosityLevel(count)) == Min(count, |LogLevels| - 1)
    ensures count < |LogLevels| ==> LevelIndex(VerbosityLevel(count)) == count
    ensures count >= |LogLevels| - 1 ==> VerbosityLevel(count) == "DEBUG"
  {
    TablesWellFormed();
    IndexOfDistinct(LogLevels, Min(count, |LogLevels| - 1));
  }

  /** More `-v` flags never select a less verbose level. */
  lemma VerbosityMonotone(fewer: nat, more: nat)
    requires fewer <= more
    ensures LevelIndex(VerbosityLevel(fewer)) <= LevelIndex(VerbosityLevel(more))
  {
    VerbosityIndex(fewer);
    VerbosityIndex(more);
  }

  /** Without arguments the streams are the standard ones and the level is
      CRITICAL. */
  lemma DefaultArgs()
    ensures ParseArgs(Success(DefaultNamespace)) == Success(Args("CRITICAL", None, StandardStream, StandardStream))
  {
  }

  /** The counts the verbosity tests use, from `-v` to eleven flags. */
  lemma TestedVerbosities()
    ensures VerbosityLevel(0) == "CRITICAL" && VerbosityLevel(1) == "FATAL"
    ensures VerbosityLevel(2) == "ERROR" && VerbosityLevel(3) == "WARNING"
    ensures VerbosityLevel(4) == "INFO" && VerbosityLevel(5) == "DEBUG"
    ensures VerbosityLevel(11) == "DEBUG"
  {
  }
}
