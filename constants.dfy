/** The two module-level tables of command.py. */
module Constants {

  /** Severity names, from least to most verbose; the `-v` count indexes it. */
  const LogLevels: seq<string> := ["CRITICAL", "FATAL", "ERROR", "WARNING", "INFO", "DEBUG"]

  /** The process return codes by name. */
  const ReturnCodes: map<string, int> := map["SUCCESS" := 0, "UNHANDLED_EXCEPTION" := 1]

  const SuccessCode: int := ReturnCodes["SUCCESS"]
  const UnhandledExceptionCode: int := ReturnCodes["UNHANDLED_EXCEPTION"]

  /** No severity name occurs twice, so a name determines its position. */
  predicate Distinct<T(==)>(s: seq<T>)
  {
    forall i, j :: 0 <= i < j < |s| ==> s[i] != s[j]
  }

  /** The tables have the shape the rest of the program relies on: six
      distinct levels from CRITICAL to DEBUG, and two different codes with
      success being 0. */
  lemma TablesWellFormed()
    ensures |LogLevels| == 6 && Distinct(LogLevels)
    ensures LogLevels[0] == "CRITICAL" && LogLevels[|LogLevels| - 1] == "DEBUG"
    ensures SuccessCode == 0 && UnhandledExceptionCode == 1
  {
  }
}
