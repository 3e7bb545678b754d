/** The records the application passes around (types.ts), and the debugger record of App.tsx. */
module Types {
  import opened Wrappers

  /** One bug the analysis reports. The severity is kept as the reply gives it. */
  datatype BugReport = BugReport(line: int, description: string, severity: string)

  /** A place where the analysis suggests adding a log statement. */
  datatype LogSuggestion = LogSuggestion(line: int, suggestion: string)

  /** The analysis of one piece of code. */
  datatype AnalysisResult = AnalysisResult(bugs: seq<BugReport>, logs: seq<LogSuggestion>, features: seq<string>)

  /** An error shown to the user: a title and a message. */
  datatype AppError = AppError(title: string, message: string)

  /** One saved analysis. */
  datatype HistoryEntry = HistoryEntry(id: string, timestamp: int, title: string, code: string, result: AnalysisResult)

  /**
   * The debugger record App.tsx keeps. `scope` is `null` or an object of named strings,
   * `activeLine` is -1 when no line is active.
   */
  datatype DebuggerState = DebuggerState(
    isPaused: bool,
    scope: Option<map<string, string>>,
    activeLine: int,
    consoleOutput: seq<string>,
    isFinished: bool)
}
