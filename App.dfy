/**
 * The state of the application component (App.tsx) and the handlers that change it: the
 * breakpoint set, the debugger record, the code and file name, the analysis shown, the error
 * shown and the history sidebar. The analysis service is outside the model: `Analyze` takes
 * what the awaited call produced as a parameter.
 */
module App {
  import opened Wrappers
  import opened Types
  import opened Text
  import Lists
  import History

  // ----- breakpoints -----

  /** The breakpoint set after toggling `line`: that line's membership flips, no other changes. */
  function Toggled(breakpoints: set<int>, line: int): (r: set<int>)
    ensures line in r <==> line !in breakpoints
    ensures forall l :: l != line ==> (l in r <==> l in breakpoints)
  {
    if line in breakpoints then breakpoints - {line} else breakpoints + {line}
  }

  /** Toggling the same line twice restores the set. */
  lemma ToggleTwice(breakpoints: set<int>, line: int)
    ensures Toggled(Toggled(breakpoints, line), line) == breakpoints
  {
  }

  /** The breakpoint set after toggling each of `lines` in turn. */
  function ToggledAll(breakpoints: set<int>, lines: seq<int>): set<int>
    decreases |lines|
  {
    if lines == [] then breakpoints else ToggledAll(Toggled(breakpoints, lines[0]), lines[1..])
  }

  /** How often `line` occurs in `lines`. */
  function Occurrences(lines: seq<int>, line: int): nat
    decreases |lines|
  {
    if lines == [] then 0 else (if lines[0] == line then 1 else 0) + Occurrences(lines[1..], line)
  }

  /**
   * After a sequence of toggles a line is a breakpoint exactly when it was one and was toggled
   * an even number of times, or was not one and was toggled an odd number of times.
   */
  lemma {:induction false} ToggleParity(breakpoints: set<int>, lines: seq<int>, line: int)
    ensures line in ToggledAll(breakpoints, lines) <==> (line in breakpoints) != (Occurrences(lines, line) % 2 == 1)
    decreases |lines|
  {
    if lines != [] {
      ToggleParity(Toggled(breakpoints, lines[0]), lines[1..], line);
    }
  }

  // ----- debugger record -----

  /** The debugger record of a stopped debugger, at start and after `handleStopDebug`. */
  const StoppedDebugger: DebuggerState :=
    DebuggerState(isPaused := false, scope := None, activeLine := -1, consoleOutput := [], isFinished := false)

  /** The fixed record `handleDebug` installs: paused on line 5 with a placeholder scope. */
  const PlaceholderDebugger: DebuggerState :=
    DebuggerState(
      isPaused := true,
      scope := Some(map["message" := "Debugger is not fully implemented.", "advice" := "This is a UI placeholder."]),
      activeLine := 5,
      consoleOutput := ["Debugger started.", "Execution paused at breakpoint on line 5."],
      isFinished := false)

  // ----- history titles -----

  /** The prefix of the title an analysis without a file name is saved under. */
  const AnalysisOfPrefix := "Analysis of"

  /** JavaScript truthiness of `fileName`: present and not empty. */
  predicate HasFileName(fileName: Option<string>) {
    fileName.Some? && fileName.value != ""
  }

  /** `fileName || \`Analysis of ${code.slice(0, 30)}...\``. */
  function HistoryTitle(fileName: Option<string>, code: string): (title: string)
    ensures HasFileName(fileName) ==> title == fileName.value
    ensures !HasFileName(fileName) ==> StartsWith(title, AnalysisOfPrefix) && title != ""
    ensures !HasFileName(fileName) ==>
              var shown := if |code| < 30 then |code| else 30;
              |title| == |AnalysisOfPrefix| + 4 + shown
              && title[|AnalysisOfPrefix|] == ' '
              && title[|AnalysisOfPrefix| + 1..|title| - 3] == code[..shown]
              && title[|title| - 3..] == "..."
  {
    if HasFileName(fileName) then fileName.value
    else AnalysisOfPrefix + " " + Lists.Take(code, 30) + "..."
  }

  /** The file name `handleSelectHistory` restores from a title. */
  function FileNameForTitle(title: string): (fileName: Option<string>)
    ensures fileName.None? <==> StartsWith(title, AnalysisOfPrefix)
    ensures fileName.Some? ==> fileName.value == title
  {
    if StartsWith(title, AnalysisOfPrefix) then None else Some(title)
  }

  /**
   * Selecting a saved analysis restores the file name it was made with, unless there was none
   * or it begins with "Analysis of": then no file name is restored.
   */
  lemma FileNameRoundTrip(fileName: Option<string>, code: string)
    ensures FileNameForTitle(HistoryTitle(fileName, code))
            == if HasFileName(fileName) && !StartsWith(fileName.value, AnalysisOfPrefix) then fileName else None
  {
  }

  // ----- errors -----

  /** What the awaited analysis call threw. */
  datatype Thrown =
    | ServiceError(message: string)    // a `GeminiServiceError`
    | OtherError(message: string)      // any other `Error`
    | NonError(text: string)           // anything else, as `String(e)`

  /** The error `handleAnalyze` shows for what was thrown. */
  function ErrorFor(thrown: Thrown): (error: AppError)
    ensures thrown.ServiceError? ==> error == AppError("Analysis Failed", thrown.message)
    ensures thrown.OtherError? ==> error == AppError("An Unexpected Error Occurred", thrown.message)
    ensures thrown.NonError? ==> error == AppError("An Unknown Error Occurred", thrown.text)
  {
    match thrown
    case ServiceError(m) => AppError("Analysis Failed", m)
    case OtherError(m) => AppError("An Unexpected Error Occurred", m)
    case NonError(t) => AppError("An Unknown Error Occurred", t)
  }

  /** The error title tells the three kinds apart. */
  lemma ErrorTitlesDistinct(a: Thrown, b: Thrown)
    ensures ErrorFor(a).title == ErrorFor(b).title <==>
              (a.ServiceError? && b.ServiceError?) || (a.OtherError? && b.OtherError?) || (a.NonError? && b.NonError?)
  {
  }

  /** What the awaited analysis call produced. */
  datatype Reply = Answer(result: AnalysisResult) | Failure(thrown: Thrown)

  // ----- the component -----

  /** All state `AppState` holds, as one value. */
  datatype View = View(
    code: string,
    fileName: Option<string>,
    analysisResult: Option<AnalysisResult>,
    isLoading: bool,
    error: Option<AppError>,
    isHistoryOpen: bool,
    isDebugging: bool,
    breakpoints: set<int>,
    debuggerState: DebuggerState)

  /** The state of the application component. */
  class AppState {
    var code: string
    var fileName: Option<string>
    var analysisResult: Option<AnalysisResult>
    var isLoading: bool
    var error: Option<AppError>
    var isHistoryOpen: bool
    var isDebugging: bool
    var breakpoints: set<int>
    var debuggerState: DebuggerState

    function Snapshot(): View
      reads this
    {
      View(code, fileName, analysisResult, isLoading, error, isHistoryOpen, isDebugging, breakpoints, debuggerState)
    }

    /** The initial state; `defaultCode` is the sample program the editor starts with. */
    constructor (defaultCode: string)
      ensures Snapshot() == View(defaultCode, None, None, false, None, false, false, {}, StoppedDebugger)
    {
      code := defaultCode;
      fileName := None;
      analysisResult := None;
      isLoading := false;
      error := None;
      isHistoryOpen := false;
      isDebugging := false;
      breakpoints := {};
      debuggerState := StoppedDebugger;
    }

    /** `handleToggleBreakpoint`: copy the set, then delete or add the line. */
    method ToggleBreakpoint(line: int)
      modifies this
      ensures Snapshot() == old(Snapshot()).(breakpoints := Toggled(old(breakpoints), line))
    {
      var newBreakpoints := breakpoints;
      if line in newBreakpoints {
        newBreakpoints := newBreakpoints - {line};
      } else {
        newBreakpoints := newBreakpoints + {line};
      }
      breakpoints := newBreakpoints;
    }

    /** `handleDebug`: show the placeholder debugger record instead of the analysis. */
    method Debug()
      modifies this
      ensures Snapshot() == old(Snapshot()).(isDebugging := true, analysisResult := None, debuggerState := PlaceholderDebugger)
    {
      isDebugging := true;
      analysisResult := None;
      debuggerState := PlaceholderDebugger;
    }

    /** `handleStopDebug`: leave debugging and reset the record; breakpoints stay. */
    method StopDebug()
      modifies this
      ensures Snapshot() == old(Snapshot()).(isDebugging := false, debuggerState := StoppedDebugger)
    {
      isDebugging := false;
      debuggerState := StoppedDebugger;
    }

    /** `handleFileLoad`. */
    method FileLoad(content: string, name: string)
      modifies this
      ensures Snapshot() == old(Snapshot()).(code := content, fileName := Some(name), analysisResult := None)
    {
      code := content;
      fileName := Some(name);
      analysisResult := None;
    }

    /** `handleClear`. */
    method Clear()
      modifies this
      ensures Snapshot() == old(Snapshot()).(code := "", fileName := None, analysisResult := None, error := None)
    {
      code := "";
      fileName := None;
      analysisResult := None;
      error := None;
    }

    /**
     * `handleSelectHistory`: show the saved analysis, restore its code and file name, close the
     * sidebar and stop a debugging session.
     */
    method SelectHistory(entry: HistoryEntry)
      modifies this
      ensures Snapshot() == old(Snapshot()).(
                code := entry.code,
                analysisResult := Some(entry.result),
                fileName := FileNameForTitle(entry.title),
                isHistoryOpen := false,
                error := None,
                isDebugging := false,
                debuggerState := if old(isDebugging) then StoppedDebugger else old(debuggerState))
    {
      code := entry.code;
      analysisResult := Some(entry.result);
      fileName := if StartsWith(entry.title, AnalysisOfPrefix) then None else Some(entry.title);
      isHistoryOpen := false;
      error := None;
      if isDebugging {
        StopDebug();
      }
    }

    /**
     * `handleAnalyze`, run to the end of the awaited call. Blank code changes nothing. Otherwise
     * an answer is shown and saved in the history under `HistoryTitle`, a failure shows its
     * error, and loading ends either way. `idClock` and `clock` are the history's clock readings.
     */
    method Analyze(reply: Reply, history: History.HistoryStore, idClock: int, clock: int)
      modifies this, history
      ensures IsBlank(old(code)) ==> Snapshot() == old(Snapshot()) && history.history == old(history.history)
      ensures !IsBlank(old(code)) && reply.Answer? ==>
                Snapshot() == old(Snapshot()).(isLoading := false, error := None, analysisResult := Some(reply.result))
                && history.history == History.Prepended(
                     History.NewEntry(HistoryTitle(old(fileName), old(code)), old(code), reply.result, idClock, clock),
                     old(history.history))
      ensures !IsBlank(old(code)) && reply.Failure? ==>
                Snapshot() == old(Snapshot()).(isLoading := false, error := Some(ErrorFor(reply.thrown)), analysisResult := None)
                && history.history == old(history.history)
    {
      if IsBlank(code) {
        return;
      }
      isLoading := true;
      error := None;
      analysisResult := None;
      match reply {
        case Answer(result) =>
          analysisResult := Some(result);
          history.AddHistoryEntry(HistoryTitle(fileName, code), code, result, idClock, clock);
        case Failure(thrown) =>
          error := Some(ErrorFor(thrown));
      }
      isLoading := false;
    }
  }
}
