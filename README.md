# Bug detector: history, settings and editor logic in Dafny

This project models the application logic of a React front end for an AI code analyser.
The user pastes or uploads code, asks for an analysis (bugs, logging suggestions and a
feature summary), browses and searches a saved history of analyses, and switches the
interface between English and Indonesian.

The analysis itself is a call to an external service and is not modelled. What is modelled is
everything the application does around it, with its contracts proved:

- **The analysis history** (`History`, from components/history/useHistoryStore.ts). This is a
  class whose `history` sequence is replaced by `AddHistoryEntry`, `ClearHistory` and
  `ImportHistory`. Each method is specified by pure functions: `Prepended` for the capped
  prepend, `ValidEntries` and `ImportOutcomeOf` for the import filter and its alerts.
- **The application component** (`App`, from App.tsx). This is a class with the component's
  state fields. Its methods are the handlers for breakpoint toggling, the debugger
  placeholder, file load, clear, history selection and analysis. Each method states the
  whole new state as an update of a `View` snapshot.
- **Translation** (`Settings` and `Translations`, from contexts/SettingsContext.tsx and
  lib/translations.ts):
  - the stored-language normalisation;
  - the lookup with its English fallback;
  - `String.prototype.replace` with a string pattern, including its `$` replacement patterns;
  - the substitution loop of `t`, a method with a loop proved against `SubstituteAll`;
  - the full English and Indonesian tables.
- **The history sidebar's search and export guard** (`HistorySidebar`).
- **The copy texts and severity classes of the result cards** (`AnalysisDisplay`).
- **The editor's line count, gutter, keyboard shortcut and change reports** (`CodeInput`).

Two modules model the JavaScript built-ins the source relies on:

- `Text`: `toLowerCase`, `trim`, `startsWith`, `indexOf`/`includes`, `split`, `join`, and
  `String(n)` for integers.
- `Lists`: order-preserving `filter` and `slice(0, n)`. It also has `Reversed`, which the
  source never uses: it only states `History.PrependedAllKeepsNewest`.

`Wrappers` holds `Option`, and `Types` the records of types.ts.

The UI has a debugger panel, but there is no execution controller: `handleDebug` installs a
fixed placeholder record, and the panel's Continue and Step buttons only raise alerts. The model
follows the code: the breakpoint set and the placeholder and stopped debugger records are
modelled, and there is no run loop.

## Model

| member | source | states |
|---|---|---|
| History.InitialHistory | components/history/useHistoryStore.ts:8-16 | the store starts with the stored list as parsed, and with the empty list when nothing is stored or parsing throws |
| History.NewEntry | components/history/useHistoryStore.ts:26-31 | the new entry keeps title, code and result, takes the clock as timestamp, and gets an id starting with `hist-` |
| History.Prepended | components/history/useHistoryStore.ts:33-38 | the new entry comes first and the old entries follow in order; the length is min(old + 1, 200); below 200 the result is exactly `[new] + old` |
| History.PrependedIsTake | components/history/useHistoryStore.ts:34-37 | adding an entry equals cutting `[new] + old` to its first 200 entries |
| History.PrependedAllKeepsNewest | components/history/useHistoryStore.ts:33-38 | after any number of additions the history is the newest entries, most recent first, followed by the old list and cut to 200, so only the oldest entries are ever dropped |
| History.PrependedAllBounded | components/history/useHistoryStore.ts:35-37 | after any addition the history holds at most 200 entries |
| History.ToEntry | components/history/useHistoryStore.ts:50 | a valid imported element becomes the entry with its own id, timestamp, title, code and result |
| History.ValidEntries | components/history/useHistoryStore.ts:50 | the import filter never yields more entries than the array has |
| History.ValidEntriesSelect | components/history/useHistoryStore.ts:50 | the valid entries are exactly the elements with truthy id, timestamp, code, result and title, in array order |
| History.EmptyCodeOrZeroTimestampRejected | components/history/useHistoryStore.ts:50 | an element with empty code or a zero timestamp is not imported |
| History.ExportImportRoundTrip | components/history/useHistoryStore.ts:50 | importing an exported history whose entries have non-empty id, title and code and non-zero timestamps gives the same history back |
| History.TruthyText | components/history/useHistoryStore.ts:50 | a string field is truthy when present and not empty |
| History.TruthyNumber | components/history/useHistoryStore.ts:50 | a number field is truthy when present and not 0 |
| History.HasMissing | components/history/useHistoryStore.ts:50 | the array holds a `null` element, on which the filter's `e.id` throws |
| History.AsItem | components/history/HistorySidebar.tsx:52 | an entry written to the export file and read back has all five fields, each with the entry's value |
| History.IsValid | components/history/useHistoryStore.ts:50 | an element passes the import filter when it is not `null` and its id, timestamp, code, result and title are all truthy |
| History.PrependedAll | components/history/useHistoryStore.ts:33-38 | the history after adding several entries one after another, the first one first |
| History.ImportOutcomeOf | components/history/useHistoryStore.ts:48-62 | a non-array gives the invalid-format alert, a `null` element makes the filter throw, no valid entries give the no-entries alert, and otherwise the user's answer decides between importing and declining, with the count of valid entries |
| History.HistoryStore.constructor | components/history/useHistoryStore.ts:8-16 | the initial history is `InitialHistory` of what storage held |
| History.HistoryStore.AddHistoryEntry | components/history/useHistoryStore.ts:26-40 | the history becomes `Prepended` of the new entry and stays within 200 entries |
| History.HistoryStore.ClearHistory | components/history/useHistoryStore.ts:42-46 | a confirmed clear empties the history; a declined one leaves it unchanged |
| History.HistoryStore.ImportHistory | components/history/useHistoryStore.ts:48-62 | the outcome is `ImportOutcomeOf`; a confirmed import with valid entries replaces the history with the first 200 valid entries; every other outcome leaves the history unchanged |
| App.Toggled | App.tsx:131-141 | toggling flips the membership of that line and of no other line |
| App.ToggleTwice | App.tsx:131-141 | toggling a line twice restores the breakpoint set |
| App.ToggledAll | App.tsx:131-141 | the breakpoint set after `handleToggleBreakpoint` is called for each line in turn |
| App.ToggleParity | App.tsx:131-141 | after a sequence of toggles a line is a breakpoint exactly when it started as one and was toggled an even number of times, or started as none and was toggled an odd number of times |
| App.HasFileName | App.tsx:93 | `fileName` is truthy: present and not empty |
| App.HistoryTitle | App.tsx:93 | the saved title is the file name when there is a non-empty one; otherwise it is "Analysis of", a space, the first 30 characters of the code (all of it when shorter) and "..." |
| App.FileNameForTitle | App.tsx:159 | selection restores no file name exactly for titles starting with "Analysis of", and otherwise restores the title |
| App.FileNameRoundTrip | App.tsx:93-159 | selecting a saved analysis restores the file name it was made with, except when there was none or it starts with "Analysis of" |
| App.StoppedDebugger | App.tsx:74-80 | the stopped debugger record: not paused, no scope, active line -1, no console output, not finished |
| App.PlaceholderDebugger | App.tsx:114-120 | the record `handleDebug` installs: paused on line 5, a scope with a message and an advice, two console lines, not finished |
| App.ErrorFor | App.tsx:97-104 | a service error shows "Analysis Failed", another Error shows "An Unexpected Error Occurred", anything else shows "An Unknown Error Occurred", each with its message |
| App.ErrorTitlesDistinct | App.tsx:97-104 | two thrown values get the same error title exactly when they are of the same kind |
| App.AppState.constructor | App.tsx:62-80 | the initial state: the default code, no file, no result, not loading, no error, closed sidebar, not debugging, no breakpoints, the stopped debugger record |
| App.AppState.ToggleBreakpoint | App.tsx:131-141 | only the breakpoint set changes, to `Toggled` of the old one |
| App.AppState.Debug | App.tsx:110-121 | debugging starts, the analysis is cleared and the placeholder record paused on line 5 is installed; nothing else changes |
| App.AppState.StopDebug | App.tsx:123-129 | debugging stops and the record is reset to the stopped one; the breakpoints and everything else stay |
| App.AppState.FileLoad | App.tsx:143-147 | the code and file name become the loaded ones and the analysis is cleared; nothing else changes |
| App.AppState.Clear | App.tsx:149-154 | code, file name, analysis and error are cleared; nothing else changes |
| App.AppState.SelectHistory | App.tsx:156-163 | the entry's code and result are shown, the file name comes from `FileNameForTitle`, the sidebar closes, the error clears, and a running debug session is stopped |
| App.AppState.Analyze | App.tsx:82-108 | blank code changes nothing; an answer is shown and added to the history under `HistoryTitle`; a failure shows `ErrorFor` of what was thrown and clears the result; loading ends either way |
| Settings.LanguageCode | contexts/SettingsContext.tsx:33 | a language is saved as "id" exactly when it is Indonesian |
| Settings.StoredLanguage | contexts/SettingsContext.tsx:18-29 | the start language is Indonesian exactly when storage held settings whose language is the string "id"; anything else, missing or unreadable gives English |
| Settings.SavedLanguageRestored | contexts/SettingsContext.tsx:23-34 | the language the settings effect saves is the language read back on the next start |
| Settings.LookupIn | contexts/SettingsContext.tsx:45 | English reads the English table; Indonesian reads its own text, and the English one when that is empty |
| Settings.EnglishIgnoresIndonesian | contexts/SettingsContext.tsx:45 | in English the text never depends on the Indonesian table |
| Settings.Table | contexts/SettingsContext.tsx:45 | the `translations` object `t` reads: the English table and the Indonesian table |
| Settings.Lookup | contexts/SettingsContext.tsx:45 | in the application's table the lookup gives the current language's own text, which is never empty, so the fallback never fires |
| Settings.Placeholder | contexts/SettingsContext.tsx:49 | the placeholder of a name is four characters longer than it and starts with `{` |
| Settings.ValueText | contexts/SettingsContext.tsx:49 | `String(value)`: a string as it is, an integer as its decimal text |
| Settings.Expand | contexts/SettingsContext.tsx:49 | the replacement text `replace` inserts: `$$` gives `$`, `$&` the match, `` $` `` the text before it, `$'` the text after it, and any other character itself |
| Settings.ReplaceFirst | contexts/SettingsContext.tsx:49 | `translation.replace(placeholder, value)`: the text is unchanged when the placeholder does not occur, and otherwise its first occurrence is replaced by the expanded value |
| Settings.ExpandPlain | contexts/SettingsContext.tsx:49 | a replacement without `$` is inserted as it is |
| Settings.ReplaceAbsent | contexts/SettingsContext.tsx:49 | a placeholder that does not occur leaves the text unchanged |
| Settings.ReplaceFirstOccurrence | contexts/SettingsContext.tsx:49 | only the first occurrence of a placeholder is replaced; the text before it and everything after it, later occurrences included, stay |
| Settings.ReplaceLeading | contexts/SettingsContext.tsx:49 | a placeholder at the start of the text is replaced there |
| Settings.SubstituteOne | contexts/SettingsContext.tsx:47-50 | a single substitution is one replacement of its placeholder by the value's text |
| Settings.SubstituteAll | contexts/SettingsContext.tsx:47-50 | the substitutions applied in entry order, each to the result of the ones before |
| Settings.Translate | contexts/SettingsContext.tsx:44-54 | the result of `t`: the looked-up text, with the substitutions applied when they are given |
| Settings.SubstituteAllPlain | contexts/SettingsContext.tsx:47-50 | no substitution changes a text without `{` |
| Settings.TranslateIgnoresSubstitutions | contexts/SettingsContext.tsx:44-54 | for every key but the bug-count tooltip, `t` gives the table's text whatever substitutions it is given |
| Settings.BugsCountTooltipText | contexts/SettingsContext.tsx:44-54 | `t('bugsCountTooltip', { count: n })` is the number followed by " bugs" in English and " bug" in Indonesian |
| Settings.SettingsStore.constructor | contexts/SettingsContext.tsx:18-29 | the initial language is `StoredLanguage` of what storage held |
| Settings.SettingsStore.Saved | contexts/SettingsContext.tsx:31-38 | what the settings effect saves reads back as the current language |
| Settings.SettingsStore.SetLanguage | contexts/SettingsContext.tsx:40-42 | the language becomes the chosen one |
| Settings.SettingsStore.T | contexts/SettingsContext.tsx:44-54 | `t` returns `Translate` of the current language, the key and the substitutions |
| Settings.Substitute | contexts/SettingsContext.tsx:47-50 | the substitution loop applies the entries in order, each to the result of the ones before, giving `SubstituteAll` |
| Translations.EnglishText | lib/translations.ts:2-72 | the `en` table: the English text of each of the 53 keys |
| Translations.IndonesianText | lib/translations.ts:73-142 | the `id` table: the Indonesian text of each of the 53 keys |
| Translations.TextsArePlain | lib/translations.ts:2-142 | every English and Indonesian text except the bug-count tooltip is non-empty and holds no `{` |
| Translations.BugsCountTooltipTexts | lib/translations.ts:52-123 | the bug-count tooltip (English at line 52, Indonesian at line 123) is `{{count}}` followed by " bugs" in English and " bug" in Indonesian |
| Translations.TextsNonEmpty | lib/translations.ts:2-142 | every text of both tables is non-empty |
| HistorySidebar.Matches | components/history/HistorySidebar.tsx:42-43 | an entry matches when its lowered title or its lowered code contains the lowered term |
| HistorySidebar.Search | components/history/HistorySidebar.tsx:39-45 | an empty term keeps the whole history; otherwise only entries of the history whose title or code contains the term are kept |
| HistorySidebar.SearchSelects | components/history/HistorySidebar.tsx:39-45 | the search result is the history read at ascending indices, and those indices are exactly the matching entries' |
| HistorySidebar.SearchIgnoresCase | components/history/HistorySidebar.tsx:42-43 | two terms that differ only in letter case find the same entries |
| HistorySidebar.SearchIdempotent | components/history/HistorySidebar.tsx:39-45 | searching the result again with the same term changes nothing |
| HistorySidebar.ExportOf | components/history/HistorySidebar.tsx:47-59 | an empty history only alerts; any other history is downloaded whole as gemini-bug-detector-history.json |
| AnalysisDisplay.SeverityClass | components/AnalysisDisplay.tsx:10-23 | a severity whose lower-case form is critical, high, medium or low gets the red, orange, yellow or blue class, and any other severity the grey default |
| AnalysisDisplay.SeverityClassIgnoresCase | components/AnalysisDisplay.tsx:11 | the class depends on the severity only through its lower-case form |
| AnalysisDisplay.SeverityClassesOfTheFiveLevels | components/AnalysisDisplay.tsx:10-23 | Critical, High, Medium and Low get the red, orange, yellow and blue classes, and Info gets the grey default |
| AnalysisDisplay.SeverityClassesDistinct | components/AnalysisDisplay.tsx:12-21 | the five badge classes are pairwise different |
| AnalysisDisplay.CopyText | components/AnalysisDisplay.tsx:77-96 | a card's copy is empty exactly when it has no items, and otherwise starts with its heading, a colon and a blank line |
| AnalysisDisplay.JoinTwoFirst | components/AnalysisDisplay.tsx:79-81 | joining after two leading parts puts a separator after each of them |
| AnalysisDisplay.BugLine | components/AnalysisDisplay.tsx:80 | the copy line of a bug: `- [severity] Line n: description` |
| AnalysisDisplay.LogLine | components/AnalysisDisplay.tsx:87 | the copy line of a logging suggestion: `- Line n: suggestion` |
| AnalysisDisplay.FeatureLine | components/AnalysisDisplay.tsx:94 | the copy line of a feature: `- feature` |
| AnalysisDisplay.FormatBugs | components/AnalysisDisplay.tsx:77-82 | `formatBugsForCopy`: the copy text of the bugs card, heading "Bugs Detected" and one `BugLine` per bug |
| AnalysisDisplay.FormatLogs | components/AnalysisDisplay.tsx:84-89 | `formatLogsForCopy`: the copy text of the logs card, heading "Logging Suggestions" and one `LogLine` per suggestion |
| AnalysisDisplay.FormatFeatures | components/AnalysisDisplay.tsx:91-96 | `formatFeaturesForCopy`: the copy text of the features card, heading "Feature Summary" and one `FeatureLine` per feature |
| AnalysisDisplay.CopyTextLines | components/AnalysisDisplay.tsx:77-96 | split at line breaks, a copy gives back its heading line, a blank line and one line per item, in order |
| AnalysisDisplay.BugLineSingle | components/AnalysisDisplay.tsx:80 | a bug line has no line break when its severity and description have none |
| AnalysisDisplay.FormatBugsLines | components/AnalysisDisplay.tsx:77-82 | the bugs copy is "Bugs Detected:", a blank line and one `- [severity] Line n: description` line per bug, in order |
| AnalysisDisplay.FormatLogsLines | components/AnalysisDisplay.tsx:84-89 | the logs copy is "Logging Suggestions:", a blank line and one `- Line n: suggestion` line per suggestion, in order |
| AnalysisDisplay.FormatFeaturesLines | components/AnalysisDisplay.tsx:91-96 | the features copy is "Feature Summary:", a blank line and one `- feature` line per feature, in order |
| AnalysisDisplay.CopyAllowed | components/AnalysisDisplay.tsx:37 | the `handleCopy` guard: copy only a non-empty text that is not already copied, of a card whose count is not zero |
| AnalysisDisplay.CopyAllowedForCard | components/AnalysisDisplay.tsx:36-45 | for a card whose copy and count come from its items, copying is allowed exactly when there are items and they are not already copied |
| CodeInput.LineCount | components/CodeInput.tsx:16-19 | the line count is the number of line breaks plus one, so at least one |
| CodeInput.EmptyCodeHasOneLine | components/CodeInput.tsx:17-18 | empty code has one line |
| CodeInput.LineCountAppend | components/CodeInput.tsx:16-19 | typing a line break adds exactly one line, and typing anything else adds none |
| CodeInput.Gutter | components/CodeInput.tsx:67-69 | the gutter's numbers for `n` lines: 1 up to `n` |
| CodeInput.GutterNumbersLines | components/CodeInput.tsx:67-69 | the gutter counts up from 1 in steps of one and shows exactly the numbers 1 to the line count |
| CodeInput.AnalyzeDisabled | components/CodeInput.tsx:118 | the analyze button is disabled while loading or when the trimmed code is empty |
| CodeInput.KeyDown | components/CodeInput.tsx:48-55 | the default is prevented exactly for Ctrl+Enter or Meta+Enter, and then an analysis starts exactly when not loading and the code is not blank |
| CodeInput.ShortcutMatchesButton | components/CodeInput.tsx:51 | the shortcut starts an analysis exactly when the analyze button is enabled, and only for code holding a character that is not white space |
| CodeInput.Reported | components/CodeInput.tsx:21-73 | the `(newCode, newFileName)` pair reported: the typed text with no name, the file's text with its name, the current code with "Error reading file" on a failed read, and empty code with no name on a clear |
| CodeInput.FileNameDroppedOnEdit | components/CodeInput.tsx:21-73 | the reported file name is dropped exactly on an edit or a clear, and a failed read keeps the code shown |
| CodeInput.ClearedEditor | components/CodeInput.tsx:41-43 | after a clear the analyze button is disabled and the gutter shows one line |
| Text.Lower | components/history/HistorySidebar.tsx:42-43 | lowering keeps the length and lowers each character |
| Text.LowerIdempotent | components/AnalysisDisplay.tsx:11 | lowering twice is lowering once |
| Text.IsSpace | components/CodeInput.tsx:51 | the white space `trim` removes: space, tab, line feed, vertical tab, form feed and carriage return |
| Text.Trim | components/CodeInput.tsx:51 | `trim`: white space removed at both ends |
| Text.IsBlank | components/CodeInput.tsx:118 | `!code.trim()`: nothing is left after trimming |
| Text.StartsWith | App.tsx:159 | `startsWith`: the text begins with the prefix |
| Text.BlankIffAllSpace | components/CodeInput.tsx:51 | a trimmed text is empty exactly when every character is white space |
| Text.IndexOf | contexts/SettingsContext.tsx:49 | the index found is the first match, and none is found only when there is no match |
| Text.Contains | components/history/HistorySidebar.tsx:42-43 | `includes`: `indexOf` finds the pattern |
| Text.ContainsIff | components/history/HistorySidebar.tsx:42-43 | `includes` holds exactly when the pattern occurs somewhere |
| Text.NatToStringValue | components/AnalysisDisplay.tsx:80 | a number's decimal text reads back as the number |
| Text.IntToString | contexts/SettingsContext.tsx:49 | a number's text is non-empty and holds no `$` and no line break |
| Text.Split | components/CodeInput.tsx:17 | `split` at one character: the parts between separators, at least one part, `[""]` for the empty text |
| Text.Join | components/AnalysisDisplay.tsx:79-81 | `join`: the parts with the separator between each two |
| Text.SplitCount | components/CodeInput.tsx:17 | splitting gives one part more than there are separators |
| Text.SplitJoin | components/AnalysisDisplay.tsx:79-81 | splitting a join of separator-free parts gives the parts back |
| Lists.Filter | components/history/HistorySidebar.tsx:41 | `filter`: the accepted elements, never more than the list has, each from the list |
| Lists.FilterSelects | components/history/HistorySidebar.tsx:41 | a filter keeps exactly the elements that pass, in their order |
| Lists.FilterIdempotent | components/history/HistorySidebar.tsx:41 | filtering twice is filtering once |
| Lists.Take | components/history/useHistoryStore.ts:53 | `slice(0, n)` keeps the first min(length, n) elements |
| Lists.TakeAfterTake | components/history/useHistoryStore.ts:36 | cutting before and after a prepend gives the same list |

## Left out

- Storage, `JSON.parse` and `JSON.stringify`, `FileReader`, the clipboard, downloads, `alert`,
  `window.confirm` and `Date.now()` are I/O. What storage held, what a file contained, the
  user's answer and the clock readings are parameters. The alert an import raises is returned
  as an `ImportOutcome`.
- The call to the analysis service (services/geminiService.ts) goes over the network to a
  library outside the repository. `Analyze` takes the reply, or what was thrown, as a parameter.
- History.InitialHistory: the stored list is taken as it parses. The code neither checks the
  entries nor cuts the list to 200, and the model does not either.
- History.ImportItem: a field whose JSON type differs from the type of the `HistoryEntry`
  field reads as absent, although JavaScript keeps any truthy value. So an element with a
  numeric `id`, `title` or `code`, or a string `timestamp`, is imported by the code but has no
  valid `ImportItem` in the model. An element that is not an object has no fields.
- App.AppState.Analyze: the intermediate state while the call is awaited (`isLoading` true) is
  not observable, because the method runs the handler to its end. React's batching of state
  updates is not modelled.
- App: the Escape-key effect, `isSettingsOpen`, the sidebar open/close toggles and all
  rendering are left out. The sample program the editor starts with is a constructor
  parameter.
- Settings.ValueText: `String(value)` is modelled for integers. Floating-point numbers are not
  modelled.
- JavaScript `number` is modelled as an unbounded `int`: `BugReport.line`, timestamps and the
  bug count. `String(n)` switches to exponent form from 1e21 on, so Text.IntToString and
  Settings.ValueText give the JavaScript text only for numbers below that in magnitude.
- History.StoredHistory: `Parsed` holds only a list of well-typed entries. The code takes any
  parsed value as the history, and the model does not represent the others. A stored `null` is
  passed through by the sidebar's search (HistorySidebar.tsx:40), and reading its `length`
  throws on the sidebar's first render (HistorySidebar.tsx:109). A list of other values throws
  when an item is rendered and its `entry.result.bugs` is read (HistorySidebar.tsx:15). A stored
  `{}` throws on the spread in `addHistoryEntry` (useHistoryStore.ts:34).
- Settings.SubstituteAll: the substitutions are a sequence in `Object.entries` order.
- Settings.Translate: only keys of the table are modelled, because `Key` is a datatype of the
  table's keys. The UI also asks for names the table does not have, whose lookup gives
  `undefined`. Examples are 'errorTitle' (App.tsx:21) and the debugger panel's labels
  (components/DebuggerPanel.tsx:30).
- Text.Lower and Text.Trim: lower-casing and trimming are ASCII only. Unicode case mapping and
  Unicode white space are not modelled.
- There is no debugger controller in the code (stepping, continuing, scope snapshots, console
  capture). The Continue and Step buttons raise alerts (App.tsx:203-204) and are not modelled.
- App.HistoryTitle: Dafny strings are sequences of Unicode scalar values, while JavaScript's
  `slice`, `length` and `split` count UTF-16 code units. So for code with characters outside
  the Basic Multilingual Plane, `code.slice(0, 30)` cuts at a different place than
  `Lists.Take(code, 30)`, and can split a surrogate pair. The same holds for every length and
  index in `Text`.
- CodeInput: App.tsx passes props the editor does not declare (App.tsx:185-198), and that
  wiring is not modelled. The `disabled` attributes of the text area and the upload input, and
  the clear button shown only for non-empty code, are rendering.
- HistorySidebar: the date formatting of an item is left out. A file that is not JSON raises
  the invalid-JSON alert (components/history/HistorySidebar.tsx:74-76), and so does the throw
  of `importHistory` on a `null` element. Both are the `Threw` outcome or happen before the
  store is called.
- AnalysisDisplay: the two-second reset of the copied flag is a timer and is left out.

## Notes on the code's behaviour

- `addHistoryEntry` reads `Date.now()` twice, once for the id and once for the timestamp. The
  model keeps the two readings apart as `idClock` and `clock`.
- A file whose name starts with "Analysis of" is saved under that name. Selecting the entry
  later restores no file name (`App.FileNameRoundTrip`).
- `t` substitutes with `String.prototype.replace` and a string pattern. So only the first
  occurrence of a placeholder is replaced, and `$$`, `$&`, `` $` `` and `$'` in a value are
  expanded. The application only passes numbers, whose text holds no `$`.
- When a file cannot be read, the editor reports the current code with the file name
  "Error reading file" (components/CodeInput.tsx:29-32).
