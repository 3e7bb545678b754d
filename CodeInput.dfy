/**
 * The code editor's logic (components/CodeInput.tsx): the line count behind the line-number
 * gutter, the Ctrl/Meta+Enter shortcut, the analyze button's disabled state and what the editor
 * reports to its parent as `(newCode, newFileName)` when the text is edited, a file is read or
 * the input is cleared.
 */
module CodeInput {
  import opened Wrappers
  import opened Text

  // ----- line numbers -----

  /** The `lineCount` effect: the number of parts `code.split('\n')` gives, or 1 if none. */
  function LineCount(code: string): (n: int)
    ensures n == CountChar(code, '\n') + 1
    ensures n >= 1
  {
    SplitCount(code, '\n');
    var lines := |Split(code, '\n')|;
    if lines > 0 then lines else 1
  }

  /** An empty editor has one line. */
  lemma EmptyCodeHasOneLine()
    ensures LineCount("") == 1
  {
  }

  /** Appending a line break adds exactly one line; appending anything else adds none. */
  lemma {:induction false} LineCountAppend(code: string, c: char)
    ensures LineCount(code + [c]) == LineCount(code) + (if c == '\n' then 1 else 0)
    decreases |code|
  {
    if code == [] {
      assert [c][1..] == [];
    } else {
      assert (code + [c])[0] == code[0];
      assert (code + [c])[1..] == code[1..] + [c];
      LineCountAppend(code[1..], c);
    }
  }

  /** The numbers the gutter shows: `Array.from({ length: n }, (_, i) => i + 1)`. */
  function Gutter(n: nat): seq<nat> {
    seq(n, i => i + 1)
  }

  /**
   * The gutter for `code` counts up from 1 in steps of one, shows exactly the numbers 1 to the
   * line count, and ends at the line count.
   */
  lemma GutterNumbersLines(code: string)
    ensures var g := Gutter(LineCount(code));
            |g| == CountChar(code, '\n') + 1
            && g[0] == 1 && g[|g| - 1] == LineCount(code)
            && (forall k :: 0 <= k < |g| - 1 ==> g[k + 1] == g[k] + 1)
            && (forall m :: m in g <==> 1 <= m <= LineCount(code))
  {
    var g := Gutter(LineCount(code));
    forall m | 1 <= m <= LineCount(code)
      ensures m in g
    {
      assert g[m - 1] == m;
    }
  }

  // ----- analyzing -----

  /** `isLoading || !code.trim()`: the analyze button is disabled. */
  predicate AnalyzeDisabled(isLoading: bool, code: string) {
    isLoading || IsBlank(code)
  }

  /** A key press in the editor: the modifier flags and `event.key`. */
  datatype KeyPress = KeyPress(ctrlKey: bool, metaKey: bool, key: string)

  /** What `handleKeyDown` does with a key press. */
  datatype KeyDownOutcome =
    | Ignored                   // the key goes to the text area
    | Prevented(analyze: bool)  // default prevented; `onAnalyze` called when `analyze`

  /** `handleKeyDown`. */
  function KeyDown(press: KeyPress, isLoading: bool, code: string): (outcome: KeyDownOutcome)
    ensures outcome.Prevented? <==> (press.ctrlKey || press.metaKey) && press.key == "Enter"
    ensures outcome.Prevented? ==> (outcome.analyze <==> !isLoading && !IsBlank(code))
  {
    if (press.ctrlKey || press.metaKey) && press.key == "Enter" then
      Prevented(!isLoading && !IsBlank(code))
    else
      Ignored
  }

  /**
   * The shortcut starts an analysis exactly when it is Ctrl+Enter or Meta+Enter and the analyze
   * button is enabled, and then only for code with a character other than white space.
   */
  lemma ShortcutMatchesButton(press: KeyPress, isLoading: bool, code: string)
    requires (press.ctrlKey || press.metaKey) && press.key == "Enter"
    ensures KeyDown(press, isLoading, code) == Prevented(!AnalyzeDisabled(isLoading, code))
    ensures KeyDown(press, isLoading, code).analyze ==> exists i :: 0 <= i < |code| && !IsSpace(code[i])
  {
    BlankIffAllSpace(code);
  }

  // ----- reporting changes -----

  /** What happened in the editor. */
  datatype EditorEvent =
    | Typed(text: string)                 // the text area's `onChange`
    | FileRead(text: string, name: string) // the reader's `onload` for the chosen file
    | FileReadFailed                      // the reader's `onerror`
    | Cleared                             // `handleClear`

  /** The `(newCode, newFileName)` pair the editor reports for `event` while showing `code`. */
  function Reported(code: string, event: EditorEvent): (string, Option<string>) {
    match event
    case Typed(text) => (text, None)
    case FileRead(text, name) => (text, Some(name))
    case FileReadFailed => (code, Some("Error reading file"))
    case Cleared => ("", None)
  }

  /**
   * The reported file name is dropped exactly on an edit or a clear; a file read reports a
   * name, and a failed read keeps the code shown.
   */
  lemma FileNameDroppedOnEdit(code: string, event: EditorEvent)
    ensures Reported(code, event).1 == None <==> event.Typed? || event.Cleared?
    ensures event.FileReadFailed? ==> Reported(code, event).0 == code
  {
  }

  /** After a clear, the analyze button is disabled and the gutter shows one line. */
  lemma ClearedEditor(code: string, isLoading: bool)
    ensures AnalyzeDisabled(isLoading, Reported(code, Cleared).0)
    ensures LineCount(Reported(code, Cleared).0) == 1
  {
  }
}
