/**
 * The analysis view's pure parts (components/AnalysisDisplay.tsx): the colour classes of a
 * severity badge, the plain-text copies of the three result cards and the copy button's guard.
 */
module AnalysisDisplay {
  import opened Types
  import opened Text

  // ----- severity badge -----

  const CriticalClass := "bg-red-800 text-red-100 border-red-600"
  const HighClass := "bg-orange-800 text-orange-100 border-orange-600"
  const MediumClass := "bg-yellow-800 text-yellow-100 border-yellow-600"
  const LowClass := "bg-blue-800 text-blue-100 border-blue-600"
  const DefaultClass := "bg-gray-700 text-gray-200 border-gray-600"

  /** `getSeverityClass`: the switch on the lowered severity. */
  function SeverityClass(severity: string): (cls: string)
    ensures cls in {CriticalClass, HighClass, MediumClass, LowClass, DefaultClass}
    ensures Lower(severity) == "critical" ==> cls == CriticalClass
    ensures Lower(severity) == "high" ==> cls == HighClass
    ensures Lower(severity) == "medium" ==> cls == MediumClass
    ensures Lower(severity) == "low" ==> cls == LowClass
    ensures Lower(severity) !in {"critical", "high", "medium", "low"} ==> cls == DefaultClass
  {
    match Lower(severity)
    case "critical" => CriticalClass
    case "high" => HighClass
    case "medium" => MediumClass
    case "low" => LowClass
    case _ => DefaultClass
  }

  /** The class depends on the severity only through its lower-case form. */
  lemma SeverityClassIgnoresCase(severity: string)
    ensures SeverityClass(severity) == SeverityClass(Lower(severity))
  {
    LowerIdempotent(severity);
  }

  /**
   * The five severities of types.ts get their classes: four distinct colours, and the grey
   * default for 'Info'.
   */
  lemma SeverityClassesOfTheFiveLevels()
    ensures SeverityClass("Critical") == CriticalClass
    ensures SeverityClass("High") == HighClass
    ensures SeverityClass("Medium") == MediumClass
    ensures SeverityClass("Low") == LowClass
    ensures SeverityClass("Info") == DefaultClass
  {
    assert Lower("Critical") == "critical";
    assert Lower("High") == "high";
    assert Lower("Medium") == "medium";
    assert Lower("Low") == "low";
    assert Lower("Info") == "info";
  }

  /** The five classes are pairwise different. */
  lemma SeverityClassesDistinct()
    ensures |{CriticalClass, HighClass, MediumClass, LowClass, DefaultClass}| == 5
  {
    assert CriticalClass[3] == 'r' && HighClass[3] == 'o' && MediumClass[3] == 'y';
    assert LowClass[4] == 'l' && DefaultClass[4] == 'r';
  }

  // ----- copy texts -----

  /** The copy of a card: nothing for no items, else the heading, a blank line and one line per item. */
  function CopyText(heading: string, lines: seq<string>): (text: string)
    ensures text == "" <==> lines == []
    ensures lines != [] ==> StartsWith(text, heading + ":\n\n")
  {
    if lines == [] then "" else heading + ":\n\n" + Join(lines, "\n")
  }

  /** `- [severity] Line n: description`. */
  function BugLine(bug: BugReport): string {
    "- [" + bug.severity + "] Line " + IntToString(bug.line) + ": " + bug.description
  }

  /** `- Line n: suggestion`. */
  function LogLine(log: LogSuggestion): string {
    "- Line " + IntToString(log.line) + ": " + log.suggestion
  }

  /** `- feature`. */
  function FeatureLine(feature: string): string {
    "- " + feature
  }

  /** `formatBugsForCopy`. */
  function FormatBugs(bugs: seq<BugReport>): string {
    CopyText("Bugs Detected", seq(|bugs|, i requires 0 <= i < |bugs| => BugLine(bugs[i])))
  }

  /** `formatLogsForCopy`. */
  function FormatLogs(logs: seq<LogSuggestion>): string {
    CopyText("Logging Suggestions", seq(|logs|, i requires 0 <= i < |logs| => LogLine(logs[i])))
  }

  /** `formatFeaturesForCopy`. */
  function FormatFeatures(features: seq<string>): string {
    CopyText("Feature Summary", seq(|features|, i requires 0 <= i < |features| => FeatureLine(features[i])))
  }

  /** Joining after two leading parts puts each of them before a separator. */
  lemma JoinTwoFirst(a: string, b: string, rest: seq<string>, sep: string)
    requires rest != []
    ensures Join([a, b] + rest, sep) == a + sep + b + sep + Join(rest, sep)
  {
    assert ([a, b] + rest)[1..] == [b] + rest;
    assert ([b] + rest)[1..] == rest;
  }

  /**
   * Split at line breaks, a copy text without line breaks inside its heading or its lines
   * gives back the heading line, the blank line and the item lines, one per item, in order.
   */
  lemma CopyTextLines(heading: string, lines: seq<string>)
    requires lines != []
    requires '\n' !in heading && forall k :: 0 <= k < |lines| ==> '\n' !in lines[k]
    ensures Split(CopyText(heading, lines), '\n') == [heading + ":", ""] + lines
  {
    var parts := [heading + ":", ""] + lines;
    JoinTwoFirst(heading + ":", "", lines, "\n");
    assert CopyText(heading, lines) == Join(parts, "\n");
    forall k | 0 <= k < |parts|
      ensures '\n' !in parts[k]
    {
      if k >= 2 {
        assert parts[k] == lines[k - 2];
      }
    }
    SplitJoin(parts, '\n');
  }

  /** Bug lines have no line break when severity and description have none. */
  lemma BugLineSingle(bug: BugReport)
    requires '\n' !in bug.severity && '\n' !in bug.description
    ensures '\n' !in BugLine(bug)
  {
  }

  /**
   * The bugs copy, split at line breaks, is "Bugs Detected:", a blank line and one
   * `- [severity] Line n: description` line per bug in order, when no field has a line break.
   */
  lemma FormatBugsLines(bugs: seq<BugReport>)
    requires bugs != []
    requires forall k :: 0 <= k < |bugs| ==> '\n' !in bugs[k].severity && '\n' !in bugs[k].description
    ensures Split(FormatBugs(bugs), '\n')
            == ["Bugs Detected:", ""] + seq(|bugs|, i requires 0 <= i < |bugs| => BugLine(bugs[i]))
  {
    var lines := seq(|bugs|, i requires 0 <= i < |bugs| => BugLine(bugs[i]));
    forall k | 0 <= k < |lines|
      ensures '\n' !in lines[k]
    {
      BugLineSingle(bugs[k]);
    }
    assert "Bugs Detected" + ":" == "Bugs Detected:";
    CopyTextLines("Bugs Detected", lines);
  }

  /** The logs copy, split at line breaks, has one `- Line n: suggestion` line per suggestion. */
  lemma FormatLogsLines(logs: seq<LogSuggestion>)
    requires logs != []
    requires forall k :: 0 <= k < |logs| ==> '\n' !in logs[k].suggestion
    ensures Split(FormatLogs(logs), '\n')
            == ["Logging Suggestions:", ""] + seq(|logs|, i requires 0 <= i < |logs| => LogLine(logs[i]))
  {
    var lines := seq(|logs|, i requires 0 <= i < |logs| => LogLine(logs[i]));
    forall k | 0 <= k < |lines|
      ensures '\n' !in lines[k]
    {
      assert '\n' !in IntToString(logs[k].line);
    }
    assert "Logging Suggestions" + ":" == "Logging Suggestions:";
    CopyTextLines("Logging Suggestions", lines);
  }

  /** The features copy, split at line breaks, has one `- feature` line per feature. */
  lemma FormatFeaturesLines(features: seq<string>)
    requires features != []
    requires forall k :: 0 <= k < |features| ==> '\n' !in features[k]
    ensures Split(FormatFeatures(features), '\n')
            == ["Feature Summary:", ""] + seq(|features|, i requires 0 <= i < |features| => FeatureLine(features[i]))
  {
    var lines := seq(|features|, i requires 0 <= i < |features| => FeatureLine(features[i]));
    assert forall k :: 0 <= k < |lines| ==> '\n' !in lines[k];
    assert "Feature Summary" + ":" == "Feature Summary:";
    CopyTextLines("Feature Summary", lines);
  }

  // ----- copy button -----

  /** The guard of `handleCopy`: copy only a non-empty text, not already copied, of a non-empty card. */
  predicate CopyAllowed(copyContent: string, isCopied: bool, count: int) {
    !(copyContent == "" || isCopied || count == 0)
  }

  /**
   * For a card whose copy text is made from its items and whose count is their number, copying
   * is allowed exactly when there are items and they are not already copied.
   */
  lemma CopyAllowedForCard(heading: string, lines: seq<string>, isCopied: bool)
    ensures CopyAllowed(CopyText(heading, lines), isCopied, |lines|) <==> lines != [] && !isCopied
  {
  }
}
