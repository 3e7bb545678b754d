/**
 * The history sidebar's search filter and export guard (components/history/HistorySidebar.tsx).
 * The search keeps the entries whose title or code contains the search term, ignoring the case
 * of ASCII letters, in their order.
 */
module HistorySidebar {
  import opened Types
  import opened Text
  import Lists

  /** `entry.title.toLowerCase().includes(t) || entry.code.toLowerCase().includes(t)` for `t` the lowered term. */
  predicate Matches(entry: HistoryEntry, term: string) {
    Contains(Lower(entry.title), Lower(term)) || Contains(Lower(entry.code), Lower(term))
  }

  /** `filteredHistory`: all of the history for an empty term, else the matching entries. */
  function Search(history: seq<HistoryEntry>, term: string): (r: seq<HistoryEntry>)
    ensures term == "" ==> r == history
    ensures |r| <= |history|
    ensures forall e :: e in r ==> e in history && (term == "" || Matches(e, term))
  {
    if term == "" then history else Lists.Filter((e: HistoryEntry) => Matches(e, term), history)
  }

  /**
   * The search result is the history read at ascending indices, and those are exactly the
   * indices of the matching entries (all of them for an empty term).
   */
  lemma SearchSelects(history: seq<HistoryEntry>, term: string) returns (idx: seq<nat>)
    ensures |idx| == |Search(history, term)|
    ensures forall k :: 0 <= k < |idx| ==> idx[k] < |history| && Search(history, term)[k] == history[idx[k]]
    ensures forall k, l :: 0 <= k < l < |idx| ==> idx[k] < idx[l]
    ensures forall i :: 0 <= i < |history| ==> (i in idx <==> term == "" || Matches(history[i], term))
  {
    var keep := (e: HistoryEntry) => Matches(e, term);
    if term == "" {
      Lists.FilterKeepsAll((e: HistoryEntry) => true, history);
      Lists.FilterSelects((e: HistoryEntry) => true, history);
      idx := Lists.KeptIndices((e: HistoryEntry) => true, history);
    } else {
      Lists.FilterSelects(keep, history);
      idx := Lists.KeptIndices(keep, history);
    }
  }

  /** Two terms that differ only in the case of letters find the same entries. */
  lemma SearchIgnoresCase(history: seq<HistoryEntry>, term1: string, term2: string)
    requires Lower(term1) == Lower(term2)
    ensures Search(history, term1) == Search(history, term2)
  {
    if term1 != "" {
      Lists.FilterCongruent((e: HistoryEntry) => Matches(e, term1), (e: HistoryEntry) => Matches(e, term2), history);
    }
  }

  /** Searching the result again with the same term changes nothing. */
  lemma SearchIdempotent(history: seq<HistoryEntry>, term: string)
    ensures Search(Search(history, term), term) == Search(history, term)
  {
    if term != "" {
      Lists.FilterIdempotent((e: HistoryEntry) => Matches(e, term), history);
    }
  }

  /** What `handleExport` does. */
  datatype Export =
    | NothingToExport                                       // alerts 'alertNoHistoryToExport'
    | Download(fileName: string, entries: seq<HistoryEntry>) // the history as a JSON file

  /** `handleExport`: an empty history only raises an alert; otherwise the whole history is downloaded. */
  function ExportOf(history: seq<HistoryEntry>): (r: Export)
    ensures r.NothingToExport? <==> history == []
    ensures r.Download? ==> r.entries == history && r.fileName == "gemini-bug-detector-history.json"
  {
    if |history| == 0 then NothingToExport
    else Download("gemini-bug-detector-history.json", history)
  }
}
