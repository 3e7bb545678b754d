/**
 * The analysis history (components/history/useHistoryStore.ts): a list of entries, most
 * recent first, kept to at most `MaxHistoryItems` entries when an analysis is added. Storage,
 * `window.confirm`, `alert` and `Date.now()` are outside the model: what storage held, the
 * user's answer and the clock readings are parameters, and the alert an import raises is
 * returned as an `ImportOutcome`.
 */
module History {
  import opened Wrappers
  import opened Types
  import opened Text
  import Lists

  /** `MAX_HISTORY_ITEMS`. */
  const MaxHistoryItems: nat := 200

  // ----- loading -----

  /** What the history key of local storage held when the store started. */
  datatype StoredHistory =
    | NothingStored                      // no item, or an empty string
    | Unparseable                        // `JSON.parse` threw
    | Parsed(entries: seq<HistoryEntry>)

  /**
   * The history the store starts with: the parsed list as stored, neither checked nor cut to
   * `MaxHistoryItems`, and the empty list when nothing is stored or it does not parse.
   */
  function InitialHistory(stored: StoredHistory): (h: seq<HistoryEntry>)
    ensures stored.Parsed? ==> h == stored.entries
    ensures !stored.Parsed? ==> h == []
  {
    match stored
    case Parsed(entries) => entries
    case _ => []
  }

  // ----- adding -----

  /** The entry `addHistoryEntry` builds: `hist-` and the clock as id, the clock as timestamp. */
  function NewEntry(title: string, code: string, result: AnalysisResult, idClock: int, clock: int): (e: HistoryEntry)
    ensures e.title == title && e.code == code && e.result == result && e.timestamp == clock
    ensures StartsWith(e.id, "hist-") && |e.id| > 5
  {
    HistoryEntry("hist-" + IntToString(idClock), clock, title, code, result)
  }

  /**
   * The history after `entry` is added to `h`: the new entry first, the previous entries after
   * it in their order, and only the oldest ones dropped to stay within `MaxHistoryItems`.
   */
  function Prepended(entry: HistoryEntry, h: seq<HistoryEntry>): (r: seq<HistoryEntry>)
    ensures |r| == if |h| + 1 <= MaxHistoryItems then |h| + 1 else MaxHistoryItems
    ensures r[0] == entry
    ensures forall i :: 1 <= i < |r| ==> r[i] == h[i - 1]
    ensures |h| < MaxHistoryItems ==> r == [entry] + h
  {
    var updated := [entry] + h;
    if |updated| > MaxHistoryItems then updated[..MaxHistoryItems] else updated
  }

  /** The history after adding each of `entries` in turn, the first one first. */
  function PrependedAll(entries: seq<HistoryEntry>, h: seq<HistoryEntry>): seq<HistoryEntry>
    decreases |entries|
  {
    if entries == [] then h else PrependedAll(entries[1..], Prepended(entries[0], h))
  }

  /** One addition keeps the front of the new entry followed by the old list. */
  lemma PrependedIsTake(entry: HistoryEntry, h: seq<HistoryEntry>)
    ensures Prepended(entry, h) == Lists.Take([entry] + h, MaxHistoryItems)
  {
    var r := Prepended(entry, h);
    var t := Lists.Take([entry] + h, MaxHistoryItems);
    assert |r| == |t|;
    forall i | 0 <= i < |r|
      ensures r[i] == t[i]
    {
      assert t[i] == ([entry] + h)[i];
    }
  }

  /**
   * However many entries are added, the history is the newest entries, most recent first,
   * followed by the old list, cut to `MaxHistoryItems`: the entries dropped are always the
   * oldest ones.
   */
  lemma {:induction false} PrependedAllKeepsNewest(entries: seq<HistoryEntry>, h: seq<HistoryEntry>)
    requires entries != []
    ensures PrependedAll(entries, h) == Lists.Take(Lists.Reversed(entries) + h, MaxHistoryItems)
    decreases |entries|
  {
    var e := entries[0];
    var rest := entries[1..];
    PrependedIsTake(e, h);
    assert Lists.Reversed(entries) == Lists.Reversed(rest) + [e];
    if rest == [] {
      assert Lists.Reversed(entries) + h == [e] + h;
    } else {
      PrependedAllKeepsNewest(rest, Prepended(e, h));
      Lists.TakeAfterTake(Lists.Reversed(rest), [e] + h, MaxHistoryItems);
      assert Lists.Reversed(rest) + ([e] + h) == Lists.Reversed(entries) + h;
    }
  }

  /** After any addition the history holds at most `MaxHistoryItems` entries. */
  lemma {:induction false} PrependedAllBounded(entries: seq<HistoryEntry>, h: seq<HistoryEntry>)
    requires entries != [] || |h| <= MaxHistoryItems
    ensures |PrependedAll(entries, h)| <= MaxHistoryItems
    decreases |entries|
  {
    if entries != [] {
      PrependedAllBounded(entries[1..], Prepended(entries[0], h));
    }
  }

  // ----- importing -----

  /**
   * One element of an imported JSON array. `Missing` is `null` (reading a field of it throws);
   * any other element is read field by field, a field of the wrong shape or an element that is
   * not an object reading as absent.
   */
  datatype ImportItem =
    | Missing
    | Item(id: Option<string>, timestamp: Option<int>, title: Option<string>, code: Option<string>, result: Option<AnalysisResult>)

  /** What `JSON.parse` of an imported file gave. */
  datatype ImportPayload = NotAnArray | Elements(items: seq<ImportItem>)

  /** JavaScript truthiness of an optional string. */
  predicate TruthyText(s: Option<string>) {
    s.Some? && s.value != ""
  }

  /** JavaScript truthiness of an optional number. */
  predicate TruthyNumber(n: Option<int>) {
    n.Some? && n.value != 0
  }

  /** `e.id && e.timestamp && e.code && e.result && e.title`, for an element that is not `null`. */
  predicate IsValid(item: ImportItem) {
    item.Item? && TruthyText(item.id) && TruthyNumber(item.timestamp) && TruthyText(item.code)
      && item.result.Some? && TruthyText(item.title)
  }

  /** A valid element read as a history entry. */
  function ToEntry(item: ImportItem): (e: HistoryEntry)
    requires IsValid(item)
    ensures e.id == item.id.value && e.timestamp == item.timestamp.value && e.title == item.title.value
    ensures e.code == item.code.value && e.result == item.result.value
  {
    HistoryEntry(item.id.value, item.timestamp.value, item.title.value, item.code.value, item.result.value)
  }

  /** A history entry as it is written to an export file and read back. */
  function AsItem(e: HistoryEntry): (item: ImportItem)
    ensures item.Item?
  {
    Item(Some(e.id), Some(e.timestamp), Some(e.title), Some(e.code), Some(e.result))
  }

  /** The filter of `importHistory` throws when it reaches a `null` element. */
  predicate HasMissing(items: seq<ImportItem>) {
    exists i :: 0 <= i < |items| && items[i].Missing?
  }

  /** The valid elements of an imported array, in their order, as history entries. */
  function ValidEntries(items: seq<ImportItem>): (r: seq<HistoryEntry>)
    ensures |r| <= |items|
  {
    var kept := Lists.Filter(IsValid, items);
    seq(|kept|, i requires 0 <= i < |kept| => ToEntry(kept[i]))
  }

  /**
   * The valid entries are exactly the valid elements, in the order of the array: entry `k`
   * comes from element `idx[k]`, the indices ascend, and an element's index is among them
   * exactly when the element is valid.
   */
  lemma ValidEntriesSelect(items: seq<ImportItem>) returns (idx: seq<nat>)
    ensures |idx| == |ValidEntries(items)|
    ensures forall k :: 0 <= k < |idx| ==>
              idx[k] < |items| && IsValid(items[idx[k]]) && ValidEntries(items)[k] == ToEntry(items[idx[k]])
    ensures forall k, l :: 0 <= k < l < |idx| ==> idx[k] < idx[l]
    ensures forall i :: 0 <= i < |items| ==> (i in idx <==> IsValid(items[i]))
  {
    Lists.FilterSelects(IsValid, items);
    idx := Lists.KeptIndices(IsValid, items);
  }

  /** An element with an empty code or a zero timestamp is not imported. */
  lemma EmptyCodeOrZeroTimestampRejected(item: ImportItem)
    requires item.Item?
    requires item.code == Some("") || item.timestamp == Some(0)
    ensures !IsValid(item)
  {
  }

  /**
   * Exporting a history whose entries all have an id, a title, code and a non-zero timestamp
   * and importing the file gives the same history back.
   */
  lemma ExportImportRoundTrip(h: seq<HistoryEntry>)
    requires forall i :: 0 <= i < |h| ==> h[i].id != "" && h[i].timestamp != 0 && h[i].title != "" && h[i].code != ""
    ensures ValidEntries(seq(|h|, i requires 0 <= i < |h| => AsItem(h[i]))) == h
  {
    var items := seq(|h|, i requires 0 <= i < |h| => AsItem(h[i]));
    Lists.FilterKeepsAll(IsValid, items);
  }

  /** The alert `importHistory` ends with, if any. */
  datatype ImportOutcome =
    | InvalidFormat           // 'Import failed: Invalid file format.'
    | NoValidEntries          // 'Import failed: The file does not contain valid history entries.'
    | Declined(found: nat)    // the user declined to overwrite; no alert
    | Imported(found: nat)    // 'History imported successfully!'
    | Threw                   // the filter threw on a `null` element

  /** The alert of an import of `payload`, given the user's answer to the overwrite question. */
  function ImportOutcomeOf(payload: ImportPayload, confirmed: bool): (outcome: ImportOutcome)
    ensures outcome == InvalidFormat <==> payload.NotAnArray?
    ensures outcome == Threw <==> payload.Elements? && HasMissing(payload.items)
    ensures outcome == NoValidEntries <==> payload.Elements? && !HasMissing(payload.items) && ValidEntries(payload.items) == []
    ensures outcome.Imported? <==> payload.Elements? && !HasMissing(payload.items) && ValidEntries(payload.items) != [] && confirmed
    ensures (outcome.Imported? || outcome.Declined?) ==> outcome.found == |ValidEntries(payload.items)| > 0
  {
    match payload
    case NotAnArray => InvalidFormat
    case Elements(items) =>
      if HasMissing(items) then Threw
      else
        var valid := ValidEntries(items);
        if |valid| > 0 then (if confirmed then Imported(|valid|) else Declined(|valid|))
        else NoValidEntries
  }

  /** The history store: the `history` state and the three operations that replace it. */
  class HistoryStore {
    var history: seq<HistoryEntry>

    /** The `useState` initialiser. */
    constructor (stored: StoredHistory)
      ensures history == InitialHistory(stored)
    {
      history := InitialHistory(stored);
    }

    /** `addHistoryEntry`; `idClock` and `clock` are the two readings of `Date.now()`. */
    method AddHistoryEntry(title: string, code: string, result: AnalysisResult, idClock: int, clock: int)
      modifies this
      ensures history == Prepended(NewEntry(title, code, result, idClock, clock), old(history))
      ensures |history| <= MaxHistoryItems
    {
      var entry := NewEntry(title, code, result, idClock, clock);
      var updated := [entry] + history;
      if |updated| > MaxHistoryItems {
        history := updated[..MaxHistoryItems];
      } else {
        history := updated;
      }
    }

    /** `clearHistory`; `confirmed` is the user's answer to the confirmation. */
    method ClearHistory(confirmed: bool)
      modifies this
      ensures confirmed ==> history == []
      ensures !confirmed ==> history == old(history)
    {
      if confirmed {
        history := [];
      }
    }

    /**
     * `importHistory`; `confirmed` is the user's answer to the overwrite question, asked only
     * when valid entries were found. Only a confirmed import with valid entries changes the
     * history, and then to the first `MaxHistoryItems` valid entries.
     */
    method ImportHistory(payload: ImportPayload, confirmed: bool) returns (outcome: ImportOutcome)
      modifies this
      ensures outcome == ImportOutcomeOf(payload, confirmed)
      ensures outcome.Imported? ==> history == Lists.Take(ValidEntries(payload.items), MaxHistoryItems)
      ensures !outcome.Imported? ==> history == old(history)
    {
      outcome := ImportOutcomeOf(payload, confirmed);
      if outcome.Imported? {
        var valid := ValidEntries(payload.items);
        history := if |valid| <= MaxHistoryItems then valid else valid[..MaxHistoryItems];
      }
    }
  }
}
