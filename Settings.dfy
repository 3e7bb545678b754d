/**
 * The language setting and the translation function `t` (contexts/SettingsContext.tsx). The
 * language is read once from local storage; `t` looks a key up in the table of the current
 * language, falls back to English when that text is empty, and then replaces placeholders of
 * the form `{{name}}`, one substitution after another, each at its first occurrence only.
 */
module Settings {
  import opened Wrappers
  import opened Text
  import opened Translations

  /** `type Language = 'en' | 'id'`. */
  datatype Language = En | Id

  /** The code a language is saved under. */
  function LanguageCode(language: Language): (code: string)
    ensures code == "id" <==> language == Id
  {
    match language
    case En => "en"
    case Id => "id"
  }

  // ----- the stored setting -----

  /**
   * What the settings key of local storage held. `Stored(l)` is a parsed object whose
   * `language` field is the string `l`, or `None` when that field is absent or not a string;
   * `Unreadable` is storage or `JSON.parse` throwing, or a parsed `null`.
   */
  datatype StoredSettings = NothingStored | Unreadable | Stored(language: Option<string>)

  /** The `useState` initialiser: Indonesian exactly when the stored language is `'id'`. */
  function StoredLanguage(stored: StoredSettings): (language: Language)
    ensures language == Id <==> stored == Stored(Some("id"))
  {
    match stored
    case Stored(l) => if l == Some("id") then Id else En
    case _ => En
  }

  /** The language saved by the settings effect is the language read back on the next start. */
  lemma SavedLanguageRestored(language: Language)
    ensures StoredLanguage(Stored(Some(LanguageCode(language)))) == language
  {
  }

  // ----- lookup -----

  /** A pair of translation tables; the application's own is `Table`. */
  datatype Catalog = Catalog(en: Key -> string, id: Key -> string)

  /** The table of lib/translations.ts. */
  const Table: Catalog := Catalog(EnglishText, IndonesianText)

  /** `translations[language][key] || translations.en[key]`. */
  function LookupIn(catalog: Catalog, language: Language, key: Key): (text: string)
    ensures language == En ==> text == catalog.en(key)
    ensures language == Id && catalog.id(key) != "" ==> text == catalog.id(key)
    ensures language == Id && catalog.id(key) == "" ==> text == catalog.en(key)
  {
    var own := if language == En then catalog.en(key) else catalog.id(key);
    if own != "" then own else catalog.en(key)
  }

  /** In English the text never depends on the Indonesian table. */
  lemma EnglishIgnoresIndonesian(c1: Catalog, c2: Catalog, key: Key)
    requires c1.en == c2.en
    ensures LookupIn(c1, En, key) == LookupIn(c2, En, key)
  {
  }

  /** The lookup in the application's table: the fallback to English never fires. */
  function Lookup(language: Language, key: Key): (text: string)
    ensures text == if language == En then EnglishText(key) else IndonesianText(key)
    ensures text != ""
  {
    TextsNonEmpty(key);
    LookupIn(Table, language, key)
  }

  // ----- substitution -----

  /** A substitution value: `string | number`, numbers modelled as integers. */
  datatype SubValue = Str(s: string) | Num(n: int)

  /** `String(value)`. */
  function ValueText(v: SubValue): string {
    match v
    case Str(s) => s
    case Num(n) => IntToString(n)
  }

  /** The placeholder for a substitution named `name`. */
  function Placeholder(name: string): (p: string)
    ensures |p| == |name| + 4 && p[0] == '{'
  {
    "{{" + name + "}}"
  }

  /**
   * The replacement text `String.prototype.replace` inserts for `rep` when it replaced
   * `matched`, with `before` and `after` the parts of the string around the match: `$$` is a
   * dollar sign, `$&` the match, `` $` `` the part before and `$'` the part after it; any
   * other `$` stands for itself (a string pattern has no capture groups).
   */
  function Expand(rep: string, matched: string, before: string, after: string): string
    decreases |rep|
  {
    if rep == [] then []
    else if rep[0] == '$' && |rep| >= 2 && rep[1] in "$&`'" then
      var insert := match rep[1]
        case '$' => "$"
        case '&' => matched
        case '`' => before
        case _ => after;
      insert + Expand(rep[2..], matched, before, after)
    else [rep[0]] + Expand(rep[1..], matched, before, after)
  }

  /** A replacement without a dollar sign is inserted as it is. */
  lemma {:induction false} ExpandPlain(rep: string, matched: string, before: string, after: string)
    requires '$' !in rep
    ensures Expand(rep, matched, before, after) == rep
    decreases |rep|
  {
    if rep != [] {
      assert '$' !in rep[1..];
      ExpandPlain(rep[1..], matched, before, after);
      assert [rep[0]] + rep[1..] == rep;
    }
  }

  /** `s.replace(pattern, rep)` for a string `pattern`: only the first occurrence is replaced. */
  function ReplaceFirst(s: string, pattern: string, rep: string): string {
    match IndexOf(s, pattern)
    case None => s
    case Some(j) =>
      var after := s[j + |pattern|..];
      s[..j] + Expand(rep, pattern, s[..j], after) + after
  }

  /** A pattern that does not occur leaves the string as it is. */
  lemma ReplaceAbsent(s: string, pattern: string, rep: string)
    requires forall j :: !MatchesAt(s, pattern, j)
    ensures ReplaceFirst(s, pattern, rep) == s
  {
  }

  /**
   * When the pattern occurs, its first occurrence, at `j`, is replaced by a dollar-free `rep`;
   * the text before it and everything after it, later occurrences included, stay as they are.
   */
  lemma ReplaceFirstOccurrence(s: string, pattern: string, rep: string, j: nat)
    requires MatchesAt(s, pattern, j) && forall i :: 0 <= i < j ==> !MatchesAt(s, pattern, i)
    requires '$' !in rep
    ensures ReplaceFirst(s, pattern, rep) == s[..j] + rep + s[j + |pattern|..]
  {
    var r := IndexOf(s, pattern);
    assert r.Some?;
    assert r.value == j;
    ExpandPlain(rep, pattern, s[..j], s[j + |pattern|..]);
  }

  /** The substitutions applied in entry order, each to the result of the ones before. */
  function SubstituteAll(text: string, subs: seq<(string, SubValue)>): string
    decreases |subs|
  {
    if subs == [] then text
    else SubstituteAll(ReplaceFirst(text, Placeholder(subs[0].0), ValueText(subs[0].1)), subs[1..])
  }

  /** A text without `{` holds no placeholder, so no substitution changes it. */
  lemma {:induction false} SubstituteAllPlain(text: string, subs: seq<(string, SubValue)>)
    requires '{' !in text
    ensures SubstituteAll(text, subs) == text
    decreases |subs|
  {
    if subs != [] {
      var p := Placeholder(subs[0].0);
      forall j
        ensures !MatchesAt(text, p, j)
      {
        if 0 <= j && j + |p| <= |text| {
          assert text[j..j + |p|][0] == text[j];
        }
      }
      ReplaceAbsent(text, p, ValueText(subs[0].1));
      SubstituteAllPlain(text, subs[1..]);
    }
  }

  /**
   * `t(key, substitutions)` in the application's table: the text of the current language,
   * with the substitutions applied when they are given.
   */
  function Translate(language: Language, key: Key, subs: Option<seq<(string, SubValue)>>): string {
    var text := Lookup(language, key);
    if subs.Some? then SubstituteAll(text, subs.value) else text
  }

  /**
   * Only the bug-count tooltip has a placeholder: for every other key `t` gives the table's
   * text whatever substitutions it is given.
   */
  lemma TranslateIgnoresSubstitutions(language: Language, key: Key, subs: Option<seq<(string, SubValue)>>)
    requires key != BugsCountTooltip
    ensures Translate(language, key, subs) == if language == En then EnglishText(key) else IndonesianText(key)
  {
    TextsArePlain(key);
    if subs.Some? {
      SubstituteAllPlain(Lookup(language, key), subs.value);
    }
  }

  /** A placeholder at the very start is replaced there by a dollar-free value. */
  lemma ReplaceLeading(p: string, rest: string, rep: string)
    requires '$' !in rep
    ensures ReplaceFirst(p + rest, p, rep) == rep + rest
  {
    var s := p + rest;
    assert s[0..|p|] == p;
    ReplaceFirstOccurrence(s, p, rep, 0);
    assert s[..0] == [] && s[|p|..] == rest;
  }

  /** A single substitution is one replacement. */
  lemma SubstituteOne(text: string, name: string, v: SubValue)
    ensures SubstituteAll(text, [(name, v)]) == ReplaceFirst(text, Placeholder(name), ValueText(v))
  {
    assert [(name, v)][1..] == [];
  }

  /**
   * The tooltip of a history item with `n` bugs (components/history/HistorySidebar.tsx:22):
   * the number followed by " bugs" in English and " bug" in Indonesian.
   */
  lemma BugsCountTooltipText(language: Language, n: int)
    ensures Translate(language, BugsCountTooltip, Some([("count", Num(n))]))
            == IntToString(n) + (if language == En then " bugs" else " bug")
  {
    BugsCountTooltipTexts();
    var rest := if language == En then " bugs" else " bug";
    var text := Lookup(language, BugsCountTooltip);
    assert text == "{{count}}" + rest;
    assert Placeholder("count") == "{{count}}";
    ReplaceLeading("{{count}}", rest, IntToString(n));
    SubstituteOne(text, "count", Num(n));
  }

  /** The settings state: the current language. */
  class SettingsStore {
    var language: Language

    /** The `useState` initialiser. */
    constructor (stored: StoredSettings)
      ensures language == StoredLanguage(stored)
    {
      language := StoredLanguage(stored);
    }

    /** What the settings effect saves: `{ language }`. */
    function Saved(): (stored: StoredSettings)
      reads this
      ensures StoredLanguage(stored) == language
    {
      SavedLanguageRestored(language);
      Stored(Some(LanguageCode(language)))
    }

    /** `setLanguage`. */
    method SetLanguage(lang: Language)
      modifies this
      ensures language == lang
    {
      language := lang;
    }

    /** `t`: look the key up, then apply the substitutions one after another. */
    method T(key: Key, subs: Option<seq<(string, SubValue)>>) returns (text: string)
      ensures text == Translate(language, key, subs)
    {
      text := LookupIn(Table, language, key);
      if subs.Some? {
        text := Substitute(text, subs.value);
      }
    }
  }

  /** The substitution loop of `t`: each entry in turn replaces its placeholder. */
  method Substitute(translation: string, entries: seq<(string, SubValue)>) returns (text: string)
    ensures text == SubstituteAll(translation, entries)
  {
    text := translation;
    var i := 0;
    while i < |entries|
      invariant 0 <= i <= |entries|
      invariant SubstituteAll(text, entries[i..]) == SubstituteAll(translation, entries)
    {
      assert entries[i..][1..] == entries[i + 1..];
      text := ReplaceFirst(text, Placeholder(entries[i].0), ValueText(entries[i].1));
      i := i + 1;
    }
  }
}
