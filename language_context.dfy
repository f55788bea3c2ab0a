/**
 * Language resolution of the storefront: the interface-text lookup `t`, the
 * per-language record lookup `getTranslation`, right-to-left detection, and
 * the provider's selected-language / selector-visible state.
 *
 * The selected language is a `JsNumber`: the provider restores it with
 * `Number(saved)` and does not check that the result is a language code.
 */
module LanguageContext {

  import opened Wrappers
  import opened JsText
  import opened Catalog
  import Translations
  import BrowserStorage

  /** The `LanguageCode` enumeration. */
  const English: int := 1
  const Arabic: int := 2

  /** The storage key under which the chosen language code is kept. */
  const SelectedLanguageKey: string := "selectedLanguage"

  /** `t.languageCode === selectedLanguage` */
  predicate Matches(t: Translation, lang: JsNumber) {
    lang == Int(t.languageCode)
  }

  /** `isRTL`: Arabic is written right to left. */
  function IsRTL(lang: JsNumber): (r: bool)
    ensures r <==> lang == Int(Arabic)
  {
    lang.Int? && lang.value == Arabic
  }

  // ---------------------------------------------------------------------------
  // t(key, fallback)

  /** `translations[selectedLanguage]`: only codes 1 and 2 have a dictionary. */
  function DictionaryFor(lang: JsNumber): (r: Option<Translations.Dictionary>)
    ensures r.Some? <==> lang == Int(English) || lang == Int(Arabic)
  {
    match lang
    case Int(code) =>
      if code == English then Some(Translations.English)
      else if code == Arabic then Some(Translations.Arabic)
      else None
    case NonInteger => None
  }

  /** Reading a property of `undefined` throws a TypeError. */
  datatype TypeError = PropertyOfUndefined

  /** `a || b || c` on strings: the first non-empty one, else the last. */
  function FirstNonEmpty(entry: Option<string>, fallback: Option<string>, key: string): (r: string)
    ensures key != "" ==> r != ""
    ensures entry.Some? && entry.value != "" ==> r == entry.value
    ensures r == key || (entry.Some? && r == entry.value) || (fallback.Some? && r == fallback.value)
  {
    if entry.Some? && entry.value != "" then entry.value
    else if fallback.Some? && fallback.value != "" then fallback.value
    else key
  }

  /**
   * `t` as the source writes it: `translations[selectedLanguage][key]`
   * throws when the selected language has no dictionary.
   */
  function TAsWritten(lang: JsNumber, key: string, fallback: Option<string>): (r: Result<string, TypeError>)
    ensures r.Failure? <==> DictionaryFor(lang).None?
  {
    match DictionaryFor(lang)
    case None => Failure(PropertyOfUndefined)
    case Some(d) => Success(FirstNonEmpty(Translations.Lookup(d, key), fallback, key))
  }

  /**
   * `t` with a language that has no dictionary treated as an empty one: the
   * dictionary text if present and non-empty, else a non-empty fallback,
   * else the key itself.
   */
  function T(lang: JsNumber, key: string, fallback: Option<string>): (r: string)
    ensures key != "" ==> r != ""
    ensures r == key || (fallback.Some? && r == fallback.value) ||
            (DictionaryFor(lang).Some? && Translations.Lookup(DictionaryFor(lang).value, key) == Some(r))
    ensures DictionaryFor(lang).None? ==> r == FirstNonEmpty(None, fallback, key)
  {
    var entry := match DictionaryFor(lang)
      case None => None
      case Some(d) => Translations.Lookup(d, key);
    FirstNonEmpty(entry, fallback, key)
  }

  /** Wherever the source's `t` does not throw, the corrected `T` returns the same text. */
  lemma TAgreesWhereDefined(lang: JsNumber, key: string, fallback: Option<string>)
    ensures TAsWritten(lang, key, fallback).Success? ==> TAsWritten(lang, key, fallback).value == T(lang, key, fallback)
  {
  }

  /**
   * Under English or Arabic, a key either dictionary defines is resolved
   * from the selected language's own dictionary, never from the fallback or
   * the key.
   */
  lemma KnownKeyNeverFallsBack(lang: JsNumber, key: string, fallback: Option<string>)
    requires lang == Int(English) || lang == Int(Arabic)
    requires Translations.HasKey(Translations.English, key) || Translations.HasKey(Translations.Arabic, key)
    ensures Translations.Lookup(DictionaryFor(lang).value, key).Some?
    ensures T(lang, key, fallback) == Translations.Lookup(DictionaryFor(lang).value, key).value
    ensures T(lang, key, fallback) != ""
  {
    Translations.EnglishArabicSameKeys();
    Translations.DictionariesHaveNoEmptyText();
    Translations.SameKeysSameLookups(Translations.English, Translations.Arabic, key);
    Translations.KnownKeyResolves(DictionaryFor(lang).value, key);
  }

  /** A key neither dictionary defines resolves to the fallback, or to the key when the fallback is missing or empty. */
  lemma UnknownKeyFallsBack(lang: JsNumber, key: string, fallback: Option<string>)
    requires !Translations.HasKey(Translations.English, key) && !Translations.HasKey(Translations.Arabic, key)
    ensures fallback.Some? && fallback.value != "" ==> T(lang, key, fallback) == fallback.value
    ensures (fallback.None? || fallback.value == "") ==> T(lang, key, fallback) == key
  {
  }

  // ---------------------------------------------------------------------------
  // getTranslation(item, field)

  datatype Field = Name | Description

  function FieldOf(t: Translation, field: Field): string {
    match field
    case Name => t.name
    case Description => t.description
  }

  /** `translations.find(t => t.languageCode === lang)`, as an index. */
  function FindTranslation(ts: seq<Translation>, lang: JsNumber): (r: Option<nat>)
    ensures r.Some? ==> r.value < |ts| && Matches(ts[r.value], lang)
    ensures r.Some? ==> forall j :: 0 <= j < r.value ==> !Matches(ts[j], lang)
    ensures r.None? ==> forall j :: 0 <= j < |ts| ==> !Matches(ts[j], lang)
  {
    if ts == [] then None
    else if Matches(ts[0], lang) then Some(0)
    else
      match FindTranslation(ts[1..], lang)
      case None => None
      case Some(i) => Some(i + 1)
  }

  /** The text `getTranslation` gives for a missing or empty translation list. */
  function GetTranslationPlaceholder(field: Field): string {
    match field
    case Name => "Unnamed"
    case Description => ""
  }

  /**
   * `getTranslation(item, field)`: the field of the first translation in the
   * selected language, else of the first translation, else the placeholder.
   */
  function GetTranslation(ts: seq<Translation>, lang: JsNumber, field: Field): (r: string)
    ensures ts == [] ==> r == GetTranslationPlaceholder(field)
    ensures ts != [] ==> exists i :: 0 <= i < |ts| && r == FieldOf(ts[i], field)
  {
    if ts == [] then GetTranslationPlaceholder(field)
    else
      match FindTranslation(ts, lang)
      case Some(i) => FieldOf(ts[i], field)
      case None => FieldOf(ts[0], field)
  }

  /** A translation in the selected language that no earlier one precedes is the one used. */
  lemma GetTranslationTakesFirstMatch(ts: seq<Translation>, lang: JsNumber, field: Field, i: nat)
    requires i < |ts| && Matches(ts[i], lang)
    requires forall j :: 0 <= j < i ==> !Matches(ts[j], lang)
    ensures GetTranslation(ts, lang, field) == FieldOf(ts[i], field)
  {
    var k := FindTranslation(ts, lang);
    assert k.Some? by { assert !(forall j :: 0 <= j < |ts| ==> !Matches(ts[j], lang)); }
  }

  /** With no translation in the selected language, the first translation is used. */
  lemma GetTranslationFallsBackToFirst(ts: seq<Translation>, lang: JsNumber, field: Field)
    requires ts != []
    requires forall j :: 0 <= j < |ts| ==> !Matches(ts[j], lang)
    ensures GetTranslation(ts, lang, field) == FieldOf(ts[0], field)
  {
  }

  /**
   * When each language code occurs at most once, as the catalogue intends,
   * the result is the field of the translation in the selected language.
   */
  lemma GetTranslationWithUniqueCodes(ts: seq<Translation>, lang: JsNumber, field: Field, i: nat)
    requires forall j, k :: 0 <= j < k < |ts| ==> ts[j].languageCode != ts[k].languageCode
    requires i < |ts| && Matches(ts[i], lang)
    ensures GetTranslation(ts, lang, field) == FieldOf(ts[i], field)
  {
    GetTranslationTakesFirstMatch(ts, lang, field, i);
  }

  // ---------------------------------------------------------------------------
  // Selected language and selector visibility

  datatype SelectionState = SelectionState(selectedLanguage: JsNumber, showLanguageSelector: bool)

  /** The provider's state when it is first rendered: English, selector hidden. */
  function InitialSelection(): SelectionState {
    SelectionState(Int(English), false)
  }

  /**
   * The effect that runs for the tenant's supported languages: with more than
   * one language, a saved code (any non-empty stored string) is restored as
   * `Number(saved)` without validation, and without one the selector is
   * shown; with one language or none nothing happens.
   */
  function Restore(s: SelectionState, supportedLanguages: seq<int>, stored: map<string, string>): (r: SelectionState)
    ensures |supportedLanguages| <= 1 ==> r == s
    ensures |supportedLanguages| > 1 && SelectedLanguageKey in stored && stored[SelectedLanguageKey] != "" ==>
              r == s.(selectedLanguage := NumberOf(stored[SelectedLanguageKey]))
    ensures |supportedLanguages| > 1 && (SelectedLanguageKey !in stored || stored[SelectedLanguageKey] == "") ==>
              r == s.(showLanguageSelector := true)
  {
    if |supportedLanguages| > 1 then
      if SelectedLanguageKey in stored && stored[SelectedLanguageKey] != "" then
        s.(selectedLanguage := NumberOf(stored[SelectedLanguageKey]))
      else
        s.(showLanguageSelector := true)
    else s
  }

  /**
   * `handleLanguageSelect`: the state after choosing a language, which is in
   * use at once, right to left exactly for Arabic, with the selector closed.
   */
  function Select(language: int): (r: SelectionState)
    ensures r.selectedLanguage == Int(language)
    ensures IsRTL(r.selectedLanguage) <==> language == Arabic
    ensures forall supportedLanguages :: !SelectorVisible(r, supportedLanguages)
  {
    SelectionState(Int(language), false)
  }

  /** `localStorage.setItem('selectedLanguage', language.toString())` */
  function StoreSelection(stored: map<string, string>, language: int): (r: map<string, string>)
    ensures SelectedLanguageKey in r && r[SelectedLanguageKey] != ""
    ensures NumberOf(r[SelectedLanguageKey]) == Int(language)
    ensures r.Keys == stored.Keys + {SelectedLanguageKey}
    ensures forall k :: k in stored && k != SelectedLanguageKey ==> r[k] == stored[k]
  {
    NumberOfIntToString(language);
    stored[SelectedLanguageKey := IntToString(language)]
  }

  /** The selector is rendered only while its flag is set and more than one language is supported. */
  function SelectorVisible(s: SelectionState, supportedLanguages: seq<int>): (r: bool)
    ensures r ==> s.showLanguageSelector
    ensures |supportedLanguages| <= 1 ==> !r
  {
    s.showLanguageSelector && |supportedLanguages| > 1
  }

  /** A tenant with one supported language, even if it is Arabic, stays on English with no selector. */
  lemma SingleLanguageStaysEnglish(supportedLanguages: seq<int>, stored: map<string, string>)
    requires |supportedLanguages| <= 1
    ensures Restore(InitialSelection(), supportedLanguages, stored).selectedLanguage == Int(English)
    ensures !SelectorVisible(Restore(InitialSelection(), supportedLanguages, stored), supportedLanguages)
  {
  }

  /** On a first visit to a multilingual tenant the selector is shown and English is used meanwhile. */
  lemma FirstVisitShowsSelector(supportedLanguages: seq<int>, stored: map<string, string>)
    requires |supportedLanguages| > 1 && SelectedLanguageKey !in stored
    ensures SelectorVisible(Restore(InitialSelection(), supportedLanguages, stored), supportedLanguages)
    ensures Restore(InitialSelection(), supportedLanguages, stored).selectedLanguage == Int(English)
  {
  }

  /**
   * A language chosen in the selector is the one restored on the next page
   * load of a multilingual tenant, and the selector stays hidden.
   */
  lemma SelectionSurvivesReload(supportedLanguages: seq<int>, stored: map<string, string>, language: int)
    requires |supportedLanguages| > 1
    ensures Restore(InitialSelection(), supportedLanguages, StoreSelection(stored, language)) == Select(language)
  {
    NumberOfIntToString(language);
  }

  /**
   * The defect of `t`: a saved integer code with no dictionary, such as "3",
   * is restored unchecked, after which the source's `t` throws for every key
   * while the corrected `T` falls back to the key.
   */
  lemma UnknownSavedCodeBreaksT(code: int, key: string)
    requires code != English && code != Arabic && key != ""
    ensures var s := Restore(InitialSelection(), [English, Arabic], map[SelectedLanguageKey := IntToString(code)]);
            s.selectedLanguage == Int(code) &&
            TAsWritten(s.selectedLanguage, key, None).Failure? && T(s.selectedLanguage, key, None) == key
  {
    var stored := map[SelectedLanguageKey := IntToString(code)];
    assert SelectedLanguageKey in stored && stored[SelectedLanguageKey] == IntToString(code);
    NumberOfIntToString(code);
  }

  /**
   * `Number` reads a saved "2.0" as 2, so it restores Arabic, with a
   * dictionary for `t`, exactly as a saved "2" does.
   */
  lemma SavedDecimalFormRestoresArabic()
    ensures var s := Restore(InitialSelection(), [English, Arabic], map[SelectedLanguageKey := "2.0"]);
            s.selectedLanguage == Int(Arabic) && TAsWritten(s.selectedLanguage, "nav.home", None).Success?
  {
    var stored := map[SelectedLanguageKey := "2.0"];
    assert SelectedLanguageKey in stored && stored[SelectedLanguageKey] == "2.0";
    NumberOfOtherLiterals();
  }

  // ---------------------------------------------------------------------------
  // The provider

  class LanguageProvider {
    const supportedLanguages: seq<int>
    const storage: BrowserStorage.LocalStorage
    var selectedLanguage: JsNumber
    var showLanguageSelector: bool

    function State(): SelectionState
      reads this
    {
      SelectionState(selectedLanguage, showLanguageSelector)
    }

    /** The first render: English, selector hidden. */
    constructor (supportedLanguages: seq<int>, storage: BrowserStorage.LocalStorage)
      ensures this.supportedLanguages == supportedLanguages && this.storage == storage
      ensures State() == InitialSelection()
    {
      this.supportedLanguages := supportedLanguages;
      this.storage := storage;
      selectedLanguage := Int(English);
      showLanguageSelector := false;
    }

    /** The effect on `supportedLanguages`: restore a saved language or ask for one. */
    method RestoreSavedLanguage()
      modifies this
      ensures State() == Restore(old(State()), supportedLanguages, storage.entries)
    {
      if |supportedLanguages| > 1 {
        var saved := if SelectedLanguageKey in storage.entries then storage.entries[SelectedLanguageKey] else "";
        if saved != "" {
          selectedLanguage := NumberOf(saved);
        } else {
          showLanguageSelector := true;
        }
      }
    }

    /** `handleLanguageSelect`: select, remember, and hide the selector. */
    method HandleLanguageSelect(language: int)
      modifies this, storage
      ensures State() == Select(language)
      ensures storage.entries == StoreSelection(old(storage.entries), language)
    {
      selectedLanguage := Int(language);
      storage.SetItem(SelectedLanguageKey, IntToString(language));
      showLanguageSelector := false;
    }

    /** Whether the selector overlay is rendered. */
    function SelectorShown(): (r: bool)
      reads this
      ensures r <==> showLanguageSelector && |supportedLanguages| > 1
    {
      SelectorVisible(State(), supportedLanguages)
    }
  }
}
