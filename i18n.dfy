/** The translation module of src/i18n.ts: the per-language tables (four of which are
    copies of the English one), the lookup `t` with its two fallbacks, and the current
    language kept in a module variable and in browser storage under "language". The
    tables' text is constant data; the model carries it as a parameter, with a short
    excerpt to state the fallback on a concrete key. */
module I18n {
  import opened Types

  /** The six values of the `Language` type. */
  const Languages: seq<string> := ["en", "de", "es", "fr", "it", "pt"]

  predicate IsLanguage(s: string)
  {
    s in Languages
  }

  datatype Welcome = Welcome(greeting: string, message: string)

  /** One language's table: its strings by key and its welcome messages. */
  datatype Table = Table(strings: map<string, string>, welcomeMessages: seq<Welcome>)

  /** The tables after the module has loaded: English and German as written, and Spanish,
      French, Italian and Portuguese replaced by copies of English. */
  function Loaded(en: Table, de: Table): (ts: map<string, Table>)
    ensures forall l :: l in ts <==> IsLanguage(l)
    ensures "en" in ts && "de" in ts && ts["en"] == en && ts["de"] == de
    ensures forall l :: l in ts && l != "de" ==> ts[l] == en
  {
    map["en" := en, "de" := de, "es" := en, "fr" := en, "it" := en, "pt" := en]
  }

  /** `lang || currentLanguage` */
  function TargetLanguage(lang: Option<string>, current: string): (r: string)
    ensures lang.Some? && lang.value != "" ==> r == lang.value
    ensures lang.None? ==> r == current
  {
    OrElse(lang, current)
  }

  /** `translations[lang][key] || translations.en[key] || key`. None stands for the
      TypeError the lookup raises when there is no table for `lang`. */
  function Translate(ts: map<string, Table>, key: string, lang: string): (r: Option<string>)
    requires "en" in ts
    ensures r.None? <==> lang !in ts
    ensures r.Some? ==> r.value != "" || key == ""
    ensures lang in ts && key in ts[lang].strings && ts[lang].strings[key] != "" ==> r == Some(ts[lang].strings[key])
  {
    if lang !in ts then None
    else
      var own := ts[lang].strings;
      var en := ts["en"].strings;
      if key in own && own[key] != "" then Some(own[key])
      else if key in en && en[key] != "" then Some(en[key])
      else Some(key)
  }

  /** When a language has nothing for a key, the English text is used, and failing that the
      key itself. */
  lemma TranslateFallbacks(ts: map<string, Table>, key: string, lang: string)
    requires "en" in ts && lang in ts
    requires key !in ts[lang].strings || ts[lang].strings[key] == ""
    ensures key in ts["en"].strings && ts["en"].strings[key] != "" ==> Translate(ts, key, lang) == Some(ts["en"].strings[key])
    ensures (key !in ts["en"].strings || ts["en"].strings[key] == "") ==> Translate(ts, key, lang) == Some(key)
  {
  }

  /** Spanish, French, Italian and Portuguese translate every key as English does. */
  lemma CopiesTranslateAsEnglish(en: Table, de: Table, key: string, lang: string)
    requires lang in ["es", "fr", "it", "pt"]
    ensures Translate(Loaded(en, de), key, lang) == Translate(Loaded(en, de), key, "en")
  {
  }

  /** Every language of the `Language` type has a table, so `t` never fails for them. */
  lemma LanguagesTranslate(en: Table, de: Table, key: string, lang: string)
    requires IsLanguage(lang)
    ensures Translate(Loaded(en, de), key, lang).Some?
  {
  }

  /** A few entries of the English and German tables: German has no "deleteChat". */
  const EnglishExcerpt := Table(map["home" := "Home", "newChat" := "New Chat", "deleteChat" := "Delete Chat"], [])
  const GermanExcerpt := Table(map["home" := "Startseite", "newChat" := "Neuer Chat"], [])

  /** German has its own "home" and borrows English for "deleteChat". */
  lemma GermanFallsBackToEnglish()
    ensures Translate(Loaded(EnglishExcerpt, GermanExcerpt), "home", "de") == Some("Startseite")
    ensures Translate(Loaded(EnglishExcerpt, GermanExcerpt), "deleteChat", "de") == Some("Delete Chat")
  {
    var ts := Loaded(EnglishExcerpt, GermanExcerpt);
    assert "deleteChat" !in ts["de"].strings;
  }

  /** getLanguage's reading of storage: the stored text, or "en" when there is none. The
      stored text is not checked against the six languages. */
  function StoredLanguage(storage: map<string, string>): (r: string)
    ensures r != ""
    ensures "language" !in storage ==> r == "en"
    ensures "language" in storage && storage["language"] != "" ==> r == storage["language"]
    ensures "language" in storage && storage["language"] == "" ==> r == "en"
  {
    if "language" in storage && storage["language"] != "" then storage["language"] else "en"
  }

  /** What setLanguage stores is what getLanguage reads back. */
  lemma StoreThenRead(storage: map<string, string>, lang: string)
    requires IsLanguage(lang)
    ensures StoredLanguage(storage["language" := lang]) == lang
  {
  }

  /** A stored text that is not one of the six languages becomes the current language at
      load, and then every `t` call without an explicit language fails. */
  lemma UnknownStoredLanguageBreaksLookup(en: Table, de: Table, storage: map<string, string>, key: string)
    requires "language" in storage && storage["language"] != "" && !IsLanguage(storage["language"])
    ensures Translate(Loaded(en, de), key, TargetLanguage(None, StoredLanguage(storage))).None?
  {
  }

  /** The module's state: its tables, `currentLanguage` and the browser storage. */
  class Translator {
    var translations: map<string, Table>
    var currentLanguage: string
    var storage: map<string, string>

    /** Loading the module: the tables are built, the four copies made, and the current
        language read from storage (the browser case, where `window` exists). */
    constructor (en: Table, de: Table, storage: map<string, string>)
      ensures translations == Loaded(en, de)
      ensures currentLanguage == StoredLanguage(storage) && this.storage == storage
    {
      var empty := Table(map[], []);
      var ts := map["en" := en, "de" := de, "es" := empty, "fr" := empty, "it" := empty, "pt" := empty];
      ts := ts["es" := ts["en"]];
      ts := ts["fr" := ts["en"]];
      ts := ts["it" := ts["en"]];
      ts := ts["pt" := ts["en"]];
      assert ts == Loaded(en, de);
      translations := ts;
      this.storage := storage;
      currentLanguage := StoredLanguage(storage);
    }

    /** getLanguage: what storage holds, or English when it holds nothing. */
    function GetLanguage(): (r: string)
      reads this
      ensures r != ""
      ensures "language" in storage && storage["language"] != "" ==> r == storage["language"]
      ensures "language" !in storage || storage["language"] == "" ==> r == "en"
    {
      StoredLanguage(storage)
    }

    /** setLanguage */
    method SetLanguage(lang: string)
      requires IsLanguage(lang)
      modifies this
      ensures currentLanguage == lang && storage == old(storage)["language" := lang]
      ensures translations == old(translations)
      ensures GetLanguage() == lang
    {
      currentLanguage := lang;
      storage := storage["language" := lang];
    }

    /** `t(key, lang)`: the lookup in the explicit language, or else the current one; it
        fails exactly when that language has no table. */
    function T(key: string, lang: Option<string>): (r: Option<string>)
      reads this
      requires "en" in translations
      ensures r.None? <==> TargetLanguage(lang, currentLanguage) !in translations
      ensures lang.Some? && lang.value != "" ==> (r.None? <==> lang.value !in translations)
      ensures r.Some? ==> r.value != "" || key == ""
    {
      Translate(translations, key, TargetLanguage(lang, currentLanguage))
    }

    /** getWelcomeMessages; None stands for the TypeError of a missing table. */
    function WelcomeMessages(lang: Option<string>): (r: Option<seq<Welcome>>)
      reads this
      ensures r.None? <==> TargetLanguage(lang, currentLanguage) !in translations
      ensures r.Some? ==> r.value == translations[TargetLanguage(lang, currentLanguage)].welcomeMessages
    {
      var l := TargetLanguage(lang, currentLanguage);
      if l in translations then Some(translations[l].welcomeMessages) else None
    }
  }
}
