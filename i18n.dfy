// The language context: the current language, its persistence in the
// browser's storage, and the translation function `t` with its fallback chain.
module I18n {
  import opened Js

  datatype Language = En | Zh

  /** The code a language is stored and looked up under. */
  function Code(l: Language): string {
    match l
    case En => "en"
    case Zh => "zh"
  }

  /** Strings by key, for one language. */
  type Table = map<string, string>

  datatype Translations = Translations(en: Table, zh: Table)

  function TableOf(ts: Translations, l: Language): Table {
    match l
    case En => ts.en
    case Zh => ts.zh
  }

  /** `m[key]`, `undefined` (or `null` for storage) when the key is absent. */
  function Get<V>(m: map<string, V>, key: string): Option<V> {
    if key in m then Some(m[key]) else None
  }

  /** JavaScript's `a || b` where `a` is a string or `undefined`: the empty
      string is falsy like `undefined`. */
  function Or(a: Option<string>, b: string): string {
    if a.Some? && a.value != "" then a.value else b
  }

  /** The table has a non-empty string for the key. */
  predicate HasEntry(table: Table, key: string) {
    key in table && table[key] != ""
  }

  /** `t(key)`: the current language's entry, else the English entry, else the
      key itself; an empty entry counts as missing. */
  function Translate(ts: Translations, lang: Language, key: string): (r: string)
    ensures HasEntry(TableOf(ts, lang), key) ==> r == TableOf(ts, lang)[key]
    ensures !HasEntry(TableOf(ts, lang), key) && HasEntry(ts.en, key) ==> r == ts.en[key]
    ensures !HasEntry(TableOf(ts, lang), key) && !HasEntry(ts.en, key) ==> r == key
  {
    Or(Get(TableOf(ts, lang), key), Or(Get(ts.en, key), key))
  }

  /** Whatever the tables hold, `t` yields either a non-empty entry of the
      current or the English table, or the key; so it is never empty for a
      non-empty key. */
  lemma TranslateIsEntryOrKey(ts: Translations, lang: Language, key: string)
    ensures var r := Translate(ts, lang, key);
      || r == key
      || (r != "" && key in TableOf(ts, lang) && TableOf(ts, lang)[key] == r)
      || (r != "" && key in ts.en && ts.en[key] == r)
    ensures key != "" ==> Translate(ts, lang, key) != ""
  {
  }

  /** A key the current language lacks reads as it does in English. */
  lemma MissingEntryReadsAsEnglish(ts: Translations, lang: Language, key: string)
    requires !HasEntry(TableOf(ts, lang), key)
    ensures Translate(ts, lang, key) == Translate(ts, En, key)
  {
  }

  /** The key under which the language is stored. */
  const STORAGE_KEY := "language"

  /** The language the app starts in: the stored one, else English. */
  function InitialLanguage(storage: map<string, Language>): (l: Language)
    ensures STORAGE_KEY in storage ==> l == storage[STORAGE_KEY]
    ensures STORAGE_KEY !in storage ==> l == En
  {
    match Get(storage, STORAGE_KEY)
    case Some(stored) => stored
    case None => En
  }

  /** The provider of the language context: the current language, and the
      browser's storage, of which only the language entry is used. */
  class LanguageProvider {
    var language: Language
    var storage: map<string, Language>
    const translations: Translations

    constructor(storage: map<string, Language>, translations: Translations)
      ensures this.language == InitialLanguage(storage)
      ensures this.storage == storage && this.translations == translations
    {
      this.language := InitialLanguage(storage);
      this.storage := storage;
      this.translations := translations;
    }

    /** `changeLanguage`: switch language and remember the choice, so that the
        next start begins in it. */
    method ChangeLanguage(newLanguage: Language)
      modifies this
      ensures language == newLanguage
      ensures storage == old(storage)[STORAGE_KEY := newLanguage]
      ensures InitialLanguage(storage) == newLanguage
    {
      language := newLanguage;
      storage := storage[STORAGE_KEY := newLanguage];
    }

    /** `t` as the context hands it out, bound to the current language. */
    function T(key: string): (r: string)
      reads this
      ensures r == key || r != ""
    {
      Translate(translations, language, key)
    }
  }

  /** The entries of the app's translation tables that the model reasons about. */
  const TRANSLATIONS := Translations(
    map[
      "controls.megapixels" := "Megapixels",
      "language.en" := "English",
      "language.zh" := "中文"
    ],
    map[
      "controls.megapixels" := "",
      "language.en" := "English",
      "language.zh" := "中文",
      "sensor.medium-format" := "中画幅",
      "sensor.full-frame" := "全画幅 (35mm)",
      "sensor.aps-c" := "APS-C画幅",
      "sensor.m43" := "M4/3画幅",
      "sensor.1-inch" := "1英寸画幅",
      "sensor.2-3-inch" := "2/3英寸画幅",
      "sensor.1-1.7-inch" := "1/1.7英寸画幅",
      "sensor.1-2.3-inch" := "1/2.3英寸画幅",
      "sensor.1-3-inch" := "1/3英寸画幅"
    ])

  /** The Chinese unit label is empty, so Chinese falls back to the English one. */
  lemma EmptyUnitFallsBackToEnglish()
    ensures Translate(TRANSLATIONS, Zh, "controls.megapixels") == "Megapixels"
  {
    assert !HasEntry(TRANSLATIONS.zh, "controls.megapixels");
    assert HasEntry(TRANSLATIONS.en, "controls.megapixels");
  }
}
