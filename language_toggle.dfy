// The language toggle button: a click switches between English and Chinese,
// and the button is labelled with the name of the language it switches to.
module LanguageToggle {
  import opened I18n

  /** The language a click switches to. */
  function Other(l: Language): (r: Language)
    ensures r != l
  {
    if l == En then Zh else En
  }

  /** Switching twice comes back to the starting language. */
  lemma OtherInvolutive(l: Language)
    ensures Other(Other(l)) == l
  {
  }

  /** The translation key of a language's own name. */
  function NameKey(l: Language): string {
    "language." + Code(l)
  }

  /** The key of the button's label, as the button computes it. */
  function LabelKey(l: Language): (k: string)
    ensures k == NameKey(Other(l))
    ensures k != NameKey(l)
  {
    assert ("language." + Code(l))[9..] == Code(l);
    assert ("language." + Code(Other(l)))[9..] == Code(Other(l));
    "language." + (if l == En then "zh" else "en")
  }

  /** A click: the provider switches to the other language and stores it. */
  method Toggle(provider: LanguageProvider)
    modifies provider
    ensures provider.language == Other(old(provider.language))
    ensures provider.language != old(provider.language)
    ensures provider.storage == old(provider.storage)[STORAGE_KEY := provider.language]
  {
    var newLanguage := if provider.language == En then Zh else En;
    provider.ChangeLanguage(newLanguage);
  }

  /** Two clicks restore both the language and what is stored. */
  method ToggleTwice(provider: LanguageProvider)
    modifies provider
    ensures provider.language == old(provider.language)
    ensures provider.storage == old(provider.storage)[STORAGE_KEY := old(provider.language)]
  {
    Toggle(provider);
    Toggle(provider);
    OtherInvolutive(old(provider.language));
  }

  /** With the app's tables the label reads "中文" in English and "English" in
      Chinese: the name of the language a click switches to. */
  lemma LabelNamesTarget(l: Language)
    ensures Translate(TRANSLATIONS, l, LabelKey(l)) == if l == En then "中文" else "English"
  {
    assert LabelKey(l) == if l == En then "language.zh" else "language.en";
  }
}
