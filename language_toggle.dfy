/** The language switch button (src/components/LanguageToggle.tsx). */
module LanguageToggle {
  import opened LanguageContext

  /** The language a click switches to. */
  function NextLanguage(lang: Lang): (r: Lang)
    ensures r != lang
  {
    if lang == En then Ru else En
  }

  /** ASCII upper case, enough for the two-letter tags. */
  function Upper(s: string): (r: string)
    ensures |r| == |s|
  {
    if s == [] then []
    else [if 'a' <= s[0] <= 'z' then (s[0] as int - 32) as char else s[0]] + Upper(s[1..])
  }

  /** The button's label: the language a click switches to, named in capitals. */
  function Label(lang: Lang): (r: string)
    ensures r == Upper(Tag(NextLanguage(lang)))
  {
    if lang == En then
      assert Upper("ru") == "RU" by {
        assert Upper("u") == "U";
      }
      "RU"
    else
      assert Upper("en") == "EN" by {
        assert Upper("n") == "N";
      }
      "EN"
  }

  /** Clicking twice restores the language. */
  lemma NextLanguageTwice(lang: Lang)
    ensures NextLanguage(NextLanguage(lang)) == lang
  {
  }

  /** `toggleLanguage`: write the other language into the shared cell. */
  method ToggleLanguage(provider: LanguageProvider)
    modifies provider
    ensures provider.language == NextLanguage(old(provider.language))
  {
    provider.SetLanguage(if provider.language == En then Ru else En);
  }

  /** From a fresh page: one click shows Russian and offers English. */
  method ToggleScenario() returns (lang: Lang, caption: string)
    ensures lang == Ru && caption == "EN"
  {
    var provider := new LanguageProvider();
    ToggleLanguage(provider);
    lang := provider.language;
    caption := Label(lang);
  }
}
