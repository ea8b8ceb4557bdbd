/**
 * The colour and visibility rules of the booking section
 * (src/components/BookingSystem.tsx).  The theme is the raw theme string.
 */
module BookingSystem {
  import opened Wrappers
  import opened LanguageContext
  import ThemeContext

  const Cyan := "#00e1ff"
  const Blue := "#0515fa"
  const Magenta := "#ff00aa"

  /** The colour a card shows: the cyan card turns blue in the light theme. */
  function DisplayColor(theme: string, color: string): (r: string)
    ensures r != color <==> theme == ThemeContext.LightTheme && color == Cyan
    ensures r != color ==> r == Blue
  {
    if theme == ThemeContext.LightTheme && color == Cyan then Blue else color
  }

  /** The booking button's background and border: blue for the cyan card, magenta otherwise. */
  function ButtonColor(color: string): (r: string)
    ensures r == Blue || r == Magenta
    ensures r == Blue <==> color == Cyan
  {
    if color == Cyan then Blue else Magenta
  }

  /** The card border: the display colour at 25% alpha in the light theme, the raw colour otherwise. */
  function CardBorder(theme: string, color: string): string
  {
    if theme == ThemeContext.LightTheme then DisplayColor(theme, color) + "40" else color
  }

  /** The button colour does not depend on the theme, and matches the light-theme display colour of both cards on the page. */
  lemma ButtonMatchesLightDisplay(color: string)
    requires color == Cyan || color == Magenta
    ensures ButtonColor(color) == DisplayColor(ThemeContext.LightTheme, color)
  {
  }

  /** In the dark theme a card shows its own colour. */
  lemma DarkThemeKeepsColor(color: string)
    ensures DisplayColor(ThemeContext.DarkTheme, color) == color
    ensures CardBorder(ThemeContext.DarkTheme, color) == color
  {
  }

  /**
   * The Russian note's guard: Russian selected and the note's text truthy.
   * The text test never fails, since `t` falls back to the key, so the note
   * shows exactly in Russian.
   */
  function RussianNoteShown(lang: Lang): (r: bool)
    ensures r <==> lang == Ru
  {
    lang == Ru && Translate(lang, RussianNoteKey) != ""
  }

  /** When the note shows, it shows the Russian text. */
  lemma RussianNoteText(lang: Lang)
    requires RussianNoteShown(lang)
    ensures Translate(lang, RussianNoteKey) == RussianNote
  {
  }

  /** In English `t` returns the key, which is truthy; only the language test hides the note. */
  lemma EnglishNoteHiddenByLanguageOnly()
    ensures Translate(En, RussianNoteKey) != ""
    ensures !RussianNoteShown(En)
  {
  }

  /** The sale badge's text, present only on a card on sale. */
  function SaleBadge(isOnSale: bool, lang: Lang): (r: Option<string>)
    ensures r.Some? <==> isOnSale
    ensures r.Some? && lang == Ru ==> r.value == "Временная скидка"
    ensures r.Some? && lang == En ==> r.value == "Limited Offer"
  {
    if isOnSale then Some(if lang == Ru then "Временная скидка" else "Limited Offer") else None
  }

  /** One session card: translation keys, booking URL, colour and sale flag. */
  datatype SessionCard = SessionCard(
    titleKey: string,
    durationKey: string,
    priceKey: string,
    descriptionKey: string,
    buttonKey: string,
    calendlyUrl: string,
    color: string,
    isOnSale: bool)

  /** The introductory card; `isOnSale` is left at its default, false. */
  const IntroCard := SessionCard("booking.intro.title", "booking.intro.duration", "booking.intro.price",
    "booking.intro.description", "booking.intro.button", "https://calendly.com/projecteden2027/15min", Cyan, false)

  const DeepDiveCard := SessionCard("booking.deepDive.title", "booking.deepDive.duration", "booking.deepDive.price",
    "booking.deepDive.description", "booking.deepDive.button", "https://calendly.com/projecteden2027/individual-consultation", Magenta, true)

  const Cards: seq<SessionCard> := [IntroCard, DeepDiveCard]

  /** Only the deep-dive card carries the badge, and each card books its own URL. */
  lemma CardsOnPage()
    ensures SaleBadge(IntroCard.isOnSale, Ru).None?
    ensures SaleBadge(DeepDiveCard.isOnSale, Ru) == Some("Временная скидка")
    ensures SaleBadge(DeepDiveCard.isOnSale, En) == Some("Limited Offer")
    ensures IntroCard.calendlyUrl != DeepDiveCard.calendlyUrl
    ensures forall c :: c in Cards ==> ButtonColor(c.color) == DisplayColor(ThemeContext.LightTheme, c.color)
  {
  }

  /** The intro card's light border is the substituted blue, not its own cyan; the dark borders are the raw colours. */
  lemma CardBordersOnPage()
    ensures CardBorder(ThemeContext.LightTheme, IntroCard.color) == "#0515fa40"
    ensures CardBorder(ThemeContext.LightTheme, IntroCard.color) != IntroCard.color + "40"
    ensures CardBorder(ThemeContext.LightTheme, DeepDiveCard.color) == "#ff00aa40"
    ensures CardBorder(ThemeContext.DarkTheme, IntroCard.color) == "#00e1ff"
    ensures CardBorder(ThemeContext.DarkTheme, DeepDiveCard.color) == "#ff00aa"
  {
    assert CardBorder(ThemeContext.LightTheme, IntroCard.color)[2] != (IntroCard.color + "40")[2];
  }

  /** Every card's texts have non-empty translations in both languages. */
  lemma CardKeysTranslated(c: SessionCard, lang: Lang)
    requires c in Cards
    ensures HasText(lang, c.titleKey) && HasText(lang, c.durationKey)
    ensures HasText(lang, c.priceKey) && HasText(lang, c.descriptionKey)
    ensures HasText(lang, c.buttonKey)
  {
    match lang
    case En => IntroKeysTranslatedEn(); DeepDiveKeysTranslatedEn();
    case Ru => IntroKeysTranslatedRu(); DeepDiveKeysTranslatedRu();
  }

  lemma IntroKeysTranslatedEn()
    ensures HasText(En, "booking.intro.title") && HasText(En, "booking.intro.duration")
    ensures HasText(En, "booking.intro.price") && HasText(En, "booking.intro.description")
    ensures HasText(En, "booking.intro.button")
  {
  }

  lemma IntroKeysTranslatedRu()
    ensures HasText(Ru, "booking.intro.title") && HasText(Ru, "booking.intro.duration")
    ensures HasText(Ru, "booking.intro.price") && HasText(Ru, "booking.intro.description")
    ensures HasText(Ru, "booking.intro.button")
  {
  }

  lemma DeepDiveKeysTranslatedEn()
    ensures HasText(En, "booking.deepDive.title") && HasText(En, "booking.deepDive.duration")
    ensures HasText(En, "booking.deepDive.price") && HasText(En, "booking.deepDive.description")
    ensures HasText(En, "booking.deepDive.button")
  {
  }

  lemma DeepDiveKeysTranslatedRu()
    ensures HasText(Ru, "booking.deepDive.title") && HasText(Ru, "booking.deepDive.duration")
    ensures HasText(Ru, "booking.deepDive.price") && HasText(Ru, "booking.deepDive.description")
    ensures HasText(Ru, "booking.deepDive.button")
  {
  }
}
