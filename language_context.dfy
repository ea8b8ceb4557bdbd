/**
 * The translation store and the current-language cell of the site
 * (src/context/LanguageContext.tsx).
 *
 * Each language owns a constant key-to-text table.  The lookup `t(key)`
 * evaluates `table[key] || key`: a key the table lacks, and a key whose stored
 * text is the empty string (falsy in JavaScript), both fall back to the key.
 * The tables below hold the keys that the booking cards, the contact form
 * and the navigation bar read, with their texts.  The English text of the
 * Russian booking note is the empty string.
 */
module LanguageContext {

  /** The two languages; the TypeScript type admits exactly 'en' and 'ru'. */
  datatype Lang = En | Ru

  /** The language tag as written in the source. */
  function Tag(lang: Lang): (r: string)
    ensures |r| == 2
  {
    match lang
    case En => "en"
    case Ru => "ru"
  }

  const EnTable: map<string, string> := map[
    "contact.form.title" := "Send us a message",
    "contact.form.name" := "Your Name",
    "contact.form.email" := "Email Address",
    "contact.form.message" := "Your Message",
    "contact.form.placeholder.name" := "John Doe",
    "contact.form.placeholder.email" := "john@example.com",
    "contact.form.placeholder.message" := "How can we help you?",
    "contact.form.button" := "Send Message",
    "contact.form.sending" := "Sending...",
    "contact.form.success.title" := "Message Sent!",
    "contact.form.success.message" := "Thank you for reaching out. We'll get back to you soon.",
    "booking.intro.title" := "Introductory Session",
    "booking.intro.duration" := "15 minutes",
    "booking.intro.price" := "Free",
    "booking.intro.description" := "Get a taste of personalized guidance and discover how it can assist you. This brief session introduces you to your energy type and provides a glimpse into your unique design.",
    "booking.intro.button" := "Book Free Session",
    "booking.deepDive.title" := "Deep Dive Session",
    "booking.deepDive.duration" := "1 hour",
    "booking.deepDive.price" := "$99 AUD",
    "booking.deepDive.description" := "A comprehensive exploration of your personal blueprint with personalized insights and practical strategies. Uncover your authentic self and learn how to align with your true nature.",
    "booking.deepDive.button" := "Book Now - $99 AUD",
    "booking.russianNote" := "",
    "nav.services" := "Services",
    "nav.humanDesign" := "Design",
    "nav.about" := "About",
    "nav.contact" := "Contact",
    "nav.book" := "Book"
  ]

  const RuTable: map<string, string> := map[
    "contact.form.title" := "Отправьте сообщение",
    "contact.form.name" := "Ваше имя",
    "contact.form.email" := "Электронная почта",
    "contact.form.message" := "Ваше сообщение",
    "contact.form.placeholder.name" := "Иван Иванов",
    "contact.form.placeholder.email" := "ivan@example.com",
    "contact.form.placeholder.message" := "Чем я могу вам помочь?",
    "contact.form.button" := "Отправить сообщение",
    "contact.form.sending" := "Отправка...",
    "contact.form.success.title" := "Сообщение отправлено!",
    "contact.form.success.message" := "Спасибо за обращение. Я свяжусь с вами в ближайшее время.",
    "booking.intro.title" := "Вводный прием",
    "booking.intro.duration" := "15 минут",
    "booking.intro.price" := "Бесплатно",
    "booking.intro.description" := "Получите персонализированное руководство и узнайте, как оно может вам помочь. Этот короткий прием знакомит вас с вашим энергетическим типом и дает представление о вашей уникальной природе.",
    "booking.intro.button" := "Записаться на бесплатный прием",
    "booking.deepDive.title" := "Индивидуальный прием",
    "booking.deepDive.duration" := "1 час",
    "booking.deepDive.price" := "5000 руб.",
    "booking.deepDive.description" := "Комплексное исследование вашей личной карты с персонализированными выводами и практическими стратегиями. Откройте свое истинное я и научитесь жить в соответствии со своей истинной природой.",
    "booking.deepDive.button" := "Записаться - 5000 руб.",
    "booking.russianNote" := RussianNote,
    "nav.services" := "Услуги",
    "nav.humanDesign" := "Дизайн",
    "nav.about" := "Обо мне",
    "nav.contact" := "Контакты",
    "nav.book" := "Записаться"
  ]

  const RussianNoteKey := "booking.russianNote"

  const RussianNote := "Примечание для клиентов из России: Выберите удобное время и напишите мне напрямую в Telegram для бронирования, так как оплата картой в России недоступна."

  /** The table `t` consults: English for `en`, Russian for anything else. */
  function Table(lang: Lang): map<string, string>
  {
    if lang == En then EnTable else RuTable
  }

  /** True when `table[key]` is truthy in JavaScript: present and non-empty. */
  predicate HasText(lang: Lang, key: string)
  {
    key in Table(lang) && Table(lang)[key] != ""
  }

  /**
   * `t(key)` for the given current language.  The result is either the key
   * itself or the stored text, and is empty only for the empty key.
   */
  function Translate(lang: Lang, key: string): (r: string)
    ensures r == key || (key in Table(lang) && r == Table(lang)[key])
    ensures r == "" ==> key == ""
  {
    var translations := Table(lang);
    if key in translations && translations[key] != "" then translations[key] else key
  }

  /** Switching the language switches the table `t` reads: a key with text in both yields each table's own text. */
  lemma LookupFollowsLanguage(key: string)
    requires HasText(En, key) && HasText(Ru, key)
    ensures Translate(En, key) == EnTable[key]
    ensures Translate(Ru, key) == RuTable[key]
  {
  }

  /** A key with non-empty text in the current table yields that text. */
  lemma TranslatePresent(lang: Lang, key: string)
    requires key in Table(lang) && Table(lang)[key] != ""
    ensures Translate(lang, key) == Table(lang)[key]
  {
  }

  /** A key missing from the current table yields itself. */
  lemma TranslateAbsent(lang: Lang, key: string)
    requires key !in Table(lang)
    ensures Translate(lang, key) == key
  {
  }

  /** A key stored with empty text yields itself too. */
  lemma TranslateEmptyFallsBack(lang: Lang, key: string)
    requires key in Table(lang) && Table(lang)[key] == ""
    ensures Translate(lang, key) == key
  {
  }

  /** `t` returns the stored text exactly when the text is non-empty. */
  lemma TranslateIsStoredTextIff(lang: Lang, key: string)
    requires key in Table(lang)
    ensures Translate(lang, key) == Table(lang)[key] <==> (Table(lang)[key] != "" || key == "")
  {
  }

  /** The Russian note: empty in English, so `t` gives the key; real text in Russian. */
  lemma RussianNoteLookups()
    ensures EnTable[RussianNoteKey] == ""
    ensures Translate(En, RussianNoteKey) == RussianNoteKey
    ensures Translate(Ru, RussianNoteKey) == RussianNote != ""
  {
  }

  /** Every English key has Russian text, and no key is stored twice. */
  lemma TablesShareKeys()
    ensures EnTable.Keys == RuTable.Keys
  {
  }

  /** The provider's state: the one current-language cell shared by the page. */
  class LanguageProvider {
    var language: Lang

    /** The cell starts at 'en' on every load; it is not persisted. */
    constructor ()
      ensures language == En
    {
      language := En;
    }

    /** `setLanguage` replaces the cell; nothing else is kept. */
    method SetLanguage(lang: Lang)
      modifies this
      ensures language == lang
    {
      language := lang;
    }

    /** `t` bound to the current language. */
    function T(key: string): (r: string)
      reads this
      ensures r == key || (key in Table(language) && r == Table(language)[key])
      ensures r == "" ==> key == ""
    {
      Translate(language, key)
    }
  }

  /** Setting the same language twice leaves the same state as setting it once. */
  method SetLanguageTwice(p: LanguageProvider, lang: Lang)
    modifies p
    ensures p.language == lang
    ensures forall key :: p.T(key) == Translate(lang, key)
  {
    p.SetLanguage(lang);
    p.SetLanguage(lang);
  }

  /** The end-to-end language scenario: English first, then Russian text. */
  method LanguageScenario() returns (before: string, after: string)
    ensures before == "About" && after == "Обо мне"
  {
    var p := new LanguageProvider();
    before := p.T("nav.about");
    p.SetLanguage(Ru);
    after := p.T("nav.about");
  }
}
