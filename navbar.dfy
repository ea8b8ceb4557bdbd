/**
 * The navigation bar (src/components/Navbar.tsx): the scroll threshold, the
 * mobile-menu flag, the language-dependent Contact link and the background.
 */
module Navbar {
  import opened LanguageContext
  import ThemeContext

  /** `window.scrollY` is a floating-point offset; it is compared strictly with 50. */
  const ScrollThreshold: real := 50.0

  /** The scroll listener's test: is the page past the threshold? */
  function IsScrolled(scrollY: real): bool
  {
    scrollY > ScrollThreshold
  }

  /** Three sample offsets: exactly 50 is not scrolled, the fractional 50.5 is, and 0 is not. */
  lemma ScrollBoundary()
    ensures !IsScrolled(50.0)
    ensures IsScrolled(50.5)
    ensures !IsScrolled(0.0)
  {
  }

  /** A menu entry: its anchor and the key of its label. */
  datatype Link = Link(href: string, labelKey: string)

  const ContactLink := Link("#contact", "nav.contact")

  /** The entries before and after the optional Contact link. */
  const LeadingLinks := [Link("#about", "nav.about"), Link("#services", "nav.services"),
                         Link("#human-design", "nav.humanDesign")]
  const BookLink := Link("#booking", "nav.book")

  /**
   * The menu entries, in order.  The desktop bar and the mobile menu render
   * the same list; the Contact link only in English.
   */
  function MenuLinks(lang: Lang): seq<Link>
  {
    LeadingLinks + (if lang == En then [ContactLink] else []) + [BookLink]
  }

  /** The Contact link is present in either menu exactly when the language is English. */
  lemma ContactLinkOnlyInEnglish(lang: Lang)
    ensures ContactLink in MenuLinks(lang) <==> lang == En
    ensures MenuLinks(lang)[..3] == LeadingLinks && MenuLinks(lang)[|MenuLinks(lang)| - 1] == BookLink
  {
    if lang == Ru {
      assert MenuLinks(lang) == LeadingLinks + [BookLink];
      assert forall l :: l in LeadingLinks + [BookLink] ==> l.href != "#contact";
    } else {
      assert MenuLinks(lang)[3] == ContactLink;
    }
  }

  /** Every menu label has text in both languages. */
  lemma LinkLabelsTranslated(lang: Lang, shown: Lang, link: Link)
    requires link in MenuLinks(shown)
    ensures HasText(lang, link.labelKey)
  {
    assert link in LeadingLinks || link == ContactLink || link == BookLink;
    match lang
    case En => NavKeysTranslatedEn();
    case Ru => NavKeysTranslatedRu();
  }

  lemma NavKeysTranslatedEn()
    ensures HasText(En, "nav.about") && HasText(En, "nav.services") && HasText(En, "nav.humanDesign")
    ensures HasText(En, "nav.contact") && HasText(En, "nav.book")
  {
  }

  lemma NavKeysTranslatedRu()
    ensures HasText(Ru, "nav.about") && HasText(Ru, "nav.services") && HasText(Ru, "nav.humanDesign")
    ensures HasText(Ru, "nav.contact") && HasText(Ru, "nav.book")
  {
  }

  datatype Background = Transparent | LightFrosted | DarkFrosted

  /** The bar is transparent until scrolled; then its backdrop follows the theme. */
  function NavBackground(scrolled: bool, theme: string): (r: Background)
    ensures r == Transparent <==> !scrolled
    ensures r == LightFrosted <==> scrolled && theme == ThemeContext.LightTheme
  {
    if scrolled then
      if theme == ThemeContext.LightTheme then LightFrosted else DarkFrosted
    else Transparent
  }

  /** The bar's two state cells. */
  class Nav {
    var isOpen: bool
    var scrolled: bool

    constructor ()
      ensures !isOpen && !scrolled
    {
      isOpen, scrolled := false, false;
    }

    /** The scroll listener. */
    method OnScroll(scrollY: real)
      modifies this
      ensures scrolled == IsScrolled(scrollY)
      ensures isOpen == old(isOpen)
    {
      if IsScrolled(scrollY) {
        scrolled := true;
      } else {
        scrolled := false;
      }
    }

    /** The menu button. */
    method ToggleMenu()
      modifies this
      ensures isOpen == !old(isOpen)
      ensures scrolled == old(scrolled)
    {
      isOpen := !isOpen;
    }

    /** A click on any mobile-menu entry: every entry carries the same handler. */
    method CloseMenu()
      modifies this
      ensures !isOpen
      ensures scrolled == old(scrolled)
    {
      isOpen := false;
    }

    /** The background the bar is drawn with. */
    function Background(theme: string): (r: Background)
      reads this
      ensures r == Transparent <==> !scrolled
    {
      NavBackground(scrolled, theme)
    }
  }

  /** Opening the menu and following a link leaves it closed again. */
  method MenuScenario() returns (openAfterClick: bool, openAfterLink: bool)
    ensures openAfterClick && !openAfterLink
  {
    var nav := new Nav();
    nav.ToggleMenu();
    openAfterClick := nav.isOpen;
    nav.CloseMenu();
    openAfterLink := nav.isOpen;
  }
}
