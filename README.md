# Eden 2027 site: presentation state, modelled in Dafny

This project models the rules behind the site's single page: how text is
looked up in the English and Russian translation tables, how the light/dark
theme is chosen at start-up, toggled and mirrored into storage and onto the
document root, how sections are revealed as they scroll into view and how
their children are staggered, how the contact form moves through editing,
submitting and "message sent", which `mailto:` URI it opens, and the colour
and visibility choices of the booking cards and the navigation bar.

One module per source file:

| module | file | source |
|---|---|---|
| `Wrappers` | `wrappers.dfy` | `Option` |
| `LanguageContext` | `language_context.dfy` | src/context/LanguageContext.tsx |
| `ThemeContext` | `theme_context.dfy` | src/context/ThemeContext.tsx |
| `ScrollReveal` | `scroll_reveal.dfy` | src/components/ScrollReveal.tsx |
| `ScrollAnimation` | `scroll_animation.dfy` | src/App.tsx (hook and timing constants) |
| `ContactForm` | `contact_form.dfy` | src/components/ContactForm.tsx |
| `LanguageToggle` | `language_toggle.dfy` | src/components/LanguageToggle.tsx |
| `BookingSystem` | `booking_system.dfy` | src/components/BookingSystem.tsx |
| `Navbar` | `navbar.dfy` | src/components/Navbar.tsx |

Modelling choices:

- Pure decisions are functions. These cover the lookup `t`, `getInitialTheme`, the toggle updaters, the colour rules, link visibility and the mail body.
- React state cells are fields of classes: `LanguageProvider`, `ThemeProvider`, `RevealController`, `Page`, `Form` and `Nav`. Their handlers and effects are methods that state the whole new state.
- The browser is an input. Local storage is an `Option<string>` for the `theme` key. The OS preference is a `bool`. The document root is a record of attributes and classes. `window.scrollY` is a `real`. In-view notifications are method calls.
- `encodeURIComponent` is a function parameter. `window.location.href` assignments are recorded in a sequence.
- Timers are event methods: `Complete` for the 1000 ms timer and `ResetSubmitted` for the 5000 ms timer. An armed timer is a field.
- The 1000 ms closure captures the form data of the render in which the user submitted. `Complete` therefore mails the fields as they were at submission. Edits made while the form is sending are neither mailed nor kept.
- `Form.Change` and `Form.Submit` require what the rendered component and the browser guarantee. The inputs exist only while the success panel is hidden, and the submit button is disabled while `isSubmitting`. The name and email inputs (`type="text"`, `type="email"`) strip line breaks from their values. The browser fires `submit` only when all three `required` inputs are filled and the email looks like an address (`Sendable`).
- Times are integer milliseconds; thresholds are `real`.
- The theme is a plain `string`, because the stored value is returned without validation.

Behaviour of the code worth knowing, which the model keeps:

- `getInitialTheme` does test `(prefers-color-scheme: dark)` (src/context/ThemeContext.tsx:25-28), but the branch it guards returns `dark` (line 27) and so does the fall-through (line 31). With nothing stored the start-up theme is `dark` whatever the OS prefers. This is `InitialThemeScenarios`.
- A stored theme is used without any check that it is `light` or `dark`. An unknown value toggles to `dark`, and toggling twice does not restore it. This is `NextThemeInvalid`.
- An empty stored string is falsy and falls through to the default.
- The reveal wrapper of src/components/ScrollReveal.tsx is not imported or rendered anywhere on the page; the sections use the `useScrollAnimation` hook of src/App.tsx instead. With `once` off the wrapper does return to `hidden` (`NotOnceTracksLatest`); the hook behaves like the wrapper with `once` on (`HookIsOnceReveal`).

## Model

| member | source | states |
|---|---|---|
| LanguageContext.LookupFollowsLanguage | src/context/LanguageContext.tsx:251 | a key with text in both tables reads the English text in `en` and the Russian text in `ru` |
| LanguageContext.Translate | src/context/LanguageContext.tsx:250-253 | the result is the key or the key's stored text, and is empty only for the empty key |
| LanguageContext.TranslatePresent | src/context/LanguageContext.tsx:252 | a key with non-empty text yields that text |
| LanguageContext.TranslateAbsent | src/context/LanguageContext.tsx:252 | a key missing from the table yields itself |
| LanguageContext.TranslateEmptyFallsBack | src/context/LanguageContext.tsx:252 | a key stored with empty text yields itself |
| LanguageContext.TranslateIsStoredTextIff | src/context/LanguageContext.tsx:252 | for a stored key, the result is the stored text exactly when that text is non-empty (or the key is empty) |
| LanguageContext.RussianNoteLookups | src/context/LanguageContext.tsx:107-252 | the English Russian-note text is empty, so English gives the key; Russian gives the non-empty note |
| LanguageContext.TablesShareKeys | src/context/LanguageContext.tsx:14-241 | both tables declare the same key set |
| LanguageContext.LanguageProvider.constructor | src/context/LanguageContext.tsx:248 | the language starts at `en` |
| LanguageContext.LanguageProvider.SetLanguage | src/context/LanguageContext.tsx:248 | the cell holds exactly the new language |
| LanguageContext.LanguageProvider.T | src/context/LanguageContext.tsx:250-253 | lookup in the current language's table, with fallback to a never-empty key |
| LanguageContext.SetLanguageTwice | src/context/LanguageContext.tsx:248-253 | setting a language twice leaves the same language and the same lookups as setting it once |
| LanguageContext.LanguageScenario | src/context/LanguageContext.tsx:248-253 | `nav.about` reads "About" at start and "Обо мне" after switching to Russian |
| ThemeContext.InitialTheme | src/context/ThemeContext.tsx:18-32 | a non-empty stored string is returned as is; the result is never empty |
| ThemeContext.InitialThemeWithoutStorage | src/context/ThemeContext.tsx:25-31 | with nothing usable stored the start-up theme is `dark` for either OS preference |
| ThemeContext.InitialThemeIgnoresPreference | src/context/ThemeContext.tsx:25-31 | the OS preference never changes the start-up theme |
| ThemeContext.InitialThemeScenarios | src/context/ThemeContext.tsx:18-32 | stored `light` wins over the OS; nothing stored gives `dark` even when the OS prefers light; an unknown stored string is kept |
| ThemeContext.NextTheme | src/context/ThemeContext.tsx:37 | the result is `light` exactly when the input is `dark`, always one of the two themes, and never the input |
| ThemeContext.NextThemeTwice | src/context/ThemeContext.tsx:37 | on `dark` and `light` toggling twice restores the theme |
| ThemeContext.NextThemeInvalid | src/context/ThemeContext.tsx:37 | an unknown theme toggles to `dark`, and toggling it twice gives `light`, not the original |
| ThemeContext.ThemeProvider.constructor | src/context/ThemeContext.tsx:34-55 | mount resolves the initial theme and runs the effect: storage, `data-theme` and the `dark` class mirror it |
| ThemeContext.ThemeProvider.MirrorTheme | src/context/ThemeContext.tsx:41-55 | the effect stores the theme under `theme`, sets `data-theme`, adds `dark` iff the theme is dark, and leaves other attributes and classes alone |
| ThemeContext.ThemeProvider.ToggleTheme | src/context/ThemeContext.tsx:36-55 | the theme becomes its toggle and the mirroring holds again afterwards |
| ThemeContext.ToggleTwice | src/context/ThemeContext.tsx:36-55 | from a valid theme two toggles restore the theme and the stored value |
| ThemeContext.ThemeScenario | src/context/ThemeContext.tsx:18-55 | no storage gives dark with the `dark` class on the root; one toggle gives light and removes the class; a reload reads light back from storage |
| ScrollReveal.Next | src/components/ScrollReveal.tsx:28-34 | in view gives visible; with `once` visible stays visible; without `once` the state is visible iff in view |
| ScrollReveal.NextIdempotent | src/components/ScrollReveal.tsx:28-34 | delivering a notification twice equals delivering it once |
| ScrollReveal.OnceVisibleIsTerminal | src/components/ScrollReveal.tsx:24-33 | with `once`, no sequence of notifications returns a visible element to hidden |
| ScrollReveal.OnceRunVisibleIff | src/components/ScrollReveal.tsx:28-34 | with `once`, the element is visible after a run iff it was already visible or some notification was in view |
| ScrollReveal.NotOnceTracksLatest | src/components/ScrollReveal.tsx:31-32 | without `once`, the state follows the latest notification |
| ScrollReveal.RunSnoc | src/components/ScrollReveal.tsx:28-34 | each notification advances the run by one step of the effect |
| ScrollReveal.RevealController.constructor | src/components/ScrollReveal.tsx:14-39 | the element is mounted hidden with the given props |
| ScrollReveal.RevealController.WithDefaults | src/components/ScrollReveal.tsx:16-19 | defaults: `once` on, threshold 0.01, delay 0 ms, duration 150 ms; mounted hidden |
| ScrollReveal.RevealController.Notify | src/components/ScrollReveal.tsx:28-34 | one notification applies one step and keeps the state equal to the run over the history |
| ScrollAnimation.SectionsListed | src/App.tsx:92-97 | the six sections calling the hook are all listed |
| ScrollAnimation.HookStep | src/App.tsx:82-86 | in view gives visible, visible stays visible, and nothing else makes a section visible |
| ScrollAnimation.HookIsOnceReveal | src/App.tsx:80-86 | the hook acts as the reveal wrapper does with `once` set |
| ScrollAnimation.Page.constructor | src/App.tsx:92-97 | every section starts hidden |
| ScrollAnimation.Page.Notify | src/App.tsx:82-86 | a notification steps its own section and leaves the other five unchanged |
| ScrollAnimation.ChildWindow | src/App.tsx:57-71 | a child starts no earlier than the section's 200 ms transition and runs for 150 ms |
| ScrollAnimation.ScheduleAt | src/App.tsx:57-60 | the schedule's `i`-th window is the `i`-th child's, 30 ms per position after the section |
| ScrollAnimation.ScheduleOrdered | src/App.tsx:57-71 | children start after the section, starts differ by 30 ms per position, and finishes strictly increase with declaration order |
| ScrollAnimation.ScheduleEnd | src/App.tsx:57-71 | the last of `n` children finishes 350 + 30(n-1) ms after the trigger |
| ContactForm.WithField | src/components/ContactForm.tsx:18-21 | the named field takes the value and the other two keep theirs |
| ContactForm.MailBodyShape | src/components/ContactForm.tsx:34-36 | the body opens with `Name: ` and the name, ends with the message verbatim, and adds 25 fixed characters |
| ContactForm.MailtoUrl | src/components/ContactForm.tsx:39 | the URI starts with `mailto:projecteden2027@gmail.com?subject=` and ends with `&body=` and the encoded body |
| ContactForm.MailBodyRoundTrip | src/components/ContactForm.tsx:34-36 | with single-line name and email, the body parses back to exactly the submitted fields |
| ContactForm.MailBodyInjective | src/components/ContactForm.tsx:34-36 | with single-line name and email, different forms give different bodies |
| ContactForm.MailBodyAmbiguousWithLineBreaks | src/components/ContactForm.tsx:34-36 | the body template alone is ambiguous: a name with a line break could make two forms send the same body; the page cannot produce such a name, since its text input strips line breaks |
| ContactForm.MailtoCarriesBody | src/components/ContactForm.tsx:33-39 | the URI addresses projecteden2027@gmail.com, its `subject` field holds the encoded subject and its `body` field the encoded body, given an encoder that escapes `&` |
| ContactForm.MailtoRoundTrip | src/components/ContactForm.tsx:33-39 | decoding the URI's `subject` field gives "Contact Form Submission from Eden 2027" and decoding its `body` field recovers the submitted form |
| ContactForm.PendingMailRoundTrips | src/components/ContactForm.tsx:28-39 | the mail an armed timer sends decodes back to the form captured at submission, given an `&`-escaping encoder and its decoder |
| ContactForm.Form.Render | src/components/ContactForm.tsx:71-156 | the success panel shows iff `isSubmitted`; otherwise the button is disabled iff `isSubmitting` and reads "sending" while submitting |
| ContactForm.Form.constructor | src/components/ContactForm.tsx:10-16 | all fields empty, both flags false, no timer armed, nothing navigated |
| ContactForm.Form.Change | src/components/ContactForm.tsx:18-21 | only the named field changes; name and email stay single-line |
| ContactForm.Form.Submit | src/components/ContactForm.tsx:23-28 | only a form passing the inputs' `required`/`type` validation is submitted; `isSubmitting` is set and the 1000 ms timer is armed with the current fields |
| ContactForm.Form.Complete | src/components/ContactForm.tsx:28-55 | navigates to the URI built from the captured, validated fields, reports success unconditionally, clears all fields and arms the reset |
| ContactForm.Form.ResetSubmitted | src/components/ContactForm.tsx:52-54 | `isSubmitted` is cleared and nothing else changes |
| ContactForm.SubmissionScenario | src/components/ContactForm.tsx:23-55 | exactly one mail is sent, carrying the fields at submission, and its decoded body parses back to them; the panel is shown; afterwards the empty form is back with an enabled button |
| LanguageToggle.NextLanguage | src/components/LanguageToggle.tsx:11 | the next language always differs from the current one |
| LanguageToggle.NextLanguageTwice | src/components/LanguageToggle.tsx:11 | toggling twice restores the language |
| LanguageToggle.Label | src/components/LanguageToggle.tsx:26 | the label is the upper-cased tag of the language a click switches to |
| LanguageToggle.ToggleLanguage | src/components/LanguageToggle.tsx:10-12 | the shared language becomes the other language |
| LanguageToggle.ToggleScenario | src/components/LanguageToggle.tsx:10-26 | one click from a fresh page selects Russian and shows the label "EN" |
| BookingSystem.DisplayColor | src/components/BookingSystem.tsx:45 | the colour changes iff the theme is light and the colour is cyan, and then it is `#0515fa` |
| BookingSystem.ButtonColor | src/components/BookingSystem.tsx:89-90 | the button is `#0515fa` iff the card colour is cyan, and `#ff00aa` otherwise, for any theme |
| BookingSystem.CardBordersOnPage | src/components/BookingSystem.tsx:56 | in the light theme the intro border is `#0515fa40`, not its own cyan plus `40`, and the deep-dive border is `#ff00aa40`; in the dark theme both borders are the raw colours |
| BookingSystem.ButtonMatchesLightDisplay | src/components/BookingSystem.tsx:89-90 | for the page's two colours the button colour equals the light-theme display colour |
| BookingSystem.DarkThemeKeepsColor | src/components/BookingSystem.tsx:45-56 | in the dark theme both display colour and border are the raw colour |
| BookingSystem.RussianNoteShown | src/components/BookingSystem.tsx:127 | the note's guard holds exactly in Russian |
| BookingSystem.RussianNoteText | src/components/BookingSystem.tsx:127 | whenever the note shows, it shows its Russian text |
| BookingSystem.EnglishNoteHiddenByLanguageOnly | src/components/BookingSystem.tsx:127 | in English `t` returns the truthy key, so only the language test hides the note |
| BookingSystem.SaleBadge | src/components/BookingSystem.tsx:58-61 | a badge exists iff the card is on sale, reading "Временная скидка" in Russian and "Limited Offer" in English |
| BookingSystem.CardsOnPage | src/components/BookingSystem.tsx:145-166 | only the deep-dive card has the badge; the two cards book different URLs; their buttons match their light display colours |
| BookingSystem.CardKeysTranslated | src/components/BookingSystem.tsx:145-164 | every card's title, duration, price, description and button have non-empty text in both languages |
| Navbar.ScrollBoundary | src/components/Navbar.tsx:19 | at three sample offsets: exactly 50 is not scrolled, 50.5 is, 0 is not |
| Navbar.ContactLinkOnlyInEnglish | src/components/Navbar.tsx:52-106 | the one entry list rendered by both the desktop bar and the mobile menu holds the Contact link exactly in English, starts with About, Services and Human Design, and ends with Book |
| Navbar.LinkLabelsTranslated | src/components/Navbar.tsx:52-64 | every menu label has non-empty text in both languages |
| Navbar.NavBackground | src/components/Navbar.tsx:34-40 | transparent iff not scrolled; the light backdrop iff scrolled in the light theme |
| Navbar.Nav.constructor | src/components/Navbar.tsx:11-12 | the menu starts closed and the bar unscrolled |
| Navbar.Nav.OnScroll | src/components/Navbar.tsx:17-24 | `scrolled` becomes the listener's test `IsScrolled` of the offset; the menu is untouched |
| Navbar.Nav.ToggleMenu | src/components/Navbar.tsx:75 | the menu flag is negated |
| Navbar.Nav.CloseMenu | src/components/Navbar.tsx:93-106 | any mobile link closes the menu |
| Navbar.Nav.Background | src/components/Navbar.tsx:34-40 | the bar is transparent iff not scrolled |
| Navbar.MenuScenario | src/components/Navbar.tsx:75-106 | opening the menu and following a link leaves it closed |

## Left out

- Translation tables: only 27 of the 94 keys are modelled. These are exactly the keys that the booking cards, the contact form and the navigation bar read (`booking.russianNote`, whose English text is empty, included). The hero, about, services, footer and other page texts are left out, because lookups over the full literal tables are too costly for the verifier.
- LanguageContext.Translate: JavaScript property lookup also finds names inherited from `Object.prototype` (for example `toString`). The model treats every key outside the table as absent.
- The `useLanguage`/`useTheme` guards that throw outside a provider, and the provider wiring in src/main.tsx. These are React context plumbing.
- ThemeContext.InitialTheme: the branch with no `window` or no `localStorage` is not modelled. It also returns `dark`.
- The effect's `typeof window` guard is not modelled either.
- ThemeContext.ThemeProvider.ToggleTheme: React runs the effect after the re-render, not atomically as here.
- src/components/AnimatedBackground.tsx: a floating-point canvas simulation driven by randomness and animation frames.
- The Calendly style and script injection and `openCalendly` in BookingSystem.tsx: DOM mutation and a third-party widget. The URL each card passes it is modelled.
- ContactForm: `console.log`, the real navigation and the real encoder are left out. Navigation is a recorded URI, and `encodeURIComponent` is a parameter with only the property of escaping `&`.
- ContactForm.MailtoRoundTrip: the round trip also assumes a decoder that is a left inverse of the encoder, as `decodeURIComponent` is of `encodeURIComponent`; the decoder is a parameter too.
- ContactForm.EmailShaped: weaker than the browser's valid-e-mail-address rule for `type="email"`; it asks only for one `@` with text on both sides.
- ContactForm: the real `setTimeout` delays are left out. The delays appear only as the constants 1000 and 5000.
- ContactForm.Form.Submit: `preventDefault` is not modelled.
- ScrollReveal and ScrollAnimation: intersection geometry is left out. The `threshold`/`amount` fraction is a constant, and only the notifications are modelled. Framer-motion easing and the opacity/offset values of the variants are left out too.
- ScrollAnimation.Schedule: child windows are modelled only as framer-motion's stagger rule (start 200 + 30·i ms, run 150 ms), not as the library's scheduler.
- src/components/SEOHelmet.tsx: document title and meta tags, written through the DOM.
- ServiceCard, QuoteCard, HumanDesignTypeCard, Logo and ThemeToggle: render-only styling and icon choices.
- The JSX layout of src/App.tsx and its `quotes`/`socialLinks` data.
