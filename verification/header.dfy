/** The header's actions: the four accessibility toggles, the language menu
    and the navigation lists. */
module Header {
  import opened Basics
  import opened Records
  import opened I18n
  import opened AppContext
  import Accessibility

  /** The header controls that flip one accessibility flag each. */
  datatype Toggle = VoiceGuidanceButton | LargeTextItem | HighContrastItem | DarkModeItem

  /** The update a toggle sends: the negation of its own flag, and no other
      flag named. Merged into `a`, it flips exactly that flag. */
  function ToggleUpdate(t: Toggle, a: AccessibilitySettings): (p: Partial)
    ensures t == VoiceGuidanceButton ==> Merge(a, p) == a.(voiceGuidance := !a.voiceGuidance)
    ensures t == LargeTextItem ==> Merge(a, p) == a.(largeText := !a.largeText)
    ensures t == HighContrastItem ==> Merge(a, p) == a.(highContrast := !a.highContrast)
    ensures t == DarkModeItem ==> Merge(a, p) == a.(darkMode := !a.darkMode)
  {
    match t
    case VoiceGuidanceButton => NoChange.(voiceGuidance := Some(!a.voiceGuidance))
    case LargeTextItem => NoChange.(largeText := Some(!a.largeText))
    case HighContrastItem => NoChange.(highContrast := Some(!a.highContrast))
    case DarkModeItem => NoChange.(darkMode := Some(!a.darkMode))
  }

  /** Clicking a toggle: `updateAccessibility` with its update. */
  function Press(c: Client, t: Toggle): (r: Client)
    ensures Synced(r)
    ensures r.state.language == c.state.language && r.state.user == c.state.user
    ensures r.state.accessibility != c.state.accessibility
    ensures forall x :: x !in Accessibility.MarkerClasses ==> (x in r.browser.classes <==> x in c.browser.classes)
    ensures forall k :: k != SettingsKey ==> GetItem(r.browser.storage, k) == GetItem(c.browser.storage, k)
    ensures t == VoiceGuidanceButton ==>
              r.state.accessibility == c.state.accessibility.(voiceGuidance := !c.state.accessibility.voiceGuidance)
    ensures t == LargeTextItem ==>
              r.state.accessibility == c.state.accessibility.(largeText := !c.state.accessibility.largeText)
    ensures t == HighContrastItem ==>
              r.state.accessibility == c.state.accessibility.(highContrast := !c.state.accessibility.highContrast)
    ensures t == DarkModeItem ==>
              r.state.accessibility == c.state.accessibility.(darkMode := !c.state.accessibility.darkMode)
  {
    UpdateAccessibility(c, ToggleUpdate(t, c.state.accessibility))
  }

  /** Pressing the same toggle twice gives back the page it started from,
      once root and store reflect the held settings (as they do after mount
      and after every update). */
  lemma PressTwiceRestores(c: Client, t: Toggle)
    requires Synced(c)
    ensures Press(Press(c, t), t) == c
  {
    var c2 := Press(Press(c, t), t);
    assert c2.state == c.state;
    Accessibility.ApplyIdempotent(c.state.accessibility, c.browser);
    assert forall x :: x in c2.browser.classes <==> x in c.browser.classes;
    assert c2.browser.storage == c.browser.storage;
  }

  /** The two language-menu entries. */
  datatype LanguageItem = EnglishItem | HindiItem

  /** Choosing a menu entry: `setLanguage` with exactly "en" or "hi". */
  function ChooseLanguage(c: Client, item: LanguageItem): (r: Client)
    ensures r.state.language == (if item == EnglishItem then En else Hi)
    ensures GetItem(r.browser.storage, LanguageKey) == Some(Plain(if item == EnglishItem then "en" else "hi"))
    ensures r.state.accessibility == c.state.accessibility && r.state.user == c.state.user
    ensures r.browser.classes == c.browser.classes
    ensures forall k :: k != LanguageKey ==> GetItem(r.browser.storage, k) == GetItem(c.browser.storage, k)
  {
    SetLanguage(c, if item == EnglishItem then En else Hi)
  }

  /** A navigation link: its translated label and its route. */
  datatype NavItem = NavItem(caption: string, path: string)

  /** The translation keys and routes of the seven entries, in order. */
  const NavKeys := ["nav.home", "nav.courses", "nav.mentorship", "nav.community",
                    "nav.showcase", "nav.certificates", "nav.support"]
  const NavPaths := ["/", "/courses", "/mentorship", "/community",
                     "/showcase", "/certificates", "/support"]

  /** The seven navigation entries, in order, each labelled with its
      translated key. */
  function NavItems(lang: Language): (r: seq<NavItem>)
    ensures |r| == 7
    ensures forall i :: 0 <= i < 7 ==> r[i] == NavItem(T(NavKeys[i], lang), NavPaths[i])
  {
    seq(7, i requires 0 <= i < 7 => NavItem(T(NavKeys[i], lang), NavPaths[i]))
  }

  /** The desktop bar: the first four entries of the full list, in order,
      which are home, courses, mentorship and community. */
  function DesktopNav(lang: Language): (r: seq<NavItem>)
    ensures |r| == 4
    ensures forall i :: 0 <= i < 4 ==> r[i] == NavItems(lang)[i]
    ensures forall i :: 0 <= i < 4 ==> r[i].path == ["/", "/courses", "/mentorship", "/community"][i]
  {
    NavItems(lang)[..4]
  }

  /** Every label is the current language's string: no entry falls back to
      English or to its key. */
  lemma NavLabelsTranslated(lang: Language)
    ensures forall i :: 0 <= i < 7 ==> NavItems(lang)[i].caption == Table(lang)[NavKeys[i]]
  {
    forall i | 0 <= i < 7
      ensures NavItems(lang)[i].caption == Table(lang)[NavKeys[i]]
    {
      KnownKeyNeverFallsBack(NavKeys[i], lang);
    }
  }
}
