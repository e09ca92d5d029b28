/** The application context: the one process-wide holder of the language,
    the accessibility settings and the session, with its mount-time loads
    and its three update paths. */
module AppContext {
  import opened Basics
  import opened Records
  import opened I18n
  import opened Accessibility

  /** What the context holds in memory. */
  datatype AppState = AppState(language: Language, accessibility: AccessibilitySettings, user: Option<User>)

  /** The context together with the page state it writes. */
  datatype Client = Client(state: AppState, browser: Browser)

  /** `Partial<AccessibilitySettings>`: the flags an update names. */
  datatype Partial = Partial(
    largeText: Option<bool>,
    highContrast: Option<bool>,
    darkMode: Option<bool>,
    voiceGuidance: Option<bool>)

  /** The update that names no flag. */
  const NoChange := Partial(None, None, None, None)

  /** The error `useApp` raises when no provider encloses the caller. */
  datatype ContextError = OutsideProvider(message: string)

  /** `{ ...prev, ...p }`: every flag `p` names is overwritten, every other
      flag keeps its previous value. */
  function Merge(prev: AccessibilitySettings, p: Partial): (r: AccessibilitySettings)
    ensures r.largeText == (if p.largeText.Some? then p.largeText.value else prev.largeText)
    ensures r.highContrast == (if p.highContrast.Some? then p.highContrast.value else prev.highContrast)
    ensures r.darkMode == (if p.darkMode.Some? then p.darkMode.value else prev.darkMode)
    ensures r.voiceGuidance == (if p.voiceGuidance.Some? then p.voiceGuidance.value else prev.voiceGuidance)
  {
    AccessibilitySettings(
      p.largeText.GetOr(prev.largeText),
      p.highContrast.GetOr(prev.highContrast),
      p.darkMode.GetOr(prev.darkMode),
      p.voiceGuidance.GetOr(prev.voiceGuidance))
  }

  /** Two updates in a row, as one update: the later one wins on each flag. */
  function Then(p: Partial, q: Partial): Partial {
    Partial(
      if q.largeText.Some? then q.largeText else p.largeText,
      if q.highContrast.Some? then q.highContrast else p.highContrast,
      if q.darkMode.Some? then q.darkMode else p.darkMode,
      if q.voiceGuidance.Some? then q.voiceGuidance else p.voiceGuidance)
  }

  /** An update that names no flag changes nothing. */
  lemma MergeNoChange(prev: AccessibilitySettings)
    ensures Merge(prev, NoChange) == prev
  {
  }

  /** Repeating an update changes nothing more. */
  lemma MergeIdempotent(prev: AccessibilitySettings, p: Partial)
    ensures Merge(Merge(prev, p), p) == Merge(prev, p)
  {
  }

  /** Updating with `p` and then `q` is updating once with `p` then `q`
      combined. */
  lemma MergeCompose(prev: AccessibilitySettings, p: Partial, q: Partial)
    ensures Merge(Merge(prev, p), q) == Merge(prev, Then(p, q))
  {
  }

  /** The state the provider starts from, before its effects run: English,
      the stored (or default) settings, no user. Reading the settings throws
      when the stored blob is not a settings record. */
  function InitialState(st: Storage): (r: Result<AppState, ReadError>)
    ensures r.Success? <==> GetAccessibilitySettings(st).Success?
    ensures r.Success? ==> r.value == AppState(En, GetAccessibilitySettings(st).value, None)
  {
    var a :- GetAccessibilitySettings(st);
    Success(AppState(En, a, None))
  }

  /** The mount-time load effect: a truthy stored user becomes the session
      (parsed without a guard, so anything else there throws), then the
      stored language is adopted only when it is exactly "en" or "hi". */
  function LoadStored(s: AppState, st: Storage): (r: Result<AppState, ReadError>)
    ensures r.Failure? <==> Truthy(GetItem(st, UserKey)) && !GetItem(st, UserKey).value.UserBlob?
    ensures r.Success? ==> r.value.accessibility == s.accessibility
    ensures r.Success? ==> r.value.user == (if Truthy(GetItem(st, UserKey)) then Some(GetItem(st, UserKey).value.user) else s.user)
    ensures r.Success? && StoredLanguage(st) ==> GetItem(st, LanguageKey) == Some(Plain(Code(r.value.language)))
    ensures r.Success? && !StoredLanguage(st) ==> r.value.language == s.language
  {
    var stored := GetItem(st, UserKey);
    var user :- if !Truthy(stored) then Success(s.user)
                else match stored.value
                  case UserBlob(u) => Success(Some(u))
                  case _ => Failure(Malformed(UserKey));
    var lang := match GetItem(st, LanguageKey)
                case Some(Plain(code)) => ParseCode(code).GetOr(s.language)
                case _ => s.language;
    Success(s.(user := user, language := lang))
  }

  /** The store holds a language code the mount would adopt. */
  predicate StoredLanguage(st: Storage) {
    exists l :: GetItem(st, LanguageKey) == Some(Plain(Code(l)))
  }

  /** The root and the store reflect the settings the context holds. */
  ghost predicate Synced(c: Client) {
    && MarkersMatch(c.browser.classes, c.state.accessibility)
    && GetItem(c.browser.storage, SettingsKey) == Some(SettingsBlob(c.state.accessibility))
  }

  /** Mounting `AppProvider` on a page: the initial state, the load effect,
      then the effect that applies the settings. */
  function Mount(b: Browser): (r: Result<Client, ReadError>)
    ensures r.Success? <==> (GetAccessibilitySettings(b.storage).Success?
                             && !(Truthy(GetItem(b.storage, UserKey)) && !GetItem(b.storage, UserKey).value.UserBlob?))
    ensures r.Success? ==> Synced(r.value)
    ensures r.Success? ==> forall c :: c !in MarkerClasses ==> (c in r.value.browser.classes <==> c in b.classes)
    ensures r.Success? ==> forall k :: k != SettingsKey ==> GetItem(r.value.browser.storage, k) == GetItem(b.storage, k)
  {
    var s0 :- InitialState(b.storage);
    var s1 :- LoadStored(s0, b.storage);
    Success(Client(s1, ApplyAccessibilitySettings(s1.accessibility, b)))
  }

  /** A page with nothing stored mounts to English, default settings and no
      user. */
  lemma MountFresh(classes: set<string>)
    ensures Mount(Browser(classes, map[])).Success?
    ensures Mount(Browser(classes, map[])).value.state == AppState(En, Defaults, None)
  {
  }

  /** What a successful mount holds: the stored settings (or the defaults),
      the stored user when there is one, and the stored language only when
      it is exactly "en" or "hi", English otherwise. */
  lemma MountState(b: Browser)
    requires Mount(b).Success?
    ensures Mount(b).value.state.accessibility == GetAccessibilitySettings(b.storage).value
    ensures Mount(b).value.state.user.Some? <==> Truthy(GetItem(b.storage, UserKey))
    ensures Truthy(GetItem(b.storage, UserKey)) ==> GetItem(b.storage, UserKey) == Some(UserBlob(Mount(b).value.state.user.value))
    ensures Mount(b).value.state.language == Hi <==> GetItem(b.storage, LanguageKey) == Some(Plain("hi"))
  {
    var s0 := InitialState(b.storage).value;
    assert Mount(b).value.state == LoadStored(s0, b.storage).value;
    assert Code(Hi) == "hi";
    assert Code(En) == "en";
  }

  /** `updateAccessibility(p)`: the merged settings replace the held ones,
      and the apply effect re-runs, so root and store follow; language and
      user are untouched. */
  function UpdateAccessibility(c: Client, p: Partial): (r: Client)
    ensures r.state.accessibility == Merge(c.state.accessibility, p)
    ensures r.state.language == c.state.language && r.state.user == c.state.user
    ensures Synced(r)
    ensures forall x :: x !in MarkerClasses ==> (x in r.browser.classes <==> x in c.browser.classes)
    ensures forall k :: k != SettingsKey ==> GetItem(r.browser.storage, k) == GetItem(c.browser.storage, k)
  {
    var a := Merge(c.state.accessibility, p);
    Client(c.state.(accessibility := a), ApplyAccessibilitySettings(a, c.browser))
  }

  /** Reading the settings back after an update gives the previous settings
      with exactly the named flags overwritten. */
  lemma UpdateThenRead(c: Client, p: Partial)
    ensures GetAccessibilitySettings(UpdateAccessibility(c, p).browser.storage)
         == Success(Merge(c.state.accessibility, p))
  {
  }

  /** The context's `setLanguage`: the held language becomes `l` and its
      code is stored under "language"; nothing else changes. */
  function SetLanguage(c: Client, l: Language): (r: Client)
    ensures r.state == c.state.(language := l)
    ensures r.browser.classes == c.browser.classes
    ensures GetItem(r.browser.storage, LanguageKey) == Some(Plain(Code(l)))
    ensures forall k :: k != LanguageKey ==> GetItem(r.browser.storage, k) == GetItem(c.browser.storage, k)
  {
    Client(c.state.(language := l), Browser(c.browser.classes, SetItem(c.browser.storage, LanguageKey, Plain(Code(l)))))
  }

  /** A later mount of the same store restores the chosen language, and it
      succeeds whenever a mount before the change did. */
  lemma SetLanguageSurvivesRemount(c: Client, l: Language, classes: set<string>)
    requires Mount(Browser(classes, c.browser.storage)).Success?
    ensures Mount(Browser(classes, SetLanguage(c, l).browser.storage)).Success?
    ensures Mount(Browser(classes, SetLanguage(c, l).browser.storage)).value.state.language == l
  {
    var st := SetLanguage(c, l).browser.storage;
    assert GetItem(st, UserKey) == GetItem(c.browser.storage, UserKey);
    assert GetItem(st, SettingsKey) == GetItem(c.browser.storage, SettingsKey);
    assert GetAccessibilitySettings(st) == GetAccessibilitySettings(c.browser.storage);
    var s0 := InitialState(st).value;
    assert StoredLanguage(st);
    assert LoadStored(s0, st).value.language == l;
  }

  /** The context's `setUser` is the raw state setter: it replaces the
      session and writes nothing. */
  function SetUser(c: Client, u: Option<User>): (r: Client)
    ensures r.state.user == u
    ensures r.state.language == c.state.language && r.state.accessibility == c.state.accessibility
    ensures r.browser == c.browser
  {
    c.(state := c.state.(user := u))
  }

  /** `useApp()`: the enclosing context, or the "used outside provider"
      error when there is none. */
  function UseApp(provided: Option<Client>): (r: Result<Client, ContextError>)
    ensures r.Failure? <==> provided.None?
    ensures r.Success? ==> r.value == provided.value
    ensures r.Failure? ==> r.error == OutsideProvider("useApp must be used within AppProvider")
  {
    match provided
    case Some(c) => Success(c)
    case None => Failure(OutsideProvider("useApp must be used within AppProvider"))
  }

  /** The three update paths keep root and store in step with the held
      settings. */
  lemma UpdatesKeepSynced(c: Client, p: Partial, l: Language, u: Option<User>)
    requires Synced(c)
    ensures Synced(UpdateAccessibility(c, p))
    ensures Synced(SetLanguage(c, l))
    ensures Synced(SetUser(c, u))
  {
  }
}
