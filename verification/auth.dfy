/** The mock login and sign-up handlers: each synthesises a session record
    locally, installs it and stores it under "user". */
module Auth {
  import opened Basics
  import opened Records
  import opened Accessibility
  import opened AppContext

  datatype LoginForm = LoginForm(email: string, password: string)
  datatype SignupForm = SignupForm(name: string, email: string, phone: string, password: string)

  /** A session the handlers can produce: progress is a percentage. */
  predicate ValidSession(u: User) {
    0 <= u.progress <= 100
  }

  /** `setUser(u)` followed by `localStorage.setItem('user', u)`. */
  function Install(c: Client, u: User): (r: Client)
    ensures r.state == c.state.(user := Some(u))
    ensures r.browser.classes == c.browser.classes
    ensures GetItem(r.browser.storage, UserKey) == Some(UserBlob(u))
    ensures forall k :: k != UserKey ==> GetItem(r.browser.storage, k) == GetItem(c.browser.storage, k)
  {
    var c1 := SetUser(c, Some(u));
    c1.(browser := c1.browser.(storage := SetItem(c1.browser.storage, UserKey, UserBlob(u))))
  }

  /** `handleLogin`: the demo user with id "1", the typed e-mail and
      progress 45, installed and stored. The password is never read. */
  function HandleLogin(c: Client, f: LoginForm): (r: Client)
    ensures r.state.user == Some(User("1", "Demo User", f.email, 45))
    ensures GetItem(r.browser.storage, UserKey) == Some(UserBlob(r.state.user.value))
    ensures ValidSession(r.state.user.value)
    ensures r.state.language == c.state.language && r.state.accessibility == c.state.accessibility
    ensures r.browser.classes == c.browser.classes
    ensures forall k :: k != UserKey ==> GetItem(r.browser.storage, k) == GetItem(c.browser.storage, k)
  {
    Install(c, User("1", "Demo User", f.email, 45))
  }

  /** `handleSignup`: a user with id "2", the typed name and e-mail and
      progress 0, installed and stored. Phone and password are never read. */
  function HandleSignup(c: Client, f: SignupForm): (r: Client)
    ensures r.state.user == Some(User("2", f.name, f.email, 0))
    ensures GetItem(r.browser.storage, UserKey) == Some(UserBlob(r.state.user.value))
    ensures ValidSession(r.state.user.value)
    ensures r.state.language == c.state.language && r.state.accessibility == c.state.accessibility
    ensures r.browser.classes == c.browser.classes
    ensures forall k :: k != UserKey ==> GetItem(r.browser.storage, k) == GetItem(c.browser.storage, k)
  {
    Install(c, User("2", f.name, f.email, 0))
  }

  /** The password typed at login has no effect on the outcome. */
  lemma LoginIgnoresPassword(c: Client, email: string, p1: string, p2: string)
    ensures HandleLogin(c, LoginForm(email, p1)) == HandleLogin(c, LoginForm(email, p2))
  {
  }

  /** The phone number and password typed at sign-up have no effect on the
      outcome. */
  lemma SignupIgnoresPhoneAndPassword(c: Client, name: string, email: string,
                                      ph1: string, pw1: string, ph2: string, pw2: string)
    ensures HandleSignup(c, SignupForm(name, email, ph1, pw1)) == HandleSignup(c, SignupForm(name, email, ph2, pw2))
  {
  }

  /** The stored session survives a reload: a later mount of the same store
      restores exactly the installed user, and succeeds whenever a mount of
      the store before the login did. */
  lemma SessionSurvivesRemount(c: Client, u: User, classes: set<string>)
    requires Mount(Browser(classes, c.browser.storage)).Success?
    ensures Mount(Browser(classes, Install(c, u).browser.storage)).Success?
    ensures Mount(Browser(classes, Install(c, u).browser.storage)).value.state.user == Some(u)
  {
    var st := Install(c, u).browser.storage;
    assert GetItem(st, SettingsKey) == GetItem(c.browser.storage, SettingsKey);
    assert GetItem(st, LanguageKey) == GetItem(c.browser.storage, LanguageKey);
    assert GetAccessibilitySettings(st) == GetAccessibilitySettings(c.browser.storage);
  }
}
