/** The records the client keeps in memory and in the browser's local
    storage, and the page environment those writes land in. */
module Records {
  import opened Basics

  /** The four independent accessibility flags. Every combination is valid. */
  datatype AccessibilitySettings = AccessibilitySettings(
    largeText: bool,
    highContrast: bool,
    darkMode: bool,
    voiceGuidance: bool)

  /** The signed-in user as the client holds it. `progress` is a percentage. */
  datatype User = User(id: string, name: string, email: string, progress: int)

  /** A value held under one local-storage key. Blobs are the JSON
      serialisations of the two records, stored here as typed values; a plain
      string is stored as `Plain`. */
  datatype Stored = Plain(s: string) | SettingsBlob(settings: AccessibilitySettings) | UserBlob(user: User)

  /** The browser's local storage: key to stored value. */
  type Storage = map<string, Stored>

  /** The document root's class list and the local storage: the only page
      state the core writes. */
  datatype Browser = Browser(classes: set<string>, storage: Storage)

  /** The error a parse of a stored blob raises when the value held under
      `key` is not the record the reader expects. */
  datatype ReadError = Malformed(key: string)

  const SettingsKey := "accessibility-settings"
  const LanguageKey := "language"
  const UserKey := "user"
  const OnboardingKey := "hasSeenOnboarding"

  /** `localStorage.getItem(key)`: the stored value, or null. */
  function GetItem(st: Storage, key: string): Option<Stored> {
    if key in st then Some(st[key]) else None
  }

  /** `localStorage.setItem(key, v)`: `key` reads back `v`; every other key
      reads back what it did before. */
  function SetItem(st: Storage, key: string, v: Stored): (r: Storage)
    ensures GetItem(r, key) == Some(v)
    ensures forall k :: k != key ==> GetItem(r, k) == GetItem(st, k)
  {
    st[key := v]
  }

  /** JavaScript truthiness of a `getItem` result: present and not the empty
      string. A serialised blob is never empty. */
  predicate Truthy(v: Option<Stored>) {
    v.Some? && v.value != Plain("")
  }
}
