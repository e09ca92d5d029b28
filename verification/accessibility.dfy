/** Applying accessibility settings to the document root and reading them
    back from local storage. */
module Accessibility {
  import opened Basics
  import opened Records

  /** The root classes the settings control. */
  const LargeTextClass := "large-text"
  const HighContrastClass := "high-contrast"
  const DarkClass := "dark"
  const MarkerClasses: set<string> := {LargeTextClass, HighContrastClass, DarkClass}

  /** The settings used when nothing is stored: every flag off. */
  const Defaults := AccessibilitySettings(false, false, false, false)

  /** `classList.add(c)` when `on`, `classList.remove(c)` otherwise. */
  function SetClass(classes: set<string>, c: string, on: bool): (r: set<string>)
    ensures c in r <==> on
    ensures forall x :: x != c ==> (x in r <==> x in classes)
  {
    if on then classes + {c} else classes - {c}
  }

  /** `applyAccessibilitySettings(s)`: each marker class is on exactly when
      its flag is set, every other class is left alone, and the whole record
      is written under the settings key, leaving the other keys alone. */
  function ApplyAccessibilitySettings(s: AccessibilitySettings, b: Browser): (r: Browser)
    ensures LargeTextClass in r.classes <==> s.largeText
    ensures HighContrastClass in r.classes <==> s.highContrast
    ensures DarkClass in r.classes <==> s.darkMode
    ensures forall c :: c !in MarkerClasses ==> (c in r.classes <==> c in b.classes)
    ensures GetItem(r.storage, SettingsKey) == Some(SettingsBlob(s))
    ensures forall k :: k != SettingsKey ==> GetItem(r.storage, k) == GetItem(b.storage, k)
  {
    var c1 := SetClass(b.classes, LargeTextClass, s.largeText);
    var c2 := SetClass(c1, HighContrastClass, s.highContrast);
    var c3 := SetClass(c2, DarkClass, s.darkMode);
    Browser(c3, SetItem(b.storage, SettingsKey, SettingsBlob(s)))
  }

  /** The root markers agree with `s`. */
  predicate MarkersMatch(classes: set<string>, s: AccessibilitySettings) {
    && (LargeTextClass in classes <==> s.largeText)
    && (HighContrastClass in classes <==> s.highContrast)
    && (DarkClass in classes <==> s.darkMode)
  }

  /** `getAccessibilitySettings()`: the stored record; the defaults when
      nothing (or the empty string) is stored. Any other stored value is
      parsed without a guard, which raises (or yields something that is not
      a settings record): that is the failure. */
  function GetAccessibilitySettings(st: Storage): (r: Result<AccessibilitySettings, ReadError>)
    ensures !Truthy(GetItem(st, SettingsKey)) ==> r == Success(Defaults)
    ensures forall a :: GetItem(st, SettingsKey) == Some(SettingsBlob(a)) ==> r == Success(a)
    ensures r.Failure? <==> Truthy(GetItem(st, SettingsKey)) && !GetItem(st, SettingsKey).value.SettingsBlob?
    ensures r.Failure? ==> r.error == Malformed(SettingsKey)
  {
    var stored := GetItem(st, SettingsKey);
    if !Truthy(stored) then Success(Defaults)
    else match stored.value
      case SettingsBlob(a) => Success(a)
      case _ => Failure(Malformed(SettingsKey))
  }

  /** Reading the settings back after applying them yields them unchanged. */
  lemma ApplyThenGet(s: AccessibilitySettings, b: Browser)
    ensures GetAccessibilitySettings(ApplyAccessibilitySettings(s, b).storage) == Success(s)
  {
  }

  /** After applying, the markers agree with the settings, whatever the
      root held before. */
  lemma ApplySetsMarkers(s: AccessibilitySettings, b: Browser)
    ensures MarkersMatch(ApplyAccessibilitySettings(s, b).classes, s)
  {
  }

  /** Voice guidance has no root marker: flipping it changes nothing on the
      root, only the stored record. */
  lemma VoiceGuidanceHasNoMarker(s: AccessibilitySettings, b: Browser)
    ensures ApplyAccessibilitySettings(s.(voiceGuidance := !s.voiceGuidance), b).classes
         == ApplyAccessibilitySettings(s, b).classes
  {
    var r1 := ApplyAccessibilitySettings(s.(voiceGuidance := !s.voiceGuidance), b).classes;
    var r2 := ApplyAccessibilitySettings(s, b).classes;
    assert forall c :: c in r1 <==> c in r2;
  }

  /** Applying the same settings twice is the same as applying them once. */
  lemma ApplyIdempotent(s: AccessibilitySettings, b: Browser)
    ensures ApplyAccessibilitySettings(s, ApplyAccessibilitySettings(s, b))
         == ApplyAccessibilitySettings(s, b)
  {
    var once := ApplyAccessibilitySettings(s, b);
    var twice := ApplyAccessibilitySettings(s, once);
    assert forall c :: c in twice.classes <==> c in once.classes;
    assert twice.storage == once.storage;
  }

  /** When the root and the store already reflect `s`, applying `s` is a
      no-op. */
  lemma ApplyWhenInSync(s: AccessibilitySettings, b: Browser)
    requires MarkersMatch(b.classes, s)
    requires GetItem(b.storage, SettingsKey) == Some(SettingsBlob(s))
    ensures ApplyAccessibilitySettings(s, b) == b
  {
    var r := ApplyAccessibilitySettings(s, b);
    assert forall c :: c in r.classes <==> c in b.classes;
    assert r.storage == b.storage;
  }
}
