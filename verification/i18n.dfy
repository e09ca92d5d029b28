/** The two supported languages, their translation tables and the lookup
    `t(key)` with its three-tier fallback. */
module I18n {
  import opened Basics

  datatype Language = En | Hi

  /** The code a language is stored and compared under. */
  function Code(l: Language): string {
    match l
    case En => "en"
    case Hi => "hi"
  }

  /** The language whose code is exactly `s`, if any. */
  function ParseCode(s: string): (r: Option<Language>)
    ensures forall l :: r == Some(l) <==> s == Code(l)
  {
    if s == "en" then Some(En)
    else if s == "hi" then Some(Hi)
    else None
  }

  /** The English table. */
  const EnTable: map<string, string> := map[
    "nav.home" := "Home",
    "nav.courses" := "Courses",
    "nav.mentorship" := "Mentorship",
    "nav.community" := "Community",
    "nav.showcase" := "Showcase",
    "nav.certificates" := "Certificates",
    "nav.support" := "Support",
    "home.welcome" := "Welcome",
    "home.progress" := "Your Progress",
    "home.continue_learning" := "Continue Learning",
    "home.explore_courses" := "Explore Courses",
    "home.find_mentor" := "Find a Mentor",
    "home.join_community" := "Join Community",
    "courses.digital_literacy" := "Digital Literacy",
    "courses.skills" := "Skills Training",
    "courses.start" := "Start Course",
    "courses.resume" := "Resume",
    "courses.complete" := "Complete",
    "auth.login" := "Sign In",
    "auth.signup" := "Sign Up",
    "auth.email" := "Email",
    "auth.phone" := "Phone Number",
    "auth.password" := "Password",
    "auth.otp" := "Enter OTP",
    "auth.send_otp" := "Send OTP",
    "auth.verify" := "Verify",
    "a11y.voice_guidance" := "Voice Guidance",
    "a11y.large_text" := "Large Text",
    "a11y.high_contrast" := "High Contrast",
    "a11y.dark_mode" := "Dark Mode",
    "a11y.skip_to_content" := "Skip to content",
    "common.loading" := "Loading...",
    "common.error" := "Error",
    "common.success" := "Success!",
    "common.save" := "Save",
    "common.cancel" := "Cancel",
    "common.next" := "Next",
    "common.previous" := "Previous",
    "common.close" := "Close"
  ]

  /** The Hindi table. */
  const HiTable: map<string, string> := map[
    "nav.home" := "होम",
    "nav.courses" := "कोर्स",
    "nav.mentorship" := "मार्गदर्शन",
    "nav.community" := "समुदाय",
    "nav.showcase" := "प्रदर्शन",
    "nav.certificates" := "प्रमाणपत्र",
    "nav.support" := "सहायता",
    "home.welcome" := "स्वागत है",
    "home.progress" := "आपकी प्रगति",
    "home.continue_learning" := "सीखना जारी रखें",
    "home.explore_courses" := "कोर्स खोजें",
    "home.find_mentor" := "मार्गदर्शक खोजें",
    "home.join_community" := "समुदाय में शामिल हों",
    "courses.digital_literacy" := "डिजिटल साक्षरता",
    "courses.skills" := "कौशल प्रशिक्षण",
    "courses.start" := "कोर्स शुरू करें",
    "courses.resume" := "जारी रखें",
    "courses.complete" := "पूर्ण",
    "auth.login" := "साइन इन",
    "auth.signup" := "साइन अप",
    "auth.email" := "ईमेल",
    "auth.phone" := "फोन नंबर",
    "auth.password" := "पासवर्ड",
    "auth.otp" := "ओटीपी दर्ज करें",
    "auth.send_otp" := "ओटीपी भेजें",
    "auth.verify" := "सत्यापित करें",
    "a11y.voice_guidance" := "आवाज मार्गदर्शन",
    "a11y.large_text" := "बड़ा टेक्स्ट",
    "a11y.high_contrast" := "उच्च कंट्रास्ट",
    "a11y.dark_mode" := "डार्क मोड",
    "a11y.skip_to_content" := "सामग्री पर जाएं",
    "common.loading" := "लोड हो रहा है...",
    "common.error" := "त्रुटि",
    "common.success" := "सफलता!",
    "common.save" := "सेव करें",
    "common.cancel" := "रद्द करें",
    "common.next" := "अगला",
    "common.previous" := "पिछला",
    "common.close" := "बंद करें"
  ]

  /** `translations[lang]`. */
  function Table(l: Language): map<string, string> {
    match l
    case En => EnTable
    case Hi => HiTable
  }

  /** The table has a truthy (present, non-empty) entry for `key`. */
  predicate Has(table: map<string, string>, key: string) {
    key in table && table[key] != ""
  }

  /** `t(key)` in language `lang` (English when not given): the string of the
      current language when it is there and non-empty, else the English one
      when that is there and non-empty, else the key itself. The result is
      therefore never missing. */
  function T(key: string, lang: Language := En): (r: string)
    ensures Has(Table(lang), key) ==> r == Table(lang)[key]
    ensures !Has(Table(lang), key) && Has(EnTable, key) ==> r == EnTable[key]
    ensures !Has(Table(lang), key) && !Has(EnTable, key) ==> r == key
  {
    var cur := if key in Table(lang) then Table(lang)[key] else "";
    var en := if key in EnTable then EnTable[key] else "";
    if cur != "" then cur else if en != "" then en else key
  }

  /** A key unknown to both tables comes back as itself, in either language. */
  lemma UnknownKeyIsItself(key: string, lang: Language)
    requires key !in EnTable && key !in HiTable
    ensures T(key, lang) == key
  {
  }

  /** The result is one of the two table entries or the key: `t` never
      produces a string from anywhere else. */
  lemma TranslationSource(key: string, lang: Language)
    ensures || (key in Table(lang) && T(key, lang) == Table(lang)[key])
            || (key in EnTable && T(key, lang) == EnTable[key])
            || T(key, lang) == key
  {
  }

  /** The shipped tables define the same keys, and every entry is non-empty. */
  lemma TablesAgree()
    ensures EnTable.Keys == HiTable.Keys
    ensures forall k :: k in EnTable ==> EnTable[k] != ""
    ensures forall k :: k in HiTable ==> HiTable[k] != ""
  {
  }

  /** With the shipped tables, a known key is always answered from the
      current language's table: the English fallback is never taken. */
  lemma KnownKeyNeverFallsBack(key: string, lang: Language)
    requires key in EnTable
    ensures T(key, lang) == Table(lang)[key]
  {
    TablesAgree();
  }
}
