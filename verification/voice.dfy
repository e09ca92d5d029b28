/** The floating voice assistant: the keyword dispatch of a spoken command,
    the listen toggle, and the gate that hides it unless voice guidance is on. */
module Voice {
  import opened Basics
  import opened Records
  import opened Text
  import opened I18n
  import opened AppContext
  import Header
  import Accessibility

  /** The four places a command can lead to. */
  datatype Route = HomeRoute | CoursesRoute | MentorshipRoute | CommunityRoute

  /** The address each route navigates to: the same as the header's link
      at the route's position. */
  function Path(r: Route): (p: string)
    ensures p == Header.NavPaths[Priority(r)]
  {
    match r
    case HomeRoute => "/"
    case CoursesRoute => "/courses"
    case MentorshipRoute => "/mentorship"
    case CommunityRoute => "/community"
  }

  /** The order in which the routes are tried: home first, community last. */
  function Priority(r: Route): nat {
    match r
    case HomeRoute => 0
    case CoursesRoute => 1
    case MentorshipRoute => 2
    case CommunityRoute => 3
  }

  /** The English keyword of a route (already lower case). */
  function EnglishKeyword(r: Route): string {
    match r
    case HomeRoute => "home"
    case CoursesRoute => "courses"
    case MentorshipRoute => "mentorship"
    case CommunityRoute => "community"
  }

  /** The Hindi keyword of a route. */
  function HindiKeyword(r: Route): string {
    match r
    case HomeRoute => "होम"
    case CoursesRoute => "कोर्स"
    case MentorshipRoute => "मार्गदर्शन"
    case CommunityRoute => "समुदाय"
  }

  /** The lower-cased command mentions a route by either of its keywords. */
  predicate Mentions(lowered: string, r: Route) {
    Includes(lowered, EnglishKeyword(r)) || Includes(lowered, HindiKeyword(r))
  }

  /** What a command does: navigate to a route's address, announcing it, or
      speak the help text and stay. */
  datatype Response = Navigate(route: Route, href: string, speech: string) | Help(speech: string)

  /** The announcement spoken when navigating. */
  function Announcement(r: Route, lang: Language): string {
    match r
    case HomeRoute => if lang == En then "Going to home" else "होम पर जा रहे हैं"
    case CoursesRoute => if lang == En then "Opening courses" else "कोर्स खोल रहे हैं"
    case MentorshipRoute => if lang == En then "Opening mentorship" else "मार्गदर्शन खोल रहे हैं"
    case CommunityRoute => if lang == En then "Opening community" else "समुदाय खोल रहे हैं"
  }

  /** The help text spoken when no keyword is heard. */
  function HelpText(lang: Language): string {
    if lang == En then "I can help you navigate. Try saying home, courses, mentorship, or community."
    else "मैं आपको नेविगेट करने में मदद कर सकता हूं। होम, कोर्स, मार्गदर्शन या समुदाय कहने का प्रयास करें।"
  }

  /** `processVoiceCommand`: on the lower-cased command, the first route in
      priority order that is mentioned wins; with no route mentioned the
      help text is spoken and nothing navigates. */
  function ProcessVoiceCommand(command: string, lang: Language): (r: Response)
    ensures r.Navigate? ==> Mentions(Lower(command), r.route)
    ensures r.Navigate? ==> forall q :: Priority(q) < Priority(r.route) ==> !Mentions(Lower(command), q)
    ensures r.Help? <==> forall q :: !Mentions(Lower(command), q)
    ensures r.Navigate? ==> r.href == Path(r.route)
    ensures r.Navigate? ==> r.speech == Announcement(r.route, lang)
    ensures r.Help? ==> r.speech == HelpText(lang)
  {
    var lowered := Lower(command);
    if Mentions(lowered, HomeRoute) then Navigate(HomeRoute, Path(HomeRoute), Announcement(HomeRoute, lang))
    else if Mentions(lowered, CoursesRoute) then Navigate(CoursesRoute, Path(CoursesRoute), Announcement(CoursesRoute, lang))
    else if Mentions(lowered, MentorshipRoute) then Navigate(MentorshipRoute, Path(MentorshipRoute), Announcement(MentorshipRoute, lang))
    else if Mentions(lowered, CommunityRoute) then Navigate(CommunityRoute, Path(CommunityRoute), Announcement(CommunityRoute, lang))
    else Help(HelpText(lang))
  }

  /** The dispatch ignores case: a command and its lower case do the same. */
  lemma DispatchIgnoresCase(command: string, lang: Language)
    ensures ProcessVoiceCommand(Lower(command), lang) == ProcessVoiceCommand(command, lang)
  {
    LowerIdempotent(command);
  }

  /** A command mentioning a route is never answered with help, and it leads
      to that route unless an earlier route is mentioned too. */
  lemma MentionedRouteWins(command: string, lang: Language, q: Route)
    requires Mentions(Lower(command), q)
    requires forall p :: Priority(p) < Priority(q) ==> !Mentions(Lower(command), p)
    ensures ProcessVoiceCommand(command, lang) == Navigate(q, Path(q), Announcement(q, lang))
  {
  }

  /** No keyword of a route contains a keyword of an earlier route: each
      is told apart by a first character that does not occur where it
      could start. */
  lemma KeywordsApart(p: Route, q: Route)
    requires Priority(p) < Priority(q)
    ensures !Mentions(EnglishKeyword(q), p) && !Mentions(HindiKeyword(q), p)
  {
    match q
    case CoursesRoute => PairApart(q, p, 0);
    case MentorshipRoute => PairApart(q, p, 0);
    case CommunityRoute => PairApart(q, p, if p == CoursesRoute then 3 else 0);
  }

  /** One pair of routes, told apart in all four keyword combinations; `k`
      picks the character of the earlier English keyword that is missing
      from the later one. */
  lemma PairApart(q: Route, p: Route, k: nat)
    requires k < |EnglishKeyword(p)|
    requires forall j :: k <= j <= |EnglishKeyword(q)| - |EnglishKeyword(p)| + k ==> EnglishKeyword(q)[j] != EnglishKeyword(p)[k]
    requires forall j :: 0 <= j <= |EnglishKeyword(q)| - |HindiKeyword(p)| ==> EnglishKeyword(q)[j] != HindiKeyword(p)[0]
    requires forall j :: 0 <= j <= |HindiKeyword(q)| - |EnglishKeyword(p)| ==> HindiKeyword(q)[j] != EnglishKeyword(p)[0]
    requires forall j :: 0 <= j <= |HindiKeyword(q)| - |HindiKeyword(p)| ==> HindiKeyword(q)[j] != HindiKeyword(p)[0]
    ensures !Mentions(EnglishKeyword(q), p) && !Mentions(HindiKeyword(q), p)
  {
    CharAbsent(EnglishKeyword(q), EnglishKeyword(p), k);
    CharAbsent(EnglishKeyword(q), HindiKeyword(p), 0);
    CharAbsent(HindiKeyword(q), EnglishKeyword(p), 0);
    CharAbsent(HindiKeyword(q), HindiKeyword(p), 0);
  }

  /** Each keyword said alone, in either language, reaches its own route. */
  lemma KeywordReachesRoute(q: Route, lang: Language)
    ensures ProcessVoiceCommand(EnglishKeyword(q), lang) == Navigate(q, Path(q), Announcement(q, lang))
    ensures ProcessVoiceCommand(HindiKeyword(q), lang) == Navigate(q, Path(q), Announcement(q, lang))
  {
    LowerOfLowerCase(EnglishKeyword(q));
    LowerOfLowerCase(HindiKeyword(q));
    IncludesIffOccurs(EnglishKeyword(q), EnglishKeyword(q));
    assert OccursAt(EnglishKeyword(q), EnglishKeyword(q), 0);
    IncludesIffOccurs(HindiKeyword(q), HindiKeyword(q));
    assert OccursAt(HindiKeyword(q), HindiKeyword(q), 0);
    forall p | Priority(p) < Priority(q)
      ensures !Mentions(EnglishKeyword(q), p) && !Mentions(HindiKeyword(q), p)
    {
      KeywordsApart(p, q);
    }
    MentionedRouteWins(EnglishKeyword(q), lang, q);
    MentionedRouteWins(HindiKeyword(q), lang, q);
  }

  /** The state behind the microphone button. */
  datatype Listener = Listener(listening: bool, transcript: string)

  /** The outcome of pressing the button: the new state and, when a
      transcript was handed over, the dispatch it produced. */
  datatype Toggled = Toggled(state: Listener, processed: Option<Response>)

  /** `toggleListening`. Stopping keeps the transcript and processes it
      exactly when it is non-empty; starting switches listening on with an
      empty transcript and processes nothing. */
  function ToggleListening(s: Listener, lang: Language): (r: Toggled)
    ensures s.listening ==> r.state == Listener(false, s.transcript)
    ensures s.listening ==> (r.processed.Some? <==> s.transcript != "")
    ensures r.processed.Some? ==> r.processed.value == ProcessVoiceCommand(s.transcript, lang)
    ensures !s.listening ==> r == Toggled(Listener(true, ""), None)
  {
    if s.listening then
      Toggled(s.(listening := false), if s.transcript != "" then Some(ProcessVoiceCommand(s.transcript, lang)) else None)
    else
      Toggled(Listener(true, ""), None)
  }

  /** The recogniser's callback: while listening, the heard text becomes the
      transcript; when not listening no recogniser is running. */
  function Hear(s: Listener, text: string): (r: Listener)
    ensures r.listening == s.listening
    ensures s.listening ==> r.transcript == text
    ensures !s.listening ==> r == s
  {
    if s.listening then s.(transcript := text) else s
  }

  /** Starting and stopping again with nothing heard processes nothing, even
      if an old transcript was left over. */
  lemma SilenceProcessesNothing(s: Listener, lang: Language)
    requires !s.listening
    ensures ToggleListening(ToggleListening(s, lang).state, lang).processed == None
  {
  }

  /** Starting, hearing a non-empty command and stopping dispatches exactly
      that command. */
  lemma HeardCommandIsProcessed(s: Listener, text: string, lang: Language)
    requires !s.listening && text != ""
    ensures ToggleListening(Hear(ToggleListening(s, lang).state, text), lang).processed
         == Some(ProcessVoiceCommand(text, lang))
  {
  }

  /** The assistant is drawn only while voice guidance is on. */
  function Visible(a: AccessibilitySettings): (shown: bool)
    ensures shown <==> a.voiceGuidance
  {
    a.voiceGuidance
  }

  /** The header's voice button shows or hides the assistant and changes
      nothing else about it; with the stored defaults it starts hidden. */
  lemma VoiceButtonTogglesAssistant(c: Client)
    ensures Visible(Header.Press(c, Header.VoiceGuidanceButton).state.accessibility) == !Visible(c.state.accessibility)
    ensures !Visible(Accessibility.Defaults)
  {
  }
}
