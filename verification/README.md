# SkillBridge client core in Dafny

SkillBridge is a bilingual (English/Hindi) learning site. This project models
the client-side logic under its pages and components as pure functions over
immutable records:

- the application context: the four accessibility flags, the language and the
  session, with their loads from local storage on mount;
- the root class markers and the stored blob that applying the settings keeps
  in sync;
- the translation lookup and its three-tier fallback;
- the header toggles and menus;
- the mock login and sign-up;
- the onboarding dialog's step machine;
- course task progress;
- the course search and difficulty badges;
- the voice assistant's keyword dispatch and listen toggle;
- the community chat's local rules.

The browser is represented by `Browser`: the document root's class set and
local storage. Local storage is a map from key to a typed value (`Stored`).
The JSON blobs are held as the records they encode. Backend calls (queries,
inserts, upserts) become inputs: a query result value, or a success flag for
a write. A write the page would send comes back as an output record.

Modules follow the source files:

| module | file |
|---|---|
| `Basics` | `Option` and `Result` |
| `Text` | `toLowerCase`, `includes`, `trim` |
| `Records` | the stored records and local storage |
| `Accessibility` | `src/lib/accessibility.ts` |
| `I18n` | `src/lib/i18n.ts` |
| `AppContext` | `src/contexts/AppContext.tsx` |
| `Header` | `src/components/layout/Header.tsx` |
| `Auth` | `src/pages/AuthPage.tsx` |
| `Onboarding` | `src/components/onboarding/OnboardingModal.tsx` |
| `CourseDetail` | `src/pages/CourseDetailPage.tsx` |
| `Courses` | `src/pages/CoursesPage.tsx` |
| `Voice` | `src/components/VoiceAssistant.tsx` |
| `Community` | `src/pages/CommunityPage.tsx` |

Where the code and its written description differ, the model follows the code:

- Stored JSON is parsed without a guard, so stored text that is not JSON
  throws instead of falling back to the defaults. The model folds a stored
  value that parses to something other than the expected record (such as
  the text "null") into the same `Malformed` failure; the source would then
  carry on with the parsed value (see "Left out").
- The context's `setUser` is the raw state setter and writes nothing. Only
  the auth handlers store the session.

## Model

| member | source | states |
|---|---|---|
| Text.LowerChar | src/pages/CoursesPage.tsx:80-81 | the lower case of a character is never a capital; only capitals change, each by the fixed ASCII offset |
| Text.Lower | src/pages/CoursesPage.tsx:80-81 | `toLowerCase` keeps the length, maps each character by `LowerChar` and leaves no capital |
| Text.LowerIdempotent | src/components/VoiceAssistant.tsx:48 | lower-casing twice is lower-casing once |
| Text.LowerOfLowerCase | src/components/VoiceAssistant.tsx:48-60 | a string with no capitals is its own lower case |
| Text.IncludesIffOccurs | src/pages/CoursesPage.tsx:80-81 | the `includes` scan answers true exactly when the needle occurs at some offset of the haystack |
| Text.IncludesEmpty | src/pages/CoursesPage.tsx:80-81 | every string includes the empty string, so an empty search keeps every course |
| Text.CharAbsent | src/components/VoiceAssistant.tsx:51-60 | a needle is not found when one of its characters is missing from every place it would land |
| Text.LeadingSpaces | src/pages/CommunityPage.tsx:193 | the counted prefix is all white space and is followed by a non-space or the end |
| Text.TrailingSpaces | src/pages/CommunityPage.tsx:193 | the counted suffix is all white space and is preceded by a non-space or the start |
| Text.Trim | src/pages/CommunityPage.tsx:193-207 | `trim` yields a substring that neither starts nor ends with white space and has only white space around it in the input |
| Text.TrimEmptyIffAllSpace | src/pages/CommunityPage.tsx:193 | the trimmed string is empty exactly when the input is all white space |
| Text.TrimIdempotent | src/pages/CommunityPage.tsx:207 | trimming twice is trimming once |
| Text.TrimOfTrimmed | src/pages/CommunityPage.tsx:207 | a string without surrounding white space is unchanged by trim |
| Records.SetItem | src/lib/accessibility.ts:81 | `setItem` makes the key read back the new value and every other key read back what it did |
| Accessibility.SetClass | src/lib/accessibility.ts:59-78 | add/remove puts the class in the set exactly when the flag is on and touches no other class |
| Accessibility.ApplyAccessibilitySettings | src/lib/accessibility.ts:56-82 | `large-text`, `high-contrast` and `dark` are on exactly when their flags are; other classes are untouched; the whole record is stored under `accessibility-settings`; other keys are untouched |
| Accessibility.GetAccessibilitySettings | src/lib/accessibility.ts:84-95 | nothing or "" stored gives all four flags false; a stored record is returned; any other truthy value is the `Malformed` failure: the unguarded parse throws, or (folded in) yields a wrong shape |
| Accessibility.ApplyThenGet | src/lib/accessibility.ts:81-88 | reading back after applying returns the applied settings |
| Accessibility.ApplySetsMarkers | src/lib/accessibility.ts:59-78 | after applying, the three markers agree with the settings whatever the root held |
| Accessibility.VoiceGuidanceHasNoMarker | src/lib/accessibility.ts:56-78 | flipping voice guidance changes no root class |
| Accessibility.ApplyIdempotent | src/lib/accessibility.ts:56-82 | applying the same settings twice yields the same classes and storage as once |
| Accessibility.ApplyWhenInSync | src/lib/accessibility.ts:56-82 | when root and store already reflect the settings, applying them changes nothing |
| I18n.ParseCode | src/contexts/AppContext.tsx:37 | a string names a language exactly when it is that language's code, "en" or "hi" |
| I18n.T | src/lib/i18n.ts:111-117 | current language's non-empty entry, else English's non-empty entry, else the key; the language defaults to English |
| I18n.UnknownKeyIsItself | src/lib/i18n.ts:113 | a key in neither table comes back as itself |
| I18n.TranslationSource | src/lib/i18n.ts:113 | the answer is a table entry for the key or the key itself, never anything else |
| I18n.TablesAgree | src/lib/i18n.ts:4-109 | the English and Hindi tables have the same keys and no empty entry |
| I18n.KnownKeyNeverFallsBack | src/lib/i18n.ts:4-113 | with the shipped tables a known key is answered from the current language's table |
| AppContext.Merge | src/contexts/AppContext.tsx:46-48 | `{...prev, ...p}` overwrites exactly the flags the update names and keeps every other flag |
| AppContext.MergeNoChange | src/contexts/AppContext.tsx:47 | an update that names no flag changes nothing |
| AppContext.MergeIdempotent | src/contexts/AppContext.tsx:47 | repeating an update changes nothing more |
| AppContext.MergeCompose | src/contexts/AppContext.tsx:47 | two updates in a row equal one combined update in which the later one wins per flag |
| AppContext.InitialState | src/contexts/AppContext.tsx:24-26 | the provider starts in English, with the stored or default settings and no user, and fails when the settings read fails |
| AppContext.LoadStored | src/contexts/AppContext.tsx:28-40 | a stored user record becomes the session, any other truthy value there is the `Malformed` failure; the stored language is adopted only when it is exactly "en" or "hi" |
| AppContext.Mount | src/contexts/AppContext.tsx:23-44 | mounting fails exactly when the settings read fails or a truthy stored user is not a user record; after mount the root markers and the stored blob reflect the held settings; other classes and keys are untouched |
| AppContext.MountFresh | src/contexts/AppContext.tsx:24-40 | an empty store mounts to English, default settings and no user |
| AppContext.MountState | src/contexts/AppContext.tsx:24-40 | a mount holds the stored settings, holds a user exactly when one is stored, and holds Hindi exactly when "hi" is stored |
| AppContext.UpdateAccessibility | src/contexts/AppContext.tsx:42-48 | the held settings become the merge; root and store follow; language, user, root classes other than the three markers, and other keys are untouched |
| AppContext.UpdateThenRead | src/contexts/AppContext.tsx:42-48 | reading the store after an update returns the merged settings |
| AppContext.SetLanguage | src/contexts/AppContext.tsx:50-53 | the held language becomes `l` and its code is stored under `language`; nothing else changes |
| AppContext.SetLanguageSurvivesRemount | src/contexts/AppContext.tsx:36-53 | a later mount of the same store restores the chosen language |
| AppContext.SetUser | src/contexts/AppContext.tsx:26 | `setUser` replaces the session and writes nothing to the page or the store |
| AppContext.UseApp | src/contexts/AppContext.tsx:71-77 | outside a provider `useApp` fails with "useApp must be used within AppProvider"; inside it returns the context |
| AppContext.UpdatesKeepSynced | src/contexts/AppContext.tsx:42-63 | each of the three update paths keeps root and store in step with the held settings |
| Header.ToggleUpdate | src/components/layout/Header.tsx:88-146 | each toggle's update, merged, flips exactly its own flag |
| Header.Press | src/components/layout/Header.tsx:88-146 | each button flips exactly its own flag (voice guidance, large text, high contrast, dark mode), keeps language and user, leaves root and store in sync, and touches no root class but the three markers and no key but `accessibility-settings` |
| Header.PressTwiceRestores | src/components/layout/Header.tsx:88-146 | pressing the same toggle twice restores the page it started from |
| Header.ChooseLanguage | src/components/layout/Header.tsx:106-117 | the menu entries set the language to exactly English or Hindi and store "en" or "hi"; settings, user, root classes and every other key are untouched |
| Header.NavItems | src/components/layout/Header.tsx:20-28 | seven entries in order, each the translation of its key with its route |
| Header.DesktopNav | src/components/layout/Header.tsx:70 | the desktop bar is the first four entries in order: home, courses, mentorship, community |
| Header.NavLabelsTranslated | src/components/layout/Header.tsx:20-28 | every entry's label comes from the current language's table, with no fallback |
| Auth.Install | src/pages/AuthPage.tsx:36-37 | the user becomes the session and is stored under `user`; other keys and the root are untouched |
| Auth.HandleLogin | src/pages/AuthPage.tsx:25-41 | login installs and stores id "1", "Demo User", the typed e-mail and progress 45; language, settings, root classes and every other key are untouched |
| Auth.HandleSignup | src/pages/AuthPage.tsx:43-59 | sign-up installs and stores id "2", the typed name and e-mail and progress 0; language, settings, root classes and every other key are untouched |
| Auth.LoginIgnoresPassword | src/pages/AuthPage.tsx:18-34 | the password does not affect the login outcome |
| Auth.SignupIgnoresPhoneAndPassword | src/pages/AuthPage.tsx:47-52 | the phone and password do not affect the sign-up outcome |
| Auth.SessionSurvivesRemount | src/pages/AuthPage.tsx:37 | a later mount of the store restores exactly the installed user |
| Onboarding.MountModal | src/components/onboarding/OnboardingModal.tsx:65-71 | the dialog starts at step 0 and opens exactly when the "seen" marker is absent or empty |
| Onboarding.Complete | src/components/onboarding/OnboardingModal.tsx:94-97 | completing stores "true" under the marker and closes; other keys are untouched |
| Onboarding.Skip | src/components/onboarding/OnboardingModal.tsx:99-102 | skipping stores the marker and closes, from any step, and touches no other key |
| Onboarding.Next | src/components/onboarding/OnboardingModal.tsx:80-86 | next advances one step before the last step and completes at the last |
| Onboarding.Previous | src/components/onboarding/OnboardingModal.tsx:88-92 | previous goes back one step after the first and does nothing at the first |
| Onboarding.Dismiss | src/components/onboarding/OnboardingModal.tsx:105 | closing from outside closes the dialog and stores nothing |
| Onboarding.StepKeepsValid | src/components/onboarding/OnboardingModal.tsx:80-102 | every action keeps the step index below four |
| Onboarding.RunKeepsValid | src/components/onboarding/OnboardingModal.tsx:80-102 | any run of actions keeps the step index below four |
| Onboarding.SeenIsPermanent | src/components/onboarding/OnboardingModal.tsx:65-102 | once stored, no action removes the marker, so every later mount stays closed |
| Onboarding.CompletionIsRemembered | src/components/onboarding/OnboardingModal.tsx:65-105 | after completing or skipping the next mount stays closed; after dismissing it opens as before |
| Onboarding.DotAt | src/components/onboarding/OnboardingModal.tsx:122-131 | a dot is active exactly at the current step, done exactly before it, upcoming exactly after it |
| Onboarding.ExactlyOneActive | src/components/onboarding/OnboardingModal.tsx:122-131 | exactly one dot is active, the current step's |
| Onboarding.ShowsPrevious | src/components/onboarding/OnboardingModal.tsx:149 | the back button is shown exactly when going back would move |
| Onboarding.NextButton | src/components/onboarding/OnboardingModal.tsx:165-167 | "Let's Start!" (in Hindi "शुरू करें!") exactly at the last step, the one where next completes instead of advancing; elsewhere the translated "Next" |
| CourseDetail.CompletedIds | src/pages/CourseDetailPage.tsx:77-79 | an id is in the set exactly when some progress row for it has its flag set |
| CourseDetail.Annotate | src/pages/CourseDetailPage.tsx:81-84 | the annotation keeps length, order and every other field, and marks a task done exactly when its id is in the set |
| CourseDetail.First | src/pages/CourseDetailPage.tsx:87-90 | the first task, or none exactly for an empty list |
| CourseDetail.LoadCourseData | src/pages/CourseDetailPage.tsx:48-102 | signed in, each task is done exactly when a progress row says so; otherwise the rows are kept; the first task is opened; a failed query changes nothing |
| CourseDetail.MarkTaskComplete | src/pages/CourseDetailPage.tsx:104-128 | signed out nothing is sent or changed; signed in the upsert is sent and, on success, exactly the tasks with that id become completed; the opened task is not refreshed |
| CourseDetail.LoadKeepsOpenedListed | src/pages/CourseDetailPage.tsx:86-91 | after a load the opened task is one of the listed tasks |
| CourseDetail.StaleOpenedTask | src/pages/CourseDetailPage.tsx:126-128 | as written, a successful mark of the opened task leaves the pane showing its uncompleted copy |
| CourseDetail.MarkTaskCompleteCorrected | src/pages/CourseDetailPage.tsx:104-128 | the same list update and request, with the opened task refreshed when it is the one marked |
| CourseDetail.CorrectedKeepsOpenedListed | src/pages/CourseDetailPage.tsx:126-128 | with the correction the opened task stays one of the listed tasks |
| CourseDetail.MarkTwiceIsMarkOnce | src/pages/CourseDetailPage.tsx:126-128 | as written, marking the same task twice gives the page marking it once gives |
| CourseDetail.MarkTwiceIsMarkOnceCorrected | src/pages/CourseDetailPage.tsx:104-128 | with the opened task refreshed, marking twice still gives the page marking once gives |
| CourseDetail.CompletedCount | src/pages/CourseDetailPage.tsx:139 | the count is at most the length, 0 exactly when nothing is done, the length exactly when everything is |
| CourseDetail.CompletedCountAppend | src/pages/CourseDetailPage.tsx:139 | the count of a concatenation is the sum of the counts of its parts; with the singleton cases this fixes the count of every list |
| CourseDetail.ProgressPercentage | src/pages/CourseDetailPage.tsx:140 | the percentage is completed over total times 100 (0 with no tasks); it lies in 0..100, is 0 exactly when nothing is done (or there are no tasks) and 100 exactly when a non-empty list is all done |
| CourseDetail.RatioBounds | src/pages/CourseDetailPage.tsx:140 | a part over a positive whole lies in [0, 1], at 0 exactly for an empty part and at 1 for the whole |
| CourseDetail.MarkRaisesCount | src/pages/CourseDetailPage.tsx:126-139 | marking never lowers the completed count and raises it when an uncompleted task had that id |
| Courses.FilterCourses | src/pages/CoursesPage.tsx:79-82 | a course is kept exactly when its lower-cased title or description includes the lower-cased query, with every copy of a matching course kept and none of the others |
| Courses.FilterIsSubsequence | src/pages/CoursesPage.tsx:79-82 | the kept courses are in catalogue order |
| Courses.FilterIdempotent | src/pages/CoursesPage.tsx:79-82 | filtering again with the same query changes nothing |
| Courses.EmptyQueryKeepsAll | src/pages/CoursesPage.tsx:79-82 | the empty query keeps every course in order |
| Courses.QueryCaseIgnored | src/pages/CoursesPage.tsx:80-81 | a query and its lower case select the same courses |
| Courses.ShowsEmptyState | src/pages/CoursesPage.tsx:187 | the "no courses" block shows exactly when no course matches |
| Courses.DifficultyColor | src/pages/CoursesPage.tsx:84-95 | beginner gets exactly the success colour, intermediate the warning colour, advanced the destructive colour, and every other level the muted colour |
| Courses.DifficultyColorsDistinct | src/pages/CoursesPage.tsx:86-91 | the three known levels have three different colours |
| Courses.ActionLabel | src/pages/CoursesPage.tsx:179 | the button reads "resume" exactly when progress is above 0 and "start" otherwise |
| Voice.ProcessVoiceCommand | src/components/VoiceAssistant.tsx:47-71 | the first route in the order home, courses, mentorship, community whose English or Hindi keyword the lower-cased command mentions wins, and its address is the one assigned; help exactly when none is mentioned |
| Voice.Path | src/components/VoiceAssistant.tsx:52-61 | each route's address is the header link at the same position: "/", "/courses", "/mentorship", "/community" |
| Voice.DispatchIgnoresCase | src/components/VoiceAssistant.tsx:48 | a command and its lower case are dispatched alike |
| Voice.MentionedRouteWins | src/components/VoiceAssistant.tsx:51-62 | a mentioned route with no earlier route mentioned is where the command leads |
| Voice.KeywordsApart | src/components/VoiceAssistant.tsx:51-60 | no keyword of a later route contains a keyword of an earlier one |
| Voice.PairApart | src/components/VoiceAssistant.tsx:51-60 | two routes whose keywords differ at a fitting position do not mention each other |
| Voice.KeywordReachesRoute | src/components/VoiceAssistant.tsx:51-62 | each keyword said alone, in either language, reaches its own route |
| Voice.ToggleListening | src/components/VoiceAssistant.tsx:30-45 | stopping processes the transcript exactly when it is non-empty; starting turns listening on with an empty transcript |
| Voice.Hear | src/components/VoiceAssistant.tsx:19-22 | while listening the heard text becomes the transcript; otherwise nothing changes |
| Voice.SilenceProcessesNothing | src/components/VoiceAssistant.tsx:31-39 | starting and stopping with nothing heard processes nothing |
| Voice.HeardCommandIsProcessed | src/components/VoiceAssistant.tsx:19-39 | starting, hearing a command and stopping dispatches exactly that command |
| Voice.Visible | src/components/VoiceAssistant.tsx:73 | the assistant is drawn exactly while voice guidance is on |
| Voice.VoiceButtonTogglesAssistant | src/components/VoiceAssistant.tsx:73 | the header's voice button shows or hides the assistant; with the defaults it is hidden |
| Community.LoadChannels | src/pages/CommunityPage.tsx:90-107 | loading ends in every case; an error changes nothing else; rows replace the list and a non-empty list opens its first channel |
| Community.LoadedSelectionListed | src/pages/CommunityPage.tsx:99-101 | after a non-empty load the open channel is a listed one |
| Community.FirstLoadOpensFirstChannel | src/pages/CommunityPage.tsx:62-107 | the first load from the empty page lists the rows, opens the first and stops loading, with no messages and an empty input |
| Community.SendMessage | src/pages/CommunityPage.tsx:191-221 | no user, no channel or a blank message does nothing; a non-member gets the join toast and no insert; a member's trimmed text is inserted; the input is cleared exactly on success |
| Community.BlankNeverSent | src/pages/CommunityPage.tsx:193 | a white-space-only message is never sent |
| Community.SentTextIsTrimmedDraft | src/pages/CommunityPage.tsx:207 | the sent text is non-empty, trimmed, and sits in the input with only white space around it |
| Community.NoDoubleSend | src/pages/CommunityPage.tsx:193-212 | after a successful send, sending again inserts nothing |
| Community.OnRealtimeInsert | src/pages/CommunityPage.tsx:154 | a realtime insert goes to the end and keeps every earlier message in place |
| Community.ReceiveAllAppends | src/pages/CommunityPage.tsx:154 | a batch of inserts lands after the existing messages in delivery order |
| Community.ChannelIcon | src/pages/CommunityPage.tsx:223-232 | events get the calendar, learning the people icon, every other type the speech bubble |

## Findings

| source | as written | input that shows it | evidently intended | confidence | as-written member | corrected member |
|---|---|---|---|---|---|---|
| src/pages/CourseDetailPage.tsx:126-128 | a successful mark updates the task list but not the opened task, whose copy drives the pane's completed badge and "mark complete" button (lines 259, 279) | one uncompleted task, opened, signed in, upsert succeeds: the list shows it completed, the pane still shows the button | the opened task is refreshed with the list | medium, not executed | CourseDetail.StaleOpenedTask | CourseDetail.MarkTaskCompleteCorrected |

## Left out

- CourseDetail.ProgressPercentage: the source divides JavaScript floating-point numbers and the page shows `Math.round` of the result (src/pages/CourseDetailPage.tsx:189); the model computes the exact real quotient and leaves the rounding out.
- Speech synthesis and recognition (`speak`, `startListening` in src/lib/accessibility.ts) are not modelled. The voice dispatch returns the route and the text it would speak. `window.location` navigation is not performed.
- Toasts are not modelled, apart from the two a chat send can raise. The `navigate('/')` after login or sign-up is also not modelled.
- React effect scheduling, async ordering and the loading spinners are not modelled. A mount runs the load effect and then the apply effect, in source order.
- Backend queries, inserts and upserts and the realtime subscription are inputs and outputs. `joinChannel`, `loadMessages`, `checkMembership` and the course-record query are not modelled. src/pages/MentorshipPage.tsx is not part of this model.
- The `completed_at` timestamp and the `course_id` of the progress upsert are not modelled. They need the clock and the route parameter.
- JSON is not modelled. Blobs are stored as typed records. Any truthy stored value that is not the expected record is one `Malformed` failure, which covers both a parse that throws and one that yields a different shape. The second is a simplification: the source carries on with the parsed value, so a stored "null" user mounts signed out where the model fails.
- AppContext.LoadStored: a stored user that parses to a non-record (such as "null") is a failure here, where the source installs the parsed value.
- Accessibility.GetAccessibilitySettings: stored settings that parse to a non-record are a failure here, where the source returns the parsed value.
- Text.LowerChar: maps only ASCII capitals; every other character, including non-ASCII capitals that JavaScript would lower, is its own lower case.
- Text.Lower: models `toLowerCase` on ASCII capitals only. Non-ASCII letters are their own lower case. This is exact for the Devanagari keywords but weaker than Unicode case mapping.
- AppContext.Merge: a `Partial` that names a flag with an explicit `undefined` is not modelled. In JavaScript that spread would overwrite the flag with `undefined`.
- The mock course catalogue (src/pages/CoursesPage.tsx:28-77) and the `language` field of a course are not modelled; `Course` has no such field. The search and labels are stated over any course list.
- The `progress` of a course and of a user is a JavaScript `number`; it is an unbounded integer here, so fractional or non-finite progress values are not modelled.
- I18n.T: keys are plain table keys. A key naming an inherited object member (such as "constructor") would return that member in JavaScript; the source's key type rules such keys out, and the model treats them as unknown keys.
- The onboarding effect that speaks the current step, and the step texts and icons, are not modelled.
- The header's user button and mobile menu are not modelled. They are presentation only.
- 3D, AR and VR scenes, animations, routing and layout are not modelled.
