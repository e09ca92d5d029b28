/** The course catalogue page: the search filter, the difficulty badge
    colours and the start/resume label. */
module Courses {
  import opened Text
  import opened I18n

  datatype Course = Course(
    id: string,
    title: string,
    description: string,
    category: string,
    difficulty: string,
    duration: string,
    progress: int)

  /** The search predicate: the lower-cased query occurs in the lower-cased
      title or the lower-cased description. */
  predicate Matches(c: Course, query: string) {
    Includes(Lower(c.title), Lower(query)) || Includes(Lower(c.description), Lower(query))
  }

  /** `cs` keeps exactly the elements of `sub`, in order: `sub` is `cs` with
      some elements left out. */
  ghost predicate IsSubsequence<T>(sub: seq<T>, cs: seq<T>)
    decreases |cs|
  {
    if sub == [] then true
    else if cs == [] then false
    else if sub[0] == cs[0] then IsSubsequence(sub[1..], cs[1..])
    else IsSubsequence(sub, cs[1..])
  }

  /** `filteredCourses`: the courses matching the query. */
  function FilterCourses(cs: seq<Course>, query: string): (r: seq<Course>)
    ensures |r| <= |cs|
    ensures forall c :: c in r <==> c in cs && Matches(c, query)
    ensures forall c :: multiset(r)[c] == if Matches(c, query) then multiset(cs)[c] else 0
    decreases |cs|
  {
    if cs == [] then []
    else
      var rest := FilterCourses(cs[1..], query);
      assert forall c :: c in cs <==> c == cs[0] || c in cs[1..];
      assert cs == [cs[0]] + cs[1..];
      if Matches(cs[0], query) then [cs[0]] + rest else rest
  }

  /** The filter keeps the catalogue order: the result is a subsequence. */
  lemma {:induction false} FilterIsSubsequence(cs: seq<Course>, query: string)
    ensures IsSubsequence(FilterCourses(cs, query), cs)
    decreases |cs|
  {
    if cs != [] {
      FilterIsSubsequence(cs[1..], query);
      var r := FilterCourses(cs, query);
      if Matches(cs[0], query) {
        assert r[0] == cs[0] && r[1..] == FilterCourses(cs[1..], query);
      } else {
        var rest := FilterCourses(cs[1..], query);
        if rest != [] {
          assert rest[0] in cs[1..];
          assert rest[0] != cs[0] by {
            assert rest[0] in rest;
          }
        }
      }
    }
  }

  /** Filtering the result again with the same query changes nothing. */
  lemma {:induction false} FilterIdempotent(cs: seq<Course>, query: string)
    ensures FilterCourses(FilterCourses(cs, query), query) == FilterCourses(cs, query)
    decreases |cs|
  {
    if cs != [] {
      FilterIdempotent(cs[1..], query);
      var r := FilterCourses(cs, query);
      if Matches(cs[0], query) {
        assert r[0] == cs[0] && r[1..] == FilterCourses(cs[1..], query);
      }
    }
  }

  /** The empty query keeps every course, in order. */
  lemma {:induction false} EmptyQueryKeepsAll(cs: seq<Course>)
    ensures FilterCourses(cs, "") == cs
    decreases |cs|
  {
    if cs != [] {
      IncludesEmpty(Lower(cs[0].title));
      EmptyQueryKeepsAll(cs[1..]);
    }
  }

  /** The search ignores case: a query and its lower case select the same
      courses. */
  lemma QueryCaseIgnored(cs: seq<Course>, query: string)
    ensures FilterCourses(cs, Lower(query)) == FilterCourses(cs, query)
  {
    LowerIdempotent(query);
  }

  /** The "no courses found" block shows exactly when nothing matches. */
  function ShowsEmptyState(cs: seq<Course>, query: string): (shown: bool)
    ensures shown <==> forall c :: c in cs ==> !Matches(c, query)
  {
    var r := FilterCourses(cs, query);
    assert |r| > 0 ==> r[0] in r;
    |r| == 0
  }

  /** The badge colours. */
  const BeginnerColor := "bg-success/10 text-success"
  const IntermediateColor := "bg-warning/10 text-warning"
  const AdvancedColor := "bg-destructive/10 text-destructive"
  const MutedColor := "bg-muted text-muted-foreground"

  /** The difficulty levels the badge knows. */
  predicate KnownDifficulty(d: string) {
    d == "beginner" || d == "intermediate" || d == "advanced"
  }

  /** `getDifficultyColor`: each known level has its own colour; anything
      else gets the muted colour. */
  function DifficultyColor(d: string): (color: string)
    ensures color == BeginnerColor <==> d == "beginner"
    ensures color == IntermediateColor <==> d == "intermediate"
    ensures color == AdvancedColor <==> d == "advanced"
    ensures color == MutedColor <==> !KnownDifficulty(d)
  {
    match d
    case "beginner" => BeginnerColor
    case "intermediate" => IntermediateColor
    case "advanced" => AdvancedColor
    case _ => MutedColor
  }

  /** The three known levels are told apart by their colours. */
  lemma DifficultyColorsDistinct(d: string, e: string)
    requires KnownDifficulty(d) && KnownDifficulty(e)
    ensures DifficultyColor(d) == DifficultyColor(e) <==> d == e
  {
  }

  /** The card button reads "resume" exactly when some progress was made,
      "start" otherwise; the two labels differ in both languages. */
  function ActionLabel(c: Course, lang: Language): (text: string)
    ensures text == T("courses.resume", lang) <==> c.progress > 0
    ensures text == T("courses.start", lang) <==> c.progress <= 0
  {
    KnownKeyNeverFallsBack("courses.resume", lang);
    KnownKeyNeverFallsBack("courses.start", lang);
    if c.progress > 0 then T("courses.resume", lang) else T("courses.start", lang)
  }
}
