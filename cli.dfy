/**
 * The console front end of src/main.py: how `get_user_input` turns the
 * typed lines into the student dictionary, how `display_recommendations`
 * numbers the result, and the exit code `main` returns. Reading the
 * keyboard and printing are left to the caller: the typed lines are
 * parameters and the displayed body is a result.
 */
module Cli {
  import opened Wrappers
  import opened Text
  import opened Advisor

  /**
   * `[c.strip() for c in text.split(",") if c.strip()] if text else []`
   * applied to `input().strip()`: the comma-separated course list.
   */
  function ParseCourseList(raw: string): (courses: seq<string>)
    ensures CleanLines(courses)
    ensures AllWhitespace(raw) ==> courses == []
  {
    StripBlank(raw);
    var text := Strip(raw);
    if text == "" then [] else StripNonBlank(Split(text, ","))
  }

  /**
   * The parsed courses are the comma-separated pieces of the trimmed input,
   * each trimmed, the blank ones dropped and the rest kept in input order.
   */
  lemma ParsedCoursesInOrder(raw: string)
    requires !AllWhitespace(raw)
    ensures
      var pieces := StripEach(Split(Strip(raw), ","));
      SelectedBy(Positions(pieces), ParseCourseList(raw), pieces)
  {
    StripBlank(raw);
    StripNonBlankSelects(Split(Strip(raw), ","));
  }

  /**
   * Courses typed the way the prompt suggests, "CPSC 1010, ENGL 1030", are
   * read back as exactly those courses.
   */
  lemma ParseJoinedCourses(courses: seq<string>)
    requires CleanLines(courses)
    requires forall i :: 0 <= i < |courses| ==> Excludes(courses[i], ',')
    ensures ParseCourseList(Join(courses, ", ")) == courses
  {
    if courses != [] {
      var text := Join(courses, ", ");
      JoinStripped(courses, ", ");
      StripStripped(text);
      ParseJoinedFrom("", courses);
      assert "" + text == text;
    }
  }

  /** The pieces after a leading blank stretch `lead`, trimmed and filtered, are the joined courses. */
  lemma {:induction false} ParseJoinedFrom(lead: string, courses: seq<string>)
    requires AllWhitespace(lead) && Excludes(lead, ',')
    requires |courses| >= 1 && CleanLines(courses)
    requires forall i :: 0 <= i < |courses| ==> Excludes(courses[i], ',')
    ensures StripNonBlank(Split(lead + Join(courses, ", "), ",")) == courses
    decreases |courses|
  {
    var first := lead + courses[0];
    StripPadded(lead, courses[0], "");
    assert lead + courses[0] + "" == first;
    if |courses| == 1 {
      SplitNoSeparator(first, ',');
      StripNonBlankCons(first, []);
    } else {
      var rest := " " + Join(courses[1..], ", ");
      JoinedAfterLead(lead, courses);
      SplitAtFirst(first, ',', rest);
      ParseJoinedFrom(" ", courses[1..]);
      StripNonBlankCons(first, Split(rest, ","));
    }
  }

  lemma JoinedAfterLead(lead: string, courses: seq<string>)
    requires |courses| >= 2
    ensures lead + Join(courses, ", ") == lead + courses[0] + [','] + (" " + Join(courses[1..], ", "))
  {
  }

  /** `input().strip() or None`: the time constraints, or `None` when the line is blank. */
  function TimeConstraints(raw: string): (constraints: Option<string>)
    ensures constraints.None? <==> AllWhitespace(raw)
    ensures constraints.Some? ==> constraints.value == Strip(raw) && constraints.value != ""
  {
    StripBlank(raw);
    var text := Strip(raw);
    if text == "" then None else Some(text)
  }

  /** The student dictionary `get_user_input` builds from the four typed lines. */
  function GetUserInput(name: string, completed: string, current: string, constraints: string): (student: StudentInfo)
    ensures student.name == Strip(name)
    ensures student.completedCourses.Some? && CleanLines(student.completedCourses.value)
    ensures student.currentCourses.Some? && CleanLines(student.currentCourses.value)
    ensures student.timeConstraints.None? <==> AllWhitespace(constraints)
    ensures student.completedCourses == Some(ParseCourseList(completed))
    ensures student.currentCourses == Some(ParseCourseList(current))
    ensures student.timeConstraints == TimeConstraints(constraints)
  {
    StudentInfo(Strip(name), Some(ParseCourseList(completed)), Some(ParseCourseList(current)), TimeConstraints(constraints))
  }

  /** The line `f"{i}. {course}"`. */
  function NumberedLine(i: nat, course: string): string {
    NatToString(i) + ". " + course
  }

  /** The number of decimal digits `s` starts with. */
  function DigitPrefix(s: string): (n: nat)
    ensures n <= |s| && AllDigits(s[..n])
    ensures n == |s| || !('0' <= s[n] <= '9')
  {
    if s != [] && '0' <= s[0] <= '9' then
      var k := DigitPrefix(s[1..]);
      assert s[1..][..k] == s[1..k + 1];
      1 + k
    else 0
  }

  /** Reading a displayed line back into its number and its course. */
  function ReadNumberedLine(line: string): Option<(nat, string)> {
    var n := DigitPrefix(line);
    if 0 < n && n + 2 <= |line| && line[n..n + 2] == ". " then Some((DigitsValue(line[..n]), line[n + 2..]))
    else None
  }

  lemma {:induction false} DigitPrefixOf(digits: string, rest: string)
    requires AllDigits(digits)
    requires rest != [] && !('0' <= rest[0] <= '9')
    ensures DigitPrefix(digits + rest) == |digits|
  {
    if digits != [] {
      assert (digits + rest)[1..] == digits[1..] + rest;
      DigitPrefixOf(digits[1..], rest);
    }
  }

  /** A numbered line shows its number and its course, and both can be read back. */
  lemma NumberedLineRoundTrip(i: nat, course: string)
    ensures ReadNumberedLine(NumberedLine(i, course)) == Some((i, course))
  {
    var digits := NatToString(i);
    var line := NumberedLine(i, course);
    DigitPrefixOf(digits, ". " + course);
    assert line == digits + (". " + course);
    assert line[..|digits|] == digits;
    assert line[|digits|..|digits| + 2] == ". ";
    assert line[|digits| + 2..] == course;
    NatToStringRoundTrip(i);
  }

  /** What `display_recommendations` shows below its header. */
  datatype Display = Unavailable | Listed(lines: seq<string>)

  /** Python truthiness of the recommendations: present and not empty. */
  predicate HasRecommendations(recommendations: Option<seq<string>>) {
    recommendations.Some? && recommendations.value != []
  }

  /** Line `i` shows the number `i + 1` and course `i`, for every course. */
  predicate NumberedList(lines: seq<string>, courses: seq<string>) {
    |lines| == |courses|
    && forall i :: 0 <= i < |lines| ==> ReadNumberedLine(lines[i]) == Some((i + 1, courses[i]))
  }

  /**
   * `display_recommendations`: the failure message for `None` or an empty
   * list; otherwise one line per recommendation, numbered from 1 in list
   * order.
   */
  method DisplayRecommendations(recommendations: Option<seq<string>>) returns (shown: Display)
    ensures shown.Listed? <==> HasRecommendations(recommendations)
    ensures shown.Listed? ==> NumberedList(shown.lines, recommendations.value)
  {
    if !HasRecommendations(recommendations) {
      return Unavailable;
    }
    var courses := recommendations.value;
    var lines: seq<string> := [];
    var i := 0;
    while i < |courses|
      invariant 0 <= i <= |courses| && |lines| == i
      invariant forall j :: 0 <= j < i ==> ReadNumberedLine(lines[j]) == Some((j + 1, courses[j]))
    {
      NumberedLineRoundTrip(i + 1, courses[i]);
      lines := lines + [NumberedLine(i + 1, courses[i])];
      i := i + 1;
    }
    return Listed(lines);
  }

  /** How a run of `main` ends: normally with the recommendations, on Ctrl-C, or on any other exception. */
  datatype RunOutcome = Completed(recommendations: Option<seq<string>>) | Interrupted | Crashed

  /** `main`'s exit code: 0 exactly when recommendations were produced, 1 in every other case. */
  function ExitCode(outcome: RunOutcome): (code: int)
    ensures code == 0 || code == 1
    ensures code == 0 <==> outcome.Completed? && HasRecommendations(outcome.recommendations)
  {
    match outcome
    case Completed(recommendations) => if HasRecommendations(recommendations) then 0 else 1
    case Interrupted => 1
    case Crashed => 1
  }

  /**
   * A run of `main` that ends normally: parse the four typed lines, ask for
   * recommendations, display them and return the exit code. The exit code
   * is 0 exactly when a numbered list is shown, and a blank retrieval
   * answer always ends in the failure message and exit code 1.
   */
  method Advise(name: string, completed: string, current: string, constraints: string,
                retrieve: StudentInfo -> Option<string>, format: string -> Option<ModelReply>)
    returns (shown: Display, code: int)
    ensures code == 0 <==> shown.Listed?
    ensures code == 0 || code == 1
    ensures
      var answer := retrieve(GetUserInput(name, completed, current, constraints));
      answer.None? || answer.value == "" ==> shown == Unavailable && code == 1
    ensures
      var recommendations := CallApi(GetUserInput(name, completed, current, constraints), retrieve, format);
      shown.Listed? ==> recommendations.Some? && NumberedList(shown.lines, recommendations.value)
  {
    var student := GetUserInput(name, completed, current, constraints);
    var recommendations := CallApi(student, retrieve, format);
    shown := DisplayRecommendations(recommendations);
    code := ExitCode(Completed(recommendations));
  }
}
