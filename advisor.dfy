/**
 * The parts of src/utils.py that do not talk to AWS Bedrock: the empty-list
 * guards and bullet lists of `call_api`, the prompt of
 * `_build_schedule_prompt`, the early `None` returns, and the line
 * normalisation at the end of `create_list`. The two Bedrock calls are
 * parameters: `retrieve` stands for `retrieve_and_generate` on the
 * knowledge base, answering the student's prompt, and `format` for the
 * formatting model behind `invoke_model`, answering the formatting prompt.
 */
module Advisor {
  import opened Wrappers
  import opened Text
  import opened Config

  /**
   * The student dictionary `call_api` reads. A missing key and a `None`
   * value both read as `None` here, since `call_api` treats them alike.
   */
  datatype StudentInfo = StudentInfo(
    name: string,
    completedCourses: Option<seq<string>>,
    currentCourses: Option<seq<string>>,
    timeConstraints: Option<string>)

  /** `student.get(key, []) or []`: an absent or empty course list reads as []. */
  function OrEmpty(courses: Option<seq<string>>): seq<string> {
    if courses.Some? then courses.value else []
  }

  /** Each course rendered as the bullet `"- " + c`. */
  function Bulleted(courses: seq<string>): seq<string> {
    seq(|courses|, i requires 0 <= i < |courses| => "- " + courses[i])
  }

  /**
   * `"\n".join(f"- {c}" for c in courses) if courses else "None"`. The text
   * is "None" exactly for the empty list, since a bullet list starts with '-'.
   */
  function CourseListText(courses: seq<string>): (text: string)
    ensures text == "None" <==> courses == []
  {
    if courses == [] then "None"
    else
      var text := Join(Bulleted(courses), "\n");
      assert text[0] == '-';
      text
  }

  /** A bullet line without its `"- "` marker. */
  function Unbullet(line: string): string {
    if |line| >= 2 && line[..2] == "- " then line[2..] else line
  }

  /** Reading a course-list text back into the courses it shows. */
  function CourseListEntries(text: string): (courses: seq<string>)
    ensures text == "None" ==> courses == []
  {
    if text == "None" then []
    else
      var lines := Split(text, "\n");
      seq(|lines|, i requires 0 <= i < |lines| => Unbullet(lines[i]))
  }

  /** The course-list text shows every course, in order, for courses without a newline. */
  lemma CourseListTextRoundTrip(courses: seq<string>)
    requires forall i :: 0 <= i < |courses| ==> Excludes(courses[i], '\n')
    ensures CourseListEntries(CourseListText(courses)) == courses
  {
    if courses != [] {
      var bullets := Bulleted(courses);
      forall i | 0 <= i < |bullets|
        ensures Excludes(bullets[i], '\n') && Unbullet(bullets[i]) == courses[i]
      {
        assert bullets[i][..2] == "- ";
        assert bullets[i][2..] == courses[i];
      }
      SplitJoin(bullets, '\n');
    }
  }

  /** `time_constraints or 'None'`. */
  function ConstraintText(timeConstraints: Option<string>): string {
    if timeConstraints.Some? && timeConstraints.value != "" then timeConstraints.value else "None"
  }

  /** Adjacent string literals, as Python concatenates them. */
  function Concat(parts: seq<string>): string {
    if parts == [] then "" else Concat(parts[..|parts| - 1]) + parts[|parts| - 1]
  }

  const PROMPT_INTRO: string := Concat([
    "I am currently planning my class schedule for the next semester. ",
    "Here is a list of courses I have already completed or am currently enrolled in. ",
    "Use this to determine which courses I am eligible to take:\n\n"])

  const PROMPT_TASK: string := Concat([
    "**Class Offerings for the Next Semester:** ",
    "[Provide the list of available courses in JSON format]\n\n",
    "**Task:** Based on the courses I have already completed and the available ",
    "class offerings for the next semester, create a class schedule for me. ",
    "Please make sure to:\n",
    "1. Recommend only those courses for which I meet the prerequisites.\n",
    "2. Ensure no recommended courses have overlapping class times.\n",
    "3. Align your recommendations with my current academic progress and graduation year.\n",
    "4. Ensure the schedule is appropriate for my academic standing and does not ",
    "include courses I'm not eligible to take.\n"])

  const PROMPT_PREREQUISITES: string := Concat([
    "6. If a course has prerequisites, only recommend it if I have already completed ",
    "or am currently enrolled in those prerequisites.\n",
    "7. Do not recommend any course that requires a prerequisite I have not taken ",
    "or am not currently enrolled in."])

  /** The credit floor as the prompt words it. */
  function MinimumClause(): string {
    "at least " + NatToString(TARGET_MIN_CREDITS) + " credits"
  }

  /** The credit range as the prompt words it. */
  function RangeClause(): string {
    "aim for " + NatToString(TARGET_MIN_CREDITS) + "-" + NatToString(TARGET_MAX_CREDITS)
  }

  /** The prompt asks for at least 16 credits and a 16-18 credit range, the configured targets. */
  lemma CreditClauses()
    ensures MinimumClause() == "at least 16 credits"
    ensures RangeClause() == "aim for 16-18"
  {
    assert NatToString(16) == "16" && NatToString(18) == "18";
  }

  /** Item 5 of the prompt's numbered list, built from the configured credit targets. */
  function CreditRule(): (rule: string)
    ensures IsSubstring(MinimumClause(), rule) && IsSubstring(RangeClause(), rule)
  {
    var head := "5. Ensure that your recommended schedule is ";
    var middle := ", use the credit information for each class and ";
    var tail := " while staying within the requirements.\n";
    var rule := head + MinimumClause() + middle + RangeClause() + tail;
    SubstringAtEnd(head, MinimumClause());
    SubstringExtended(MinimumClause(), head + MinimumClause(), middle);
    SubstringExtended(MinimumClause(), head + MinimumClause() + middle, RangeClause());
    SubstringExtended(MinimumClause(), head + MinimumClause() + middle + RangeClause(), tail);
    SubstringAtEnd(head + MinimumClause() + middle, RangeClause());
    SubstringExtended(RangeClause(), head + MinimumClause() + middle + RangeClause(), tail);
    rule
  }

  function CompletedSection(completedText: string): string {
    "**Completed Courses:**\n" + completedText + "\n\n"
  }

  function CurrentSection(currentText: string): string {
    "**Currently Enrolled Courses:**\n" + currentText + "\n\n"
  }

  function ConstraintSection(timeConstraints: Option<string>): string {
    "**Time Constraints:** " + ConstraintText(timeConstraints) + "\n\n"
  }

  /**
   * The prompt's layout: fixed text, the two course-list sections, the
   * constraint section, more fixed text, the credit rule and the closing
   * text, in that order. Each section occurs in the result verbatim.
   */
  function Assemble(intro: string, completed: string, current: string, constraint: string,
                    task: string, rule: string, closing: string): (prompt: string)
    ensures IsSubstring(completed, prompt) && IsSubstring(current, prompt)
    ensures IsSubstring(constraint, prompt) && IsSubstring(rule, prompt)
  {
    var upToCompleted := intro + completed;
    var upToCurrent := upToCompleted + current;
    var upToConstraint := upToCurrent + constraint;
    var upToTask := upToConstraint + task;
    var upToRule := upToTask + rule;
    SubstringAtEnd(intro, completed);
    SubstringExtended(completed, upToCompleted, current);
    SubstringAtEnd(upToCompleted, current);
    SubstringExtended(completed, upToCurrent, constraint);
    SubstringExtended(current, upToCurrent, constraint);
    SubstringAtEnd(upToCurrent, constraint);
    SubstringExtended(completed, upToConstraint, task);
    SubstringExtended(current, upToConstraint, task);
    SubstringExtended(constraint, upToConstraint, task);
    SubstringExtended(completed, upToTask, rule);
    SubstringExtended(current, upToTask, rule);
    SubstringExtended(constraint, upToTask, rule);
    SubstringAtEnd(upToTask, rule);
    SubstringExtended(completed, upToRule, closing);
    SubstringExtended(current, upToRule, closing);
    SubstringExtended(constraint, upToRule, closing);
    SubstringExtended(rule, upToRule, closing);
    upToRule + closing
  }

  /**
   * `_build_schedule_prompt`: the prompt shows both course-list texts and the
   * time constraints (or "None") verbatim, and it states the credit target.
   */
  function SchedulePrompt(completedText: string, currentText: string, timeConstraints: Option<string>): (prompt: string)
    ensures IsSubstring(CompletedSection(completedText), prompt)
    ensures IsSubstring(CurrentSection(currentText), prompt)
    ensures IsSubstring(ConstraintSection(timeConstraints), prompt)
    ensures IsSubstring(CreditRule(), prompt)
  {
    Assemble(PROMPT_INTRO, CompletedSection(completedText), CurrentSection(currentText),
      ConstraintSection(timeConstraints), PROMPT_TASK, CreditRule(), PROMPT_PREREQUISITES)
  }

  /** The prompt `call_api` sends for a student. */
  function PromptFor(student: StudentInfo): (prompt: string)
    ensures IsSubstring(CompletedSection(CourseListText(OrEmpty(student.completedCourses))), prompt)
    ensures IsSubstring(CurrentSection(CourseListText(OrEmpty(student.currentCourses))), prompt)
    ensures IsSubstring(ConstraintSection(student.timeConstraints), prompt)
  {
    SchedulePrompt(
      CourseListText(OrEmpty(student.completedCourses)),
      CourseListText(OrEmpty(student.currentCourses)),
      student.timeConstraints)
  }

  /**
   * What the prompt's sections show for missing data: an absent or empty
   * course list and absent or empty time constraints all read "None"; other
   * time constraints appear verbatim. `PromptFor` contains each section.
   */
  lemma SectionsShowNone(student: StudentInfo)
    ensures student.completedCourses.None? || student.completedCourses == Some([]) ==>
      CompletedSection(CourseListText(OrEmpty(student.completedCourses))) == "**Completed Courses:**\nNone\n\n"
    ensures student.currentCourses.None? || student.currentCourses == Some([]) ==>
      CurrentSection(CourseListText(OrEmpty(student.currentCourses))) == "**Currently Enrolled Courses:**\nNone\n\n"
    ensures student.timeConstraints.None? || student.timeConstraints == Some("") ==>
      ConstraintSection(student.timeConstraints) == "**Time Constraints:** None\n\n"
    ensures student.timeConstraints.Some? && student.timeConstraints.value != "" ==>
      ConstraintSection(student.timeConstraints) == "**Time Constraints:** " + student.timeConstraints.value + "\n\n"
  {
  }

  /** A generation as the formatting model returns it: one text or a list of items. */
  datatype Generation = GenText(text: string) | GenList(items: seq<string>)

  /** The reply body's `generation`, `output` and `text` entries; `None` is absent or null. */
  datatype ModelReply = ModelReply(
    generation: Option<Generation>,
    output: Option<Generation>,
    text: Option<Generation>)

  /** Python truthiness of a reply entry. */
  predicate Truthy(g: Option<Generation>) {
    g.Some? && match g.value
      case GenText(t) => t != ""
      case GenList(items) => items != []
  }

  /** `generation or output or text`: the first truthy entry, else the last one. */
  function Chosen(reply: ModelReply): (g: Option<Generation>)
    ensures Truthy(g) <==> Truthy(reply.generation) || Truthy(reply.output) || Truthy(reply.text)
    ensures Truthy(reply.generation) ==> g == reply.generation
    ensures !Truthy(reply.generation) && Truthy(reply.output) ==> g == reply.output
    ensures !Truthy(reply.generation) && !Truthy(reply.output) ==> g == reply.text
  {
    if Truthy(reply.generation) then reply.generation
    else if Truthy(reply.output) then reply.output
    else reply.text
  }

  /** The pieces a generation is cut into before normalising: its items, or its text's lines. */
  function Pieces(gen: Generation): seq<string> {
    match gen
    case GenList(items) => items
    case GenText(t) => SplitLines(t)
  }

  /** `[p.strip() for p in pieces if p.strip()]` over the pieces of a generation. */
  function NormalisedLines(gen: Generation): (lines: seq<string>)
    ensures CleanLines(lines)
  {
    StripNonBlank(Pieces(gen))
  }

  /** The normalised lines are the non-blank pieces of the generation, stripped, in order. */
  lemma NormalisedLinesInOrder(gen: Generation)
    ensures SelectedBy(Positions(StripEach(Pieces(gen))), NormalisedLines(gen), StripEach(Pieces(gen)))
  {
    StripNonBlankSelects(Pieces(gen));
  }

  /** Clean lines come back unchanged, whether the model lists them or writes them one per line. */
  lemma NormalisedLinesRoundTrip(lines: seq<string>)
    requires |lines| >= 1
    requires CleanLines(lines)
    requires forall i :: 0 <= i < |lines| ==> NoLineBreak(lines[i])
    ensures NormalisedLines(GenList(lines)) == lines
    ensures NormalisedLines(GenText(Join(lines, "\n"))) == lines
  {
    SplitLinesJoin(lines);
    StripNonBlankKeeps(lines);
  }

  /** The prompt `create_list` wraps the retrieved text in for the formatting model. */
  function FormattingPrompt(response: string): string {
    "<|begin_of_text|><|start_header_id|>user<|end_header_id|>\n"
    + "Create a list from this data providing the class numbers and class times "
    + "with each class's data on a separate line: " + response + "\n"
    + "<|eot_id|>\n"
    + "<|start_header_id|>assistant<|end_header_id|>"
  }

  /**
   * The tail of `create_list` once the formatting model has answered:
   * `None` when the call failed or the reply has no truthy generation,
   * otherwise the normalised lines of the chosen generation.
   */
  function ListFromReply(answer: Option<ModelReply>): (lines: Option<seq<string>>)
    ensures lines.Some? <==> answer.Some? && Truthy(Chosen(answer.value))
    ensures lines.Some? ==> CleanLines(lines.value)
    ensures lines.Some? ==> lines.value == NormalisedLines(Chosen(answer.value).value)
  {
    match answer
    case None => None
    case Some(reply) =>
      var gen := Chosen(reply);
      if Truthy(gen) then Some(NormalisedLines(gen.value)) else None
  }

  /**
   * `create_list`: `None` for an empty response, whatever the formatting
   * model would answer; otherwise what the model's answer to the formatting
   * prompt yields.
   */
  function CreateList(response: string, format: string -> Option<ModelReply>): (lines: Option<seq<string>>)
    ensures response == "" ==> lines == None
    ensures response != "" ==> lines == ListFromReply(format(FormattingPrompt(response)))
    ensures lines.Some? ==> CleanLines(lines.value)
  {
    if response == "" then None
    else ListFromReply(format(FormattingPrompt(response)))
  }

  /** The tail of `call_api` once retrieval has answered: `None` for no answer or "". */
  function ListFromRetrieval(retrieved: Option<string>, format: string -> Option<ModelReply>): (recommendations: Option<seq<string>>)
    ensures retrieved.None? || retrieved.value == "" ==> recommendations == None
    ensures retrieved.Some? && retrieved.value != "" ==> recommendations == CreateList(retrieved.value, format)
    ensures recommendations.Some? ==> CleanLines(recommendations.value)
  {
    if retrieved.None? || retrieved.value == "" then None
    else CreateList(retrieved.value, format)
  }

  /**
   * When retrieval answers with text and the formatting model answers with a
   * truthy generation, `call_api` returns that generation's normalised lines.
   */
  lemma CallApiNormalises(student: StudentInfo, retrieve: StudentInfo -> Option<string>,
                          format: string -> Option<ModelReply>, retrieved: string, reply: ModelReply)
    requires retrieve(student) == Some(retrieved) && retrieved != ""
    requires format(FormattingPrompt(retrieved)) == Some(reply) && Truthy(Chosen(reply))
    ensures CallApi(student, retrieve, format) == Some(NormalisedLines(Chosen(reply).value))
  {
  }

  /**
   * `call_api`: `None` whenever retrieval gives nothing or "", otherwise the
   * formatted list of the retrieved text. `retrieve(student)` is what
   * `retrieve_and_generate` answers to `PromptFor(student)`, the only thing
   * `call_api` sends it.
   */
  function CallApi(student: StudentInfo, retrieve: StudentInfo -> Option<string>, format: string -> Option<ModelReply>)
    : (recommendations: Option<seq<string>>)
    ensures recommendations.Some? ==>
      && retrieve(student).Some? && retrieve(student).value != ""
      && CleanLines(recommendations.value)
    ensures recommendations == ListFromRetrieval(retrieve(student), format)
  {
    ListFromRetrieval(retrieve(student), format)
  }
}
