# AIAdvisor schedule core in Dafny

AIAdvisor helps a Computer Science student plan the next semester. It has
two parts. The first is a schedule generator that walks a nested course
catalog and gives every leaf course a few synthetic sections. The second is
a console advisor. It reads the courses a student has taken, asks AWS
Bedrock for a schedule, and prints the answer as a numbered list. This
project models both parts in Dafny and proves what each promises.

**The catalog walk** (module `Catalog`) is shared by the two copies of the
generator:

- `generate_schedule_with_times` in src/class_timings.py;
- `generate_schedule` in classTimings.py.

The catalog is a JSON-like value whose dicts are ordered lists of
(key, value) pairs, so iteration order, key tests and Python's exceptions
(`KeyError`, `TypeError`, `AttributeError`) are modelled exactly. The walk
goes category → subcategory or year → entry. It chooses a branch by the
marker keys inside a category's value, in this order: `class_options`,
`major_related_classes`, `major_related_paths`. A lab group (`courses`) and
a path requirement (`paths`) are replaced by their member courses.

**The two generators** (modules `ClassTimings` and `LegacyTimings`) keep
their loop structure. Each is proved against the walk: it completes exactly
when the walk does and every leaf is acceptable, and it then yields one
entry per leaf, in walk order.

- `ClassTimings` returns a copy of each course with `sections` set.
- `LegacyTimings` appends `{course, sections}` to a list object that the
  caller owns.

**Sections** (module `Sections`): section `k` has id `k`. Its day and slot
are drawn by nondeterministic choice, so every property holds for every
draw. An `MWF` section's slot comes from the MWF list and a `TTh` section's
slot from the TTh list.

**The constants and fixtures:**

- The slot lists and credit targets of src/config.py (`Config`).
- The catalog embedded in classTimings.py (`LegacyFixture`). The script's
  own run on it yields 47 entries and 141 sections.
- The catalog returned by `create_course_structure` in src/preprocess.py
  (`CourseStructure`). That catalog puts the year map and the path
  requirement directly under their category, one level above where the
  walk looks for the marker keys. So the walk expands only
  `general_education_classes`: 25 entries.

**The advisor** has three modules:

- `Advisor` models src/utils.py: the course-list texts, the scheduling
  prompt, the early `None` returns, and the normalisation of the
  formatting model's answer into clean lines. The two Bedrock calls are
  function parameters.
- `Cli` models src/main.py: the comma-list parsing, the time-constraint
  reading, the numbered display and the exit code.
- `StudentModel` models the `Student` class of models.py, a class whose
  constructor splits the classes-taken string on `", "`.

**String operations** (module `Text`): `strip`, `split`, `join`,
`splitlines`, `in` and `str(n)` are written out with Python's semantics
and their round trips proved. `Wrappers` and `JsonValues` hold the result
types and the catalog value type.

## Model

| member | source | states |
|---|---|---|
| Config.CreditThresholdsOrdered | src/config.py:23-25 | the credit constants are 12, 16 and 18, and MIN_CREDITS ≤ TARGET_MIN_CREDITS ≤ TARGET_MAX_CREDITS |
| Config.ClockMinutes | src/config.py:28-45 | a clock time read from a slot string is a minute of the day, from 0 to 1439 |
| Config.MwfSlotsAreTimetable | src/config.py:28-38 | there are 9 distinct MWF slot strings; slot i reads as interval i, each interval lasts 50 minutes, and each starts after the previous one ends |
| Config.TthSlotsAreTimetable | src/config.py:40-45 | there are 4 distinct TTh slot strings; slot i reads as interval i, each interval lasts 75 minutes, and each starts after the previous one ends |
| Config.TimetableIncreasing | src/config.py:28-45 | in a timetable, any earlier slot ends before any later slot starts |
| Config.TimetableDistinct | src/config.py:28-45 | the intervals of a timetable are pairwise distinct |
| Config.SlotListsDisjoint | src/config.py:28-45 | no slot string is in both lists |
| JsonValues.Get | src/class_timings.py:32-36 | a dict lookup finds a key exactly when the key is present, and returns a value paired with it |
| JsonValues.SetKey | src/class_timings.py:112-113 | after the assignment, the key holds the new value and every other key keeps its value; an existing key keeps its place and a new key goes last |
| Catalog.GatherConcat | src/class_timings.py:31-73 | a loop over `xs + ys` yields the leaves of `xs` then those of `ys`, and raises the first exception met |
| Catalog.FlattenCategoriesInOrder | src/class_timings.py:31-73 | the leaves of a catalog are those of its first categories followed by those of the rest, in order |
| Catalog.UnmarkedCategoryYieldsNothing | src/class_timings.py:32-73 | a category value with none of the three marker keys yields no leaves |
| Catalog.ClassOptionsTakesPrecedence | src/class_timings.py:32-49 | a category value holding `class_options` is walked by that branch alone, whatever other marker keys it holds |
| Catalog.LabGroupNotEmitted | src/class_timings.py:36-43 | a lab group with `courses` is never itself a leaf |
| Catalog.PathRequirementNotEmitted | src/class_timings.py:53-61 | a requirement with `paths` is never itself a leaf |
| Catalog.PlainOptionEntries | src/class_timings.py:44-47 | in a `class_options` list, plain courses are their own leaves, in order |
| Catalog.PlainMajorEntries | src/class_timings.py:62-65 | in a year list, plain courses are their own leaves, in order |
| Catalog.LabGroupIsTransparent | src/class_timings.py:35-47 | replacing a lab group by its member courses leaves the leaves and their order unchanged |
| Sections.SectionJsonRoundTrip | src/class_timings.py:103-109 | a section dict reads back to the same id, day type and slot |
| Sections.SectionJsonKeys | src/class_timings.py:103-109 | a section dict has exactly the keys `section_id`, `day_type` and `time_slot`, in that order |
| Sections.DrawSections | src/class_timings.py:94-109 | yields exactly n sections (none when n < 1) with ids 1..n in order, each slot from its day's list; raises IndexError only when it draws from an empty list, so it never fails when both lists are non-empty |
| Sections.SectionIdsOneToN | src/class_timings.py:94-109 | the ids of a draw are exactly 1..n, strictly increasing, with no gaps or repeats |
| Sections.DayFollowsSlot | src/class_timings.py:96-101 | when no slot is in both lists, a section is MWF exactly when its slot is in the MWF list, and TTh exactly when its slot is in the TTh list |
| ClassTimings.ScheduledCourse.ToJson | src/class_timings.py:111-115 | the emitted dict is the course with `sections` set: every other key keeps its value and its place |
| ClassTimings.AddCourseWithSections | src/class_timings.py:78-115 | succeeds exactly on a dict and then returns its copy with valid sections; a list raises TypeError and any other value raises AttributeError |
| ClassTimings.AddCourses | src/class_timings.py:38-43 | completes exactly when every course is a dict, and then schedules each one in order |
| ClassTimings.AddOptionEntries | src/class_timings.py:35-47 | completes exactly when the walk of the entries does with dict leaves, and then schedules those leaves in order |
| ClassTimings.AddOptionGroups | src/class_timings.py:34-47 | the same, for the subcategories of `class_options` |
| ClassTimings.AddPaths | src/class_timings.py:55-61 | the same, for the courses of a list of paths |
| ClassTimings.AddMajorEntries | src/class_timings.py:52-65 | the same, for the entries of one year |
| ClassTimings.AddYears | src/class_timings.py:51-65 | the same, for the years of `major_related_classes` |
| ClassTimings.AddCategory | src/class_timings.py:32-73 | the same, for one category value under the three-way dispatch |
| ClassTimings.GenerateScheduleWithTimes | src/class_timings.py:15-75 | completes exactly when the catalog walk completes with dict leaves; then the output has one entry per leaf, in walk order, each the leaf copied with valid sections |
| ClassTimings.ScheduleJson | src/class_timings.py:29-75 | the emitted list has one dict per scheduled course, in order |
| ClassTimings.EmittedEntryExtendsCourse | src/class_timings.py:94-115 | each emitted dict equals its source course except at `sections`, which holds sections with ids exactly 1..num_sections in order |
| ClassTimings.EmittedDayFollowsSlot | src/class_timings.py:96-101 | an emitted section is MWF exactly when its slot is in MWF_TIME_SLOTS, and TTh exactly when its slot is in TTH_TIME_SLOTS |
| LegacyTimings.SlotsAsConfigured | classTimings.py:5-14 | the script's slot lists equal the configured ones, with 9 distinct MWF slots and 4 distinct TTh slots, never shared |
| LegacyTimings.EntryKeys | classTimings.py:202-205 | an appended entry has only the keys `course` and `sections`; credits, semester and prereq are dropped |
| LegacyTimings.ScheduleList.constructor | classTimings.py:159 | the schedule list starts empty |
| LegacyTimings.AddSchedule | classTimings.py:185-205 | appends exactly one entry, named by the course's `course` value, with sections 1, 2 and 3 from the matching lists; earlier entries are unchanged; when it raises, nothing is appended |
| LegacyTimings.AddCourses | classTimings.py:165-166 | only appends; on success the appended entries correspond one to one with the courses, in order |
| LegacyTimings.AddOptionEntries | classTimings.py:163-168 | only appends; on success the appended entries correspond one to one with the walk's leaves, in order; it succeeds whenever every leaf has a `course` key and both slot lists are non-empty |
| LegacyTimings.AddOptionGroups | classTimings.py:162-168 | the same, for the subcategories of `class_options` |
| LegacyTimings.AddPaths | classTimings.py:173-175 | the same, for the courses of a list of paths |
| LegacyTimings.AddMajorEntries | classTimings.py:171-177 | the same, for the entries of one year |
| LegacyTimings.AddYears | classTimings.py:170-177 | the same, for the years of `major_related_classes` |
| LegacyTimings.AddCategory | classTimings.py:161-181 | the same, for one category value under the three-way dispatch |
| LegacyTimings.GenerateSchedule | classTimings.py:158-182 | on success, the walk completed and the result has one `{course, sections}` entry per leaf, in walk order; it succeeds whenever every leaf has a `course` key and both slot lists are non-empty |
| LegacyFixture.RowsHaveCourse | classTimings.py:17-155 | every course of the embedded catalog has a `course` key |
| LegacyFixture.NestedCatalogLeaves | classTimings.py:158-182 | a catalog nested the way the embedded one is walks all three branches: option courses, then year courses, then path courses |
| LegacyFixture.ClassOptionCount | classTimings.py:17-78 | `class_options` has 25 leaf courses |
| LegacyFixture.YearCount | classTimings.py:80-123 | the doubly nested `major_related_classes` has 16 leaf courses |
| LegacyFixture.PathCount | classTimings.py:125-155 | `major_related_paths` has 6 leaf courses |
| LegacyFixture.AllRowsCount | classTimings.py:17-155 | the embedded catalog has 47 leaf courses |
| LegacyFixture.InputDataLeaves | classTimings.py:17-182 | the walk of the embedded catalog completes with those 47 courses in order, each with a `course` key |
| LegacyFixture.UniformSectionTotal | classTimings.py:189-205 | with k sections per entry, a schedule holds k sections per entry in total |
| LegacyFixture.RunScript | classTimings.py:207-208 | the script's run yields 47 entries, 141 sections in all, the i-th named after the i-th leaf course with sections 1, 2 and 3 |
| CourseStructure.TopLevelKeys | src/preprocess.py:68-369 | the top-level keys are `general_education`, `general_education_classes`, `major_related_classes` and `major_related_paths`, in that order |
| CourseStructure.GenEdNames | src/preprocess.py:69-132 | the names of the six general-education requirement lists |
| CourseStructure.YearNames | src/preprocess.py:216-327 | the years are `first_year`, `sophomore_year`, `junior_year` and `senior_year` |
| CourseStructure.GenEdUnmarked | src/preprocess.py:69-132 | no general-education key is a marker key |
| CourseStructure.YearsUnmarked | src/preprocess.py:216-327 | no year key is a marker key |
| CourseStructure.RequirementUnmarked | src/preprocess.py:328-367 | the path requirement's own keys include no marker key |
| CourseStructure.ClassOptionCount | src/preprocess.py:133-215 | `class_options` has 25 leaf courses |
| CourseStructure.LabPairsShape | src/preprocess.py:153-178 | `natural_science_with_lab` holds three groups of exactly two courses each |
| CourseStructure.ChemistryLabCredits | src/preprocess.py:165 | "CH 1011 - General Chemistry Lab" carries 0 credits |
| CourseStructure.ComputingRequirementShape | src/preprocess.py:233-265 | "Introduction to Computing Requirement" has two paths of two courses each |
| CourseStructure.MajorPathsShape | src/preprocess.py:328-367 | `major_related_paths` has three paths of two courses each |
| CourseStructure.LaterYearsHavePrereqs | src/preprocess.py:267-326 | every sophomore, junior and senior course has a one-element `prereq` list |
| CourseStructure.OnlySecondCategory | src/class_timings.py:31-73 | when only the second of four categories yields leaves, the catalog yields exactly those |
| CourseStructure.FlatCatalogLeaves | src/class_timings.py:31-73 | a catalog laid out like this one yields only its `class_options` courses, because the other categories hold no marker key where the walk looks |
| CourseStructure.StructureLeaves | src/preprocess.py:61-370 | the walk of `create_course_structure()` completes with exactly the 25 `class_options` courses, in order |
| CourseStructure.ScheduledRows | src/class_timings.py:111-115 | scheduled copies of these courses keep every course pair, one entry per course |
| CourseStructure.ScheduleCourseStructure | src/class_timings.py:164-180 | generating with 3 sections yields 25 entries, each a course of `class_options` in order, with sections 1, 2 and 3 |
| Text.Strip | src/main.py:32 | the result of `strip()` neither starts nor ends with whitespace, and is no longer than the input |
| Text.StripShape | src/main.py:41 | the input is the stripped text with only whitespace before and after it |
| Text.StripIdempotent | src/main.py:41 | stripping twice is stripping once |
| Text.StripBlank | src/main.py:42 | a string strips to "" exactly when it is all whitespace |
| Text.JoinSplit | models.py:15 | joining a split with the same separator gives back the string |
| Text.SplitCount | models.py:15 | a split yields one piece more than there are separator occurrences |
| Text.SplitJoin | src/main.py:41 | splitting a join of pieces that do not contain the separator gives back the pieces |
| Text.NatToStringRoundTrip | src/main.py:97 | the decimal digits of a number read back to that number |
| Text.SplitLines | src/utils.py:222 | no line of `splitlines()` contains a line break |
| Text.SplitLinesJoin | src/utils.py:222 | lines without breaks, joined by newlines, split back into the same lines |
| Text.StripNonBlank | src/utils.py:219 | the kept pieces are non-empty, stripped, and no more than the pieces |
| Text.StripNonBlankSelects | src/main.py:41 | the kept pieces are exactly the non-blank stripped pieces, in input order |
| Text.StripNonBlankKeeps | src/utils.py:219 | clean lines pass through stripping and filtering unchanged |
| Advisor.CourseListText | src/utils.py:44-45 | the list text is "None" exactly when the list is empty |
| Advisor.CourseListTextRoundTrip | src/utils.py:44-45 | the list text of courses without newlines reads back to the same courses, in order |
| Advisor.CreditClauses | src/utils.py:88-90 | the prompt asks for "at least 16 credits" and to "aim for 16-18", from the configured targets |
| Advisor.CreditRule | src/utils.py:88-90 | item 5 of the prompt contains both credit clauses |
| Advisor.Assemble | src/utils.py:71-95 | every section of the prompt occurs in it verbatim |
| Advisor.SchedulePrompt | src/utils.py:65-95 | the prompt contains both course-list texts, the constraint text and the credit rule |
| Advisor.PromptFor | src/utils.py:39-50 | the prompt sent for a student shows that student's completed and current lists and time constraints |
| Advisor.SectionsShowNone | src/utils.py:39-77 | an absent or empty course list shows as "None" in its section, absent or empty time constraints show as "None", and other time constraints verbatim |
| Advisor.Chosen | src/utils.py:207-211 | `generation or output or text`: `generation` when it is truthy, else `output` when that is truthy, else `text`; the choice is truthy exactly when one of the three is |
| Advisor.NormalisedLines | src/utils.py:218-222 | the normalised lines are non-empty and stripped, for both generation shapes |
| Advisor.NormalisedLinesInOrder | src/utils.py:218-222 | the normalised lines are exactly the non-blank stripped pieces of the generation, in order |
| Advisor.NormalisedLinesRoundTrip | src/utils.py:218-222 | clean lines come back unchanged, whether the model returns them as a list or as newline-separated text |
| Advisor.ListFromReply | src/utils.py:207-224 | there is a list exactly when the model answered with a truthy generation, and it is the normalised lines of the chosen generation |
| Advisor.CreateList | src/utils.py:147-224 | an empty response gives None without using the model; otherwise the result is what the model's answer to the formatting prompt yields; any list returned is clean |
| Advisor.ListFromRetrieval | src/utils.py:53-62 | no retrieved text or empty text gives None; otherwise the result is `create_list` of the retrieved text |
| Advisor.CallApi | src/utils.py:26-62 | the result is `None` for a blank retrieval answer and otherwise `create_list` of that answer; recommendations exist only when retrieval returned non-empty text, and they are clean lines |
| Advisor.CallApiNormalises | src/utils.py:26-62 | when retrieval returns non-empty text and the formatting model answers it with a truthy generation, `call_api` returns that generation's normalised lines |
| Cli.ParseCourseList | src/main.py:39-44 | the parsed courses are non-empty and stripped; blank input gives [] |
| Cli.ParsedCoursesInOrder | src/main.py:39-44 | the parsed courses are the comma-separated pieces of the input, each trimmed, blank ones dropped, in input order |
| Cli.ParseJoinedCourses | src/main.py:35-44 | courses typed as "A, B, C" parse back to exactly those courses |
| Cli.TimeConstraints | src/main.py:63 | blank input gives None; any other input is kept, trimmed |
| Cli.GetUserInput | src/main.py:17-73 | the student dictionary has the trimmed name, the completed and current lists parsed from their own input lines, and the time constraints read from theirs (None exactly for blank input) |
| Cli.DigitPrefix | src/main.py:97 | the leading digits of a line are found, and the character after them is not a digit |
| Cli.NumberedLineRoundTrip | src/main.py:96-97 | a line `"{i}. {course}"` reads back to i and the course |
| Cli.DisplayRecommendations | src/main.py:90-97 | None or [] shows the failure message; otherwise line i shows number i + 1 and the i-th course, for every course |
| Cli.ExitCode | src/main.py:127-135 | the exit code is 0 or 1, and 0 exactly when the run completed with a non-empty list |
| Cli.Advise | src/main.py:102-135 | the lines shown are the recommendations `call_api` returns for the parsed input, numbered from 1; the exit code is 0 exactly when they are shown; a blank retrieval answer always gives the failure message and code 1 |
| StudentModel.Student.constructor | models.py:12-16 | stores the name and constraints unchanged, and the classes split on ", " |
| StudentModel.Student.GetClassesTaken | models.py:18-19 | returns the stored list, which joins back with ", " into the constructor string and has one entry more than that string has separators |
| StudentModel.Student.GetTimeConstraints | models.py:21-22 | returns the constructor argument unchanged |
| StudentModel.ClassesTakenRoundTrip | models.py:12-19 | building a student and reading back the classes gives the split of the string, which rejoins to it |

## Left out

- PDF text extraction (`extract_text_from_pdf` and the preprocess scripts) is left out: it calls the third-party pdfplumber library and reads files.
- Loading and saving JSON (`load_course_data`, `save_schedule`, `save_course_structure`, the script's final dump) is file I/O and is left out. `ScheduleCourseStructure` starts from the catalog value itself.
- The AWS Bedrock calls (`retrieve_and_generate` and the `invoke_model` request, body reading and JSON decoding in `create_list`) are foreign network clients. They are function parameters: `retrieve` answers for a student and `format` returns the decoded reply, or None when the call raised.
- Advisor.CallApi: retrieval is a function of the student, not of the prompt text. `call_api` sends nothing but `PromptFor(student)`, so the result is fully determined, but the contract does not mention the prompt.
- The Flask front end (frontend/app.py) and its catalog literal are left out. That literal has repeated and misspelt keys that the walk would reject.
- The probabilities of the random draws (a fair day choice, uniform slots) are left out: only which values a draw can produce is modelled.
- `input()`, `print`, logging and the float parameters TEMPERATURE and TOP_P are left out. The typed lines are parameters, and the displayed body is a result.
- Cli.DisplayRecommendations: the header, the student's name and the closing rule are not modelled, only the numbered lines and the failure case.
- Advisor.NormalisedLines: `str(item)` of list items that are not strings (numbers, nested lists) is not modelled; the items are strings.
- Advisor.StudentInfo: a missing key and a None value are one case, since `call_api` treats them alike. Missing `name`, `completed_courses` and `current_courses` keys in `main` cannot happen, because `get_user_input` always sets them.
- Cli.Advise: an exception raised inside the run is not modelled in `Advise`; `ExitCode` covers the interrupted and crashed outcomes.
- `Student.__str__` is left out, because it prints Python's list repr with its quote escaping.
- The `num_sections=3` default is not modelled: callers pass the count.
- The catalog fixtures are built from small tables of rows, groups and entries, not written out as nested literals. Their credits are natural numbers.
- `Text.IsWhitespace` follows `str.isspace()` for the characters it names; the Unicode database itself is not modelled.
