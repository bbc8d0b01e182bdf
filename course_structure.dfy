/**
 * The Computer Science BS catalog that `create_course_structure` of
 * src/preprocess.py returns, and what `generate_schedule_with_times` of
 * src/class_timings.py makes of it. This catalog keeps the year map and the
 * path requirement directly under their category, one level above where the
 * walk looks for its marker keys, and `general_education` has no marker key
 * at all: only `general_education_classes` is ever expanded.
 */
module CourseStructure {
  import opened Wrappers
  import opened JsonValues
  import opened Catalog
  import opened CatalogData
  import opened Sections
  import opened Config
  import opened ClassTimings

  /** `general_education`: six requirement lists, each course placed in a semester. */
  const GEN_ED_TABLE: seq<(string, OptionList)> := [
    ("arts_and_humanities", Courses([
      Term("Arts and Humanities (Non-Literature)", 3, "First Semester - Second Year"),
      Term("Arts and Humanities (Literature)", 3, "First Semester - Sophomore Year")])),
    ("natural_science", Courses([
      Term("Natural Science Requirement", 4, "First Semester - Freshman Year"),
      Term("Natural Science Requirement", 4, "Second Semester - Freshman Year")])),
    ("oral_communication", Courses([
      Term("Oral Communication Requirement", 3, "First Semester - Sophomore Year")])),
    ("social_science", Courses([
      Term("Social Science Requirement", 3, "First Semester - Junior Year"),
      Term("Social Science Requirement", 3, "Second Semester - Junior Year")])),
    ("global_challenges", Courses([
      Term("Global Challenges Requirement", 3, "First Semester - Junior Year"),
      Term("Global Challenges Requirement", 3, "Second Semester - Senior Year")])),
    ("writing", Courses([
      Term("Writing Requirement", 3, "First Semester - Senior Year")]))]

  /** `general_education_classes.class_options`: nine subcategories, the fourth a list of lab pairs. */
  const CLASS_OPTION_TABLE: seq<(string, OptionList)> := [
    ("arts_and_humanities_non_lit", Courses([
      Plain("MUSC 2100 - Music in the Western World", 3),
      Plain("THEA 2100 - Theatre Appreciation", 3),
      Plain("ARTS 2100 - Art Appreciation", 3)])),
    ("arts_and_humanities_lit", Courses([
      Plain("ENGL 2120 - World Literature", 3),
      Plain("ENGL 2130 - British Literature", 3),
      Plain("ENGL 2140 - American Literature", 3)])),
    ("oral_communication_requirement", Courses([
      Plain("COMM 1500 - Introduction to Human Communication", 3),
      Plain("COMM 2500 - Public Speaking", 3),
      Plain("ENGL 1030 - Composition and Rhetoric", 3)])),
    ("natural_science_with_lab", LabPairs([
      Group("BIOL 1030/1050", [
        Plain("BIOL 1030 - General Biology I", 3),
        Plain("BIOL 1050 - General Biology Lab", 1)]),
      Group("CH 1010/1011", [
        Plain("CH 1010 - General Chemistry", 4),
        Plain("CH 1011 - General Chemistry Lab", 0)]),
      Group("PHYS 1220/1240", [
        Plain("PHYS 1220 - Physics with Calculus I", 3),
        Plain("PHYS 1240 - Physics Laboratory I", 1)])])),
    ("social_sciences", Courses([
      Plain("ANTH 2010 - Introduction to Anthropology", 3),
      Plain("GEOG 1010 - Introduction to Geography", 3),
      Plain("POSC 1010 - American National Government", 3)])),
    ("global_challenges", Courses([
      Plain("ENGL 2120 - World Literature", 3),
      Plain("ENGL 2130 - British Literature", 3),
      Plain("ENGL 2140 - American Literature", 3)])),
    ("cross_cultural_awareness", Courses([
      Plain("MUSC 3140 - World Music", 3)])),
    ("science_and_technology_in_society", Courses([
      Plain("ENGR 2210 - Technology, Culture and Design", 3)])),
    ("mathematics", Courses([
      Plain("MATH 1060 - Calculus of One Variable I", 4),
      Plain("MATH 1080 - Calculus of One Variable II", 4)]))]

  /** `major_related_classes`: the year map, its first year ending with the computing requirement. */
  const YEAR_TABLE: seq<(string, seq<YearEntry>)> := [
    ("first_year", [
      Single(Term("ENGL 1030 - Composition and Rhetoric", 3, "First Semester - Freshman Year")),
      Single(Term("MATH 1060 - Calculus of One Variable I", 4, "First Semester - Freshman Year")),
      Single(Term("MATH 1080 - Calculus of One Variable II", 4, "Second Semester - Freshman Year")),
      WithPaths(Term("Introduction to Computing Requirement", 4, "First/Second Semester - Freshman Year"), [
        Group("CPSC 1010/1020", [
          Plain("CPSC 1010 - Introduction to Computing I", 4),
          Plain("CPSC 1020 - Introduction to Computing II", 4)]),
        Group("CPSC 1060/1070", [
          Plain("CPSC 1060 - Introduction to Programming", 4),
          Plain("CPSC 1070 - Programming Methodology", 4)])])]),
    ("sophomore_year", [
      Single(Prereq("CPSC 2070 - Discrete Structures for Computing", 3, "First Semester - Sophomore Year", "MATH 1060")),
      Single(Prereq("CPSC 2120 - Algorithms and Data Structures", 4, "First Semester - Sophomore Year", "CPSC 2070")),
      Single(Prereq("CPSC 2150 - Software Development Foundations", 3, "Second Semester - Sophomore Year", "CPSC 2120")),
      Single(Prereq("CPSC 2310 - Introduction to Computer Organization", 4, "Second Semester - Sophomore Year", "CPSC 2120"))]),
    ("junior_year", [
      Single(Prereq("CPSC 3720 - Introduction to Software Engineering", 3, "First Semester - Junior Year", "CPSC 2120")),
      Single(Prereq("CPSC 3220 - Advanced Systems", 3, "First Semester - Junior Year", "CPSC 2120")),
      Single(Prereq("CPSC 4030 - Data Science and Artificial Intelligence", 3, "Second Semester - Junior Year", "CPSC 2120"))]),
    ("senior_year", [
      Single(Prereq("CPSC 4910 - Senior Computing Practicum", 3, "Second Semester - Senior Year", "CPSC 3720")),
      Single(Prereq("CPSC 3520 - Programming Systems", 3, "First Semester - Senior Year", "CPSC 3720"))])]

  /** `major_related_paths`: the path requirement itself, with three paths of two courses. */
  const PATH_REQUIREMENT_HEADER: Row :=
    Term("Computer Science Path Requirement", 6, "Second Semester - Junior and Senior Year")

  const MAJOR_PATHS: seq<Group> := [
    Group("Advanced Systems", [
      Plain("CPSC 3220 - Introduction to Operating Systems", 3),
      Plain("CPSC 3600 - Network Programming", 3)]),
    Group("Intelligent Computing", [
      Plain("CPSC 4030 - Machine Learning", 3),
      Plain("CPSC 4300 - Artificial Intelligence", 3)]),
    Group("Interactive Systems", [
      Plain("CPSC 3750 - Human-Computer Interaction", 3),
      Plain("CPSC 4110 - Game Development", 3)])]

  /**
   * The catalog's layout: four categories, of which only the second holds a
   * marker key; the year map and the path requirement are the category
   * values themselves.
   */
  function FlatCatalog(genEd: seq<(string, OptionList)>, options: seq<(string, OptionList)>,
                       years: seq<(string, seq<YearEntry>)>, header: Row, paths: seq<Group>): Json {
    Obj([
      ("general_education", Obj(OptionsJson(genEd))),
      ("general_education_classes", Obj([("class_options", Obj(OptionsJson(options)))])),
      ("major_related_classes", Obj(YearsJson(years))),
      ("major_related_paths", EntryJson(WithPaths(header, paths)))])
  }

  /** `create_course_structure()`. */
  const COURSE_STRUCTURE: Json :=
    FlatCatalog(GEN_ED_TABLE, CLASS_OPTION_TABLE, YEAR_TABLE, PATH_REQUIREMENT_HEADER, MAJOR_PATHS)

  /** None of the walk's three marker keys is among `keys`. */
  predicate Unmarked(keys: seq<string>) {
    "class_options" !in keys && "major_related_classes" !in keys && "major_related_paths" !in keys
  }

  /** A requirement dict has the keys of its header course and `paths`: no marker key. */
  lemma RequirementUnmarked(header: Row, paths: seq<Group>)
    ensures Unmarked(Keys(EntryJson(WithPaths(header, paths)).fields))
  {
    var fields := EntryJson(WithPaths(header, paths)).fields;
    match header
    case Plain(n, c) => assert Keys(fields) == ["course", "credits", "paths"];
    case Term(n, c, s) => assert Keys(fields) == ["course", "credits", "semester", "paths"];
    case Prereq(n, c, s, p) => assert Keys(fields) == ["course", "credits", "semester", "prereq", "paths"];
  }

  /** Four categories of which only the second yields anything yield what the second yields. */
  lemma OnlySecondCategory(a: (string, Json), b: (string, Json), c: (string, Json), d: (string, Json))
    requires CategoryLeaves(a) == Success([]) && CategoryLeaves(b).Success?
    requires CategoryLeaves(c) == Success([]) && CategoryLeaves(d) == Success([])
    ensures Gather([a, b, c, d], CategoryLeaves) == CategoryLeaves(b)
  {
    GatherSingle(d, CategoryLeaves);
    GatherCons(c, [d], CategoryLeaves);
    assert [c, d] == [c] + [d];
    GatherCons(b, [c, d], CategoryLeaves);
    assert [b, c, d] == [b] + [c, d];
    GatherCons(a, [b, c, d], CategoryLeaves);
    assert [a, b, c, d] == [a] + [b, c, d];
    assert [] + (CategoryLeaves(b).value + ([] + [])) == CategoryLeaves(b).value;
  }

  /**
   * In this layout the walk yields the `class_options` courses and nothing
   * else, whenever no requirement list and no year is named like a marker key.
   */
  lemma FlatCatalogLeaves(genEd: seq<(string, OptionList)>, options: seq<(string, OptionList)>,
                          years: seq<(string, seq<YearEntry>)>, header: Row, paths: seq<Group>)
    requires Unmarked(Names(genEd)) && Unmarked(Names(years))
    ensures Flatten(FlatCatalog(genEd, options, years, header, paths)) == Success(RowsJson(OptionsRows(options)))
  {
    var cats := FlatCatalog(genEd, options, years, header, paths).fields;
    OptionsKeys(genEd);
    UnmarkedCategoryYieldsNothing(cats[0].1);
    OptionsCategoryLeaves(options);
    YearsKeys(years);
    UnmarkedCategoryYieldsNothing(cats[2].1);
    RequirementUnmarked(header, paths);
    UnmarkedCategoryYieldsNothing(cats[3].1);
    OnlySecondCategory(cats[0], cats[1], cats[2], cats[3]);
    assert cats == [cats[0], cats[1], cats[2], cats[3]];
  }

  /** The top-level keys, in order, whatever the tables hold. */
  lemma TopLevelKeys(genEd: seq<(string, OptionList)>, options: seq<(string, OptionList)>,
                     years: seq<(string, seq<YearEntry>)>, header: Row, paths: seq<Group>)
    ensures Keys(FlatCatalog(genEd, options, years, header, paths).fields)
         == ["general_education", "general_education_classes", "major_related_classes", "major_related_paths"]
  {
  }

  /** The requirement lists of `general_education`, in order: none is named like a marker key. */
  lemma GenEdNames()
    ensures Names(GEN_ED_TABLE) == ["arts_and_humanities", "natural_science", "oral_communication",
                                    "social_science", "global_challenges", "writing"]
  {
  }

  /** The years of `major_related_classes`, in order: none is named like a marker key. */
  lemma YearNames()
    ensures Names(YEAR_TABLE) == ["first_year", "sophomore_year", "junior_year", "senior_year"]
  {
  }

  /** No requirement list of `general_education` is named like a marker key. */
  lemma GenEdUnmarked()
    ensures Unmarked(Names(GEN_ED_TABLE))
  {
    GenEdNames();
    assert Unmarked(["arts_and_humanities", "natural_science", "oral_communication",
                     "social_science", "global_challenges", "writing"]);
  }

  /** No year is named like a marker key. */
  lemma YearsUnmarked()
    ensures Unmarked(Names(YEAR_TABLE))
  {
    YearNames();
    assert Unmarked(["first_year", "sophomore_year", "junior_year", "senior_year"]);
  }

  /** `class_options` holds 3, 3, 3, 6 (three lab pairs), 3, 3, 1, 1 and 2 courses: 25 in all. */
  lemma ClassOptionCount()
    ensures |OptionsRows(CLASS_OPTION_TABLE)| == 25
  {
  }

  /** The walk over the structure yields exactly the `class_options` courses, in order. */
  lemma StructureLeaves()
    ensures Flatten(COURSE_STRUCTURE) == Success(RowsJson(OptionsRows(CLASS_OPTION_TABLE)))
  {
    GenEdUnmarked();
    YearsUnmarked();
    FlatCatalogLeaves(GEN_ED_TABLE, CLASS_OPTION_TABLE, YEAR_TABLE, PATH_REQUIREMENT_HEADER, MAJOR_PATHS);
  }

  /** `natural_science_with_lab` holds three groups of exactly two courses. */
  lemma LabPairsShape()
    ensures CLASS_OPTION_TABLE[3].0 == "natural_science_with_lab" && CLASS_OPTION_TABLE[3].1.LabPairs?
    ensures |CLASS_OPTION_TABLE[3].1.groups| == 3
    ensures forall g :: g in CLASS_OPTION_TABLE[3].1.groups ==> |g.members| == 2
  {
  }

  /** The chemistry lab of the second lab pair carries no credit. */
  lemma ChemistryLabCredits()
    ensures CLASS_OPTION_TABLE[3].1.groups[1].members[1] == Plain("CH 1011 - General Chemistry Lab", 0)
  {
  }

  /** The first year ends with the computing requirement: two paths of two courses. */
  lemma ComputingRequirementShape()
    ensures YEAR_TABLE[0].0 == "first_year" && |YEAR_TABLE[0].1| == 4
    ensures YEAR_TABLE[0].1[3].WithPaths?
    ensures YEAR_TABLE[0].1[3].header.name == "Introduction to Computing Requirement"
    ensures |YEAR_TABLE[0].1[3].paths| == 2
    ensures forall g :: g in YEAR_TABLE[0].1[3].paths ==> |g.members| == 2
  {
  }

  /** The path requirement has three paths of two courses. */
  lemma MajorPathsShape()
    ensures |MAJOR_PATHS| == 3
    ensures forall g :: g in MAJOR_PATHS ==> |g.members| == 2
  {
  }

  /** Every entry of a year list is a course with one prerequisite. */
  predicate AllWithPrereq(es: seq<YearEntry>) {
    forall e :: e in es ==> e.Single? && e.row.Prereq?
  }

  /**
   * Every course of the sophomore, junior and senior years is a later-year
   * course, whose dict lists one prerequisite (CatalogData.PrereqField).
   */
  lemma LaterYearsHavePrereqs()
    ensures |YEAR_TABLE| == 4
    ensures AllWithPrereq(YEAR_TABLE[1].1) && AllWithPrereq(YEAR_TABLE[2].1) && AllWithPrereq(YEAR_TABLE[3].1)
  {
  }

  /** Scheduled copies of course dicts built from rows keep each row's pairs, one entry per row. */
  lemma ScheduledRows(out: seq<ScheduledCourse>, rows: seq<Row>, n: int)
    requires Schedules(out, RowsJson(rows), n)
    ensures |out| == |rows|
    ensures forall i :: 0 <= i < |out| ==>
      && out[i].course == RowFields(rows[i])
      && ValidSections(out[i].sections, n, MWF_TIME_SLOTS, TTH_TIME_SLOTS)
  {
    forall i | 0 <= i < |out|
      ensures out[i].course == RowFields(rows[i])
    {
      assert ScheduledFrom(out[i], RowsJson(rows)[i], n);
    }
  }

  /**
   * `main` of src/class_timings.py once `data/course_structure.json` holds
   * this structure: `generate_schedule_with_times(course_data,
   * num_sections=3)` completes with the 25 `class_options` courses, in
   * order, each copied with three sections.
   */
  method ScheduleCourseStructure() returns (schedule: seq<ScheduledCourse>)
    ensures |schedule| == |OptionsRows(CLASS_OPTION_TABLE)| == 25
    ensures forall i :: 0 <= i < |schedule| ==>
      && schedule[i].course == RowFields(OptionsRows(CLASS_OPTION_TABLE)[i])
      && ValidSections(schedule[i].sections, 3, MWF_TIME_SLOTS, TTH_TIME_SLOTS)
  {
    StructureLeaves();
    RowsAdmit(OptionsRows(CLASS_OPTION_TABLE), IsDict);
    var r := GenerateScheduleWithTimes(COURSE_STRUCTURE, 3);
    schedule := r.value;
    ScheduledRows(schedule, OptionsRows(CLASS_OPTION_TABLE), 3);
    ClassOptionCount();
  }
}
