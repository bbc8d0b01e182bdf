/**
 * The `input_data` catalog embedded in classTimings.py, and what the script's
 * own run, `generate_schedule(input_data, mwf_slots, tth_slots)`, yields on
 * it. Unlike the catalog of src/preprocess.py, this one nests the year map
 * and the path requirement one level deeper, under a key named like their
 * category, which is where the walk looks for them: all three branches of
 * the walk fire.
 */
module LegacyFixture {
  import opened Wrappers
  import opened JsonValues
  import opened Catalog
  import opened CatalogData
  import opened Sections
  import opened LegacyTimings

  /** `class_options`: nine subcategories, the fourth a list of lab pairs. */
  const CLASS_OPTION_TABLE: seq<(string, OptionList)> := [
    ("arts_and_humanities_non_lit", Courses([
      Plain("MUSC 2100 - Music in the Western World", 3),
      Plain("THEA 2100 - Theatre Appreciation", 3),
      Plain("ARTS 2100 - Art Appreciation", 3)])),
    ("arts_and_humanities_lit", Courses([
      Plain("ENGL 2120 - World Literature", 3),
      Plain("ENGL 2130 - British Literature", 3),
      Plain("ENGL 2140 - American Literature", 3)])),
    ("oral_communication_requirement", Courses([
      Plain("COMM 1500 - Introduction to Human Communication", 3),
      Plain("COMM 2500 - Public Speaking", 3),
      Plain("ENGL 1030 - Composition and Rhetoric", 3)])),
    ("natural_science_with_lab", LabPairs([
      Group("BIOL 1030/1050", [
        Plain("BIOL 1030 - General Biology I", 3),
        Plain("BIOL 1050 - General Biology Lab", 1)]),
      Group("CH 1010/1020", [
        Plain("CH 1010 - General Chemistry", 4),
        Plain("CH 1011 - General Chemistry", 0)]),
      Group("PHYS 1220/1240", [
        Plain("PHYS 1220 - Physics with Calculus I", 3),
        Plain("PHYS 1240 - Physics Laboratory I", 1)])])),
    ("social_sciences", Courses([
      Plain("ANTH 2010 - Introduction to Anthropology", 3),
      Plain("GEOG 1010 - Introduction to Geography", 3),
      Plain("POSC 1010 - American National Government", 3)])),
    ("global_challenges", Courses([
      Plain("ENGL 2120 - World Literature", 3),
      Plain("ENGL 2130 - British Literature", 3),
      Plain("ENGL 2140 - American Literature", 3)])),
    ("cross_cultural_awareness", Courses([
      Plain("MUSC 3140 - World Music", 3)])),
    ("science_and_technology_in_society", Courses([
      Plain("ENGR 2210 - Technology, Culture and Design", 3)])),
    ("mathematics", Courses([
      Plain("MATH 1060 - Calculus of One Variable I", 4),
      Plain("MATH 1080 - Calculus of One Variable II", 4)]))]

  /** The year map under `major_related_classes`. */
  const YEAR_TABLE: seq<(string, seq<YearEntry>)> := [
    ("first_year", [
      Single(Term("ENGL 1030 - Composition and Rhetoric", 3, "First Semester - Freshman Year")),
      Single(Term("MATH 1060 - Calculus of One Variable I", 4, "First Semester - Freshman Year")),
      Single(Term("MATH 1080 - Calculus of One Variable II", 4, "Second Semester - Freshman Year")),
      WithPaths(Term("Introduction to Computing Requirement", 4, "First Semester - Freshman Year"), [
        Group("CPSC 1010/1020", [
          Plain("CPSC 1010 - Introduction to Computing I", 4),
          Plain("CPSC 1020 - Introduction to Computing II", 4)]),
        Group("CPSC 1060/1070", [
          Plain("CPSC 1060 - Introduction to Programming", 4),
          Plain("CPSC 1070 - Data Structures and Algorithms", 4)])])]),
    ("sophomore_year", [
      Single(Prereq("CPSC 2070 - Discrete Structures for Computing", 3, "First Semester - Sophomore Year", "MATH 1060")),
      Single(Prereq("CPSC 2120 - Algorithms and Data Structures", 4, "First Semester - Sophomore Year", "CPSC 2070")),
      Single(Prereq("CPSC 2150 - Software Development Foundations", 3, "Second Semester - Sophomore Year", "CPSC 2120")),
      Single(Prereq("CPSC 2310 - Introduction to Computer Organization", 4, "Second Semester - Sophomore Year", "CPSC 2120"))]),
    ("junior_year", [
      Single(Prereq("CPSC 3720 - Introduction to Software Engineering", 3, "First Semester - Junior Year", "CPSC 2120")),
      Single(Prereq("CPSC 3220 - Advanced Systems", 3, "First Semester - Junior Year", "CPSC 2120")),
      Single(Prereq("CPSC 4030 - Data Science and Artificial Intelligence", 3, "Second Semester - Junior Year", "CPSC 2120"))]),
    ("senior_year", [
      Single(Prereq("CPSC 4910 - Senior Computing Practicum", 3, "Second Semester - Senior Year", "CPSC 3720")),
      Single(Prereq("CPSC 3520 - Programming Systems", 3, "First Semester - Senior Year", "CPSC 3720"))])]

  /** The path requirement under `major_related_paths`: three paths of two courses. */
  const PATH_REQUIREMENT_HEADER: Row :=
    Term("Computer Science Path Requirement", 6, "Second Semester - Junior and Senior Year")

  const MAJOR_PATHS: seq<Group> := [
    Group("Advanced Systems", [
      Plain("CPSC 3220 - Introduction to Operating Systems", 3),
      Plain("CPSC 3600 - Network Programming", 3)]),
    Group("Intelligent Computing", [
      Plain("CPSC 4030 - Introduction to Operating Systems", 3),
      Plain("CPSC 4300 - Network Programming", 3)]),
    Group("Interactive Systems", [
      Plain("CPSC 3750 - Introduction to Operating Systems", 3),
      Plain("CPSC 4110 - Network Programming", 3)])]

  /**
   * The catalog's layout: each category's value holds its marker key, and
   * the year map and path requirement sit one level below it.
   */
  function NestedCatalog(options: seq<(string, OptionList)>, years: seq<(string, seq<YearEntry>)>,
                         header: Row, paths: seq<Group>): Json {
    Obj([
      ("general_education_classes", Obj([("class_options", Obj(OptionsJson(options)))])),
      ("major_related_classes", Obj([("major_related_classes", Obj(YearsJson(years)))])),
      ("major_related_paths", Obj([("major_related_paths", EntryJson(WithPaths(header, paths)))]))])
  }

  /** `input_data`. */
  const INPUT_DATA: Json := NestedCatalog(CLASS_OPTION_TABLE, YEAR_TABLE, PATH_REQUIREMENT_HEADER, MAJOR_PATHS)

  /** Every course dict has a `course` key, so `add_schedule` accepts it. */
  lemma RowsHaveCourse()
    ensures forall r :: HasCourse(RowJson(r))
  {
    forall r ensures HasCourse(RowJson(r)) {
      RowShape(r);
    }
  }

  /** A category holding `major_related_classes` (and no `class_options`) yields the courses of its years. */
  lemma YearsCategoryLeaves(years: seq<(string, seq<YearEntry>)>)
    ensures DetailsLeaves(Obj([("major_related_classes", Obj(YearsJson(years)))])) == Success(RowsJson(YearsRows(years)))
  {
    var details := Obj([("major_related_classes", Obj(YearsJson(years)))]);
    assert Keys(details.fields) == ["major_related_classes"];
    assert Contains(details, "class_options") == Success(false);
    YearsLeaves(years);
  }

  /** A category holding only `major_related_paths` yields the courses of the requirement's paths. */
  lemma PathsCategoryLeaves(header: Row, paths: seq<Group>)
    ensures DetailsLeaves(Obj([("major_related_paths", EntryJson(WithPaths(header, paths)))])) == Success(RowsJson(GroupsRows(paths)))
  {
    var details := Obj([("major_related_paths", EntryJson(WithPaths(header, paths)))]);
    assert Keys(details.fields) == ["major_related_paths"];
    assert Contains(details, "class_options") == Success(false);
    assert Contains(details, "major_related_classes") == Success(false);
    assert Lookup(details, "major_related_paths") == Success(EntryJson(WithPaths(header, paths)));
    RequirementLookup(header, paths);
    GroupsLeaves(paths);
  }

  /** Three categories that each complete yield their leaves one after another. */
  lemma ThreeCategories(a: (string, Json), b: (string, Json), c: (string, Json))
    requires CategoryLeaves(a).Success? && CategoryLeaves(b).Success? && CategoryLeaves(c).Success?
    ensures Gather([a, b, c], CategoryLeaves)
         == Success(CategoryLeaves(a).value + CategoryLeaves(b).value + CategoryLeaves(c).value)
  {
    GatherSingle(c, CategoryLeaves);
    GatherCons(b, [c], CategoryLeaves);
    assert [b, c] == [b] + [c];
    GatherCons(a, [b, c], CategoryLeaves);
    assert [a, b, c] == [a] + [b, c];
    var x, y, z := CategoryLeaves(a).value, CategoryLeaves(b).value, CategoryLeaves(c).value;
    assert x + (y + z) == x + y + z;
  }

  /**
   * In this layout every category fires its branch: the walk yields the
   * `class_options` courses, then the year courses, then the path courses.
   */
  lemma NestedCatalogLeaves(options: seq<(string, OptionList)>, years: seq<(string, seq<YearEntry>)>,
                            header: Row, paths: seq<Group>)
    ensures Flatten(NestedCatalog(options, years, header, paths))
         == Success(RowsJson(OptionsRows(options) + YearsRows(years) + GroupsRows(paths)))
  {
    var cats := NestedCatalog(options, years, header, paths).fields;
    OptionsCategoryLeaves(options);
    YearsCategoryLeaves(years);
    PathsCategoryLeaves(header, paths);
    ThreeCategories(cats[0], cats[1], cats[2]);
    assert cats == [cats[0], cats[1], cats[2]];
    RowsJsonConcat(OptionsRows(options), YearsRows(years));
    RowsJsonConcat(OptionsRows(options) + YearsRows(years), GroupsRows(paths));
  }

  /** `class_options` yields 3, 3, 3, 6 (three lab pairs), 3, 3, 1, 1 and 2 courses: 25 in all. */
  lemma ClassOptionCount()
    ensures |OptionsRows(CLASS_OPTION_TABLE)| == 25
  {
  }

  /** The year map yields 3 + 4 (the two computing paths), 4, 3 and 2 courses: 16 in all. */
  lemma YearCount()
    ensures |YearsRows(YEAR_TABLE)| == 16
  {
  }

  /** The path requirement yields its three paths' six courses. */
  lemma PathCount()
    ensures |GroupsRows(MAJOR_PATHS)| == 6
  {
  }

  /** Every leaf course of `input_data`, in the order the walk meets them. */
  function AllRows(): seq<Row> {
    OptionsRows(CLASS_OPTION_TABLE) + YearsRows(YEAR_TABLE) + GroupsRows(MAJOR_PATHS)
  }

  /** `input_data` holds 25 + 16 + 6 = 47 leaf courses. */
  lemma AllRowsCount()
    ensures |AllRows()| == 47
  {
    ClassOptionCount();
    YearCount();
    PathCount();
  }

  /** The walk over `input_data` completes, yields its leaf courses in order, and `add_schedule` accepts each. */
  lemma InputDataLeaves()
    ensures Flatten(INPUT_DATA) == Success(RowsJson(AllRows()))
    ensures Admits(Flatten(INPUT_DATA), HasCourse)
  {
    NestedCatalogLeaves(CLASS_OPTION_TABLE, YEAR_TABLE, PATH_REQUIREMENT_HEADER, MAJOR_PATHS);
    RowsHaveCourse();
    RowsAdmit(AllRows(), HasCourse);
  }

  /** Entries appended for course dicts built from rows carry the rows' names, one entry per row. */
  lemma AppendedForRows(out: seq<LegacyEntry>, rows: seq<Row>, mwf: seq<string>, tth: seq<string>)
    requires AppendsFor(out, RowsJson(rows), mwf, tth)
    ensures |out| == |rows|
    ensures forall i :: 0 <= i < |out| ==>
      && out[i].name == Str(rows[i].name)
      && ValidSections(out[i].sections, SECTIONS_PER_COURSE, mwf, tth)
  {
    forall i | 0 <= i < |out|
      ensures out[i].name == Str(rows[i].name)
    {
      assert AppendedFor(out[i], RowsJson(rows)[i], mwf, tth);
      RowShape(rows[i]);
    }
  }

  /** The number of sections across a schedule. */
  function SectionTotal(entries: seq<LegacyEntry>): nat {
    if entries == [] then 0 else |entries[0].sections| + SectionTotal(entries[1..])
  }

  /** When every entry has `k` sections, the schedule has `k` per entry in all. */
  lemma {:induction false} UniformSectionTotal(entries: seq<LegacyEntry>, k: nat)
    requires forall i :: 0 <= i < |entries| ==> |entries[i].sections| == k
    ensures SectionTotal(entries) == k * |entries|
  {
    if entries != [] {
      UniformSectionTotal(entries[1..], k);
    }
  }

  /**
   * The script's own run, `generate_schedule(input_data, mwf_slots,
   * tth_slots)`: it returns 47 entries, the i-th named after the i-th leaf
   * course, each with sections 1, 2 and 3 in slots of the matching day:
   * 141 sections in all.
   */
  method RunScript() returns (schedule: seq<LegacyEntry>)
    ensures |schedule| == |AllRows()| == 47
    ensures SectionTotal(schedule) == 141
    ensures forall i :: 0 <= i < |schedule| ==>
      && schedule[i].name == Str(AllRows()[i].name)
      && ValidSections(schedule[i].sections, SECTIONS_PER_COURSE, MWF_SLOTS, TTH_SLOTS)
  {
    InputDataLeaves();
    SlotsAsConfigured();
    var r := GenerateSchedule(INPUT_DATA, MWF_SLOTS, TTH_SLOTS);
    schedule := r.value;
    AppendedForRows(schedule, AllRows(), MWF_SLOTS, TTH_SLOTS);
    AllRowsCount();
    UniformSectionTotal(schedule, 3);
  }
}
