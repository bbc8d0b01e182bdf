/**
 * The course catalogs written into the repository, as tables. A catalog's
 * courses, lab pairs, path requirements and subcategory lists are rows of
 * the datatypes below, and the functions named `...Json` turn them into the
 * dicts and lists that the generators walk, with keys in the order the
 * source writes them. The lemmas say, for every table, what the walk of
 * module Catalog yields on the dicts built from it: exactly the table's
 * course rows, in table order.
 */
module CatalogData {
  import opened Wrappers
  import opened JsonValues
  import opened Catalog

  /**
   * One course dict: `course` and `credits`; a year-list course also has a
   * `semester`, and a later-year course a one-element `prereq` list. Every
   * catalog gives whole, non-negative credit counts, so `credits` is a `nat`.
   */
  datatype Row =
    | Plain(name: string, credits: nat)
    | Term(name: string, credits: nat, semester: string)
    | Prereq(name: string, credits: nat, semester: string, prereq: string)

  function RowFields(r: Row): seq<(string, Json)> {
    match r
    case Plain(n, c) => [("course", Str(n)), ("credits", Int(c))]
    case Term(n, c, s) => [("course", Str(n)), ("credits", Int(c)), ("semester", Str(s))]
    case Prereq(n, c, s, p) => [("course", Str(n)), ("credits", Int(c)), ("semester", Str(s)), ("prereq", Arr([Str(p)]))]
  }

  function RowJson(r: Row): Json {
    Obj(RowFields(r))
  }

  function RowsJson(rows: seq<Row>): (cs: seq<Json>)
    ensures |cs| == |rows|
    ensures forall i :: 0 <= i < |rows| ==> cs[i] == RowJson(rows[i])
  {
    seq(|rows|, i requires 0 <= i < |rows| => RowJson(rows[i]))
  }

  /** A lab pair or a path: `path_name` and the list of its `courses`. */
  datatype Group = Group(pathName: string, members: seq<Row>)

  function GroupJson(g: Group): Json {
    Obj([("path_name", Str(g.pathName)), ("courses", Arr(RowsJson(g.members)))])
  }

  function GroupsJson(gs: seq<Group>): (js: seq<Json>)
    ensures |js| == |gs|
  {
    seq(|gs|, i requires 0 <= i < |gs| => GroupJson(gs[i]))
  }

  /** The courses of a list of groups, group after group. */
  function GroupsRows(gs: seq<Group>): seq<Row> {
    if gs == [] then [] else gs[0].members + GroupsRows(gs[1..])
  }

  /** The value of one `class_options` subcategory: a list of courses, or a list of lab pairs. */
  datatype OptionList = Courses(rows: seq<Row>) | LabPairs(groups: seq<Group>)

  function OptionListJson(l: OptionList): Json {
    match l
    case Courses(rows) => Arr(RowsJson(rows))
    case LabPairs(gs) => Arr(GroupsJson(gs))
  }

  function OptionListRows(l: OptionList): seq<Row> {
    match l
    case Courses(rows) => rows
    case LabPairs(gs) => GroupsRows(gs)
  }

  /** A `class_options` dict, subcategory by subcategory. */
  function OptionsJson(t: seq<(string, OptionList)>): (d: seq<(string, Json)>)
    ensures |d| == |t|
  {
    seq(|t|, i requires 0 <= i < |t| => (t[i].0, OptionListJson(t[i].1)))
  }

  function OptionsRows(t: seq<(string, OptionList)>): seq<Row> {
    if t == [] then [] else OptionListRows(t[0].1) + OptionsRows(t[1..])
  }

  /** An entry of a year list: a course, or a requirement whose `paths` hold the courses that meet it. */
  datatype YearEntry = Single(row: Row) | WithPaths(header: Row, paths: seq<Group>)

  function EntryJson(e: YearEntry): Json {
    match e
    case Single(r) => RowJson(r)
    case WithPaths(r, ps) => Obj(RowFields(r) + [("paths", Arr(GroupsJson(ps)))])
  }

  function EntriesJson(es: seq<YearEntry>): (js: seq<Json>)
    ensures |js| == |es|
  {
    seq(|es|, i requires 0 <= i < |es| => EntryJson(es[i]))
  }

  function EntryRows(e: YearEntry): seq<Row> {
    match e
    case Single(r) => [r]
    case WithPaths(_, ps) => GroupsRows(ps)
  }

  function EntriesRows(es: seq<YearEntry>): seq<Row> {
    if es == [] then [] else EntryRows(es[0]) + EntriesRows(es[1..])
  }

  /** A year map, year by year. */
  function YearsJson(t: seq<(string, seq<YearEntry>)>): (d: seq<(string, Json)>)
    ensures |d| == |t|
  {
    seq(|t|, i requires 0 <= i < |t| => (t[i].0, Arr(EntriesJson(t[i].1))))
  }

  function YearsRows(t: seq<(string, seq<YearEntry>)>): seq<Row> {
    if t == [] then [] else EntriesRows(t[0].1) + YearsRows(t[1..])
  }

  /** The names of a table's entries, in order: the keys of the dict built from it. */
  function Names<T>(t: seq<(string, T)>): (ns: seq<string>)
    ensures |ns| == |t|
  {
    if t == [] then [] else [t[0].0] + Names(t[1..])
  }

  /** A `class_options` dict has the table's names as its keys, in table order. */
  lemma {:induction false} OptionsKeys(t: seq<(string, OptionList)>)
    ensures Keys(OptionsJson(t)) == Names(t)
  {
    if t != [] {
      assert OptionsJson(t) == [(t[0].0, OptionListJson(t[0].1))] + OptionsJson(t[1..]);
      OptionsKeys(t[1..]);
    }
  }

  /** A year map has the table's year names as its keys, in table order. */
  lemma {:induction false} YearsKeys(t: seq<(string, seq<YearEntry>)>)
    ensures Keys(YearsJson(t)) == Names(t)
  {
    if t != [] {
      assert YearsJson(t) == [(t[0].0, Arr(EntriesJson(t[0].1)))] + YearsJson(t[1..]);
      YearsKeys(t[1..]);
    }
  }

  // ---------------------------------------------------------------------
  // What the walk yields on tables.

  /** A course dict has none of the grouping keys and carries its name under `course`. */
  lemma RowShape(r: Row)
    ensures IsPlainCourse(RowJson(r))
    ensures Get(RowFields(r), "course") == Some(Str(r.name))
  {
    match r
    case Plain(n, c) => assert Keys(RowFields(r)) == ["course", "credits"];
    case Term(n, c, s) => assert Keys(RowFields(r)) == ["course", "credits", "semester"];
    case Prereq(n, c, s, p) => assert Keys(RowFields(r)) == ["course", "credits", "semester", "prereq"];
  }

  /** A later-year course dict lists its one prerequisite under `prereq`. */
  lemma PrereqField(r: Row)
    requires r.Prereq?
    ensures Get(RowFields(r), "prereq") == Some(Arr([Str(r.prereq)]))
  {
    assert Keys(RowFields(r)) == ["course", "credits", "semester", "prereq"];
  }

  lemma RowsJsonConcat(a: seq<Row>, b: seq<Row>)
    ensures RowsJson(a + b) == RowsJson(a) + RowsJson(b)
  {
  }

  /** Every leaf built from rows meets `ok` when every course dict does. */
  lemma RowsAdmit(rows: seq<Row>, ok: Json -> bool)
    requires forall r :: ok(RowJson(r))
    ensures Admits(Success(RowsJson(rows)), ok)
  {
  }

  /** A list of course dicts yields itself, in a `class_options` list and in a year list. */
  lemma RowsLeaves(rows: seq<Row>)
    ensures Gather(RowsJson(rows), OptionEntryLeaves) == Success(RowsJson(rows))
    ensures Gather(RowsJson(rows), MajorEntryLeaves) == Success(RowsJson(rows))
  {
    forall i | 0 <= i < |rows| ensures IsPlainCourse(RowsJson(rows)[i]) {
      RowShape(rows[i]);
    }
    PlainOptionEntries(RowsJson(rows));
    PlainMajorEntries(RowsJson(rows));
  }

  /** A group yields its courses, as a lab pair in a `class_options` list and as a path. */
  lemma GroupLeaves(g: Group)
    ensures OptionEntryLeaves(GroupJson(g)) == Success(RowsJson(g.members))
    ensures PathLeaves(GroupJson(g)) == Success(RowsJson(g.members))
  {
    assert Keys(GroupJson(g).fields) == ["path_name", "courses"];
  }

  /** A list of groups yields the courses of each group in turn, whether walked as lab pairs or as paths. */
  lemma {:induction false} GroupsLeaves(gs: seq<Group>)
    ensures Gather(GroupsJson(gs), OptionEntryLeaves) == Success(RowsJson(GroupsRows(gs)))
    ensures Gather(GroupsJson(gs), PathLeaves) == Success(RowsJson(GroupsRows(gs)))
  {
    if gs != [] {
      assert GroupsJson(gs) == [GroupJson(gs[0])] + GroupsJson(gs[1..]);
      GroupsLeaves(gs[1..]);
      GroupLeaves(gs[0]);
      GatherCons(GroupJson(gs[0]), GroupsJson(gs[1..]), OptionEntryLeaves);
      GatherCons(GroupJson(gs[0]), GroupsJson(gs[1..]), PathLeaves);
      RowsJsonConcat(gs[0].members, GroupsRows(gs[1..]));
    }
  }

  /** One `class_options` subcategory yields its courses, a lab pair contributing both of its members. */
  lemma OptionListLeaves(name: string, l: OptionList)
    ensures OptionGroupLeaves((name, OptionListJson(l))) == Success(RowsJson(OptionListRows(l)))
  {
    match l
    case Courses(rows) => RowsLeaves(rows);
    case LabPairs(gs) => GroupsLeaves(gs);
  }

  /** A `class_options` dict yields the courses of its subcategories, in order. */
  lemma {:induction false} OptionsLeaves(t: seq<(string, OptionList)>)
    ensures Gather(OptionsJson(t), OptionGroupLeaves) == Success(RowsJson(OptionsRows(t)))
  {
    if t != [] {
      assert OptionsJson(t) == [(t[0].0, OptionListJson(t[0].1))] + OptionsJson(t[1..]);
      OptionsLeaves(t[1..]);
      OptionListLeaves(t[0].0, t[0].1);
      GatherCons((t[0].0, OptionListJson(t[0].1)), OptionsJson(t[1..]), OptionGroupLeaves);
      RowsJsonConcat(OptionListRows(t[0].1), OptionsRows(t[1..]));
    }
  }

  /** A requirement dict has `paths` last, after the keys of its header course. */
  lemma RequirementPaths(r: Row, paths: Json)
    ensures "paths" in Keys(RowFields(r) + [("paths", paths)])
    ensures Get(RowFields(r) + [("paths", paths)], "paths") == Some(paths)
  {
    var fields := RowFields(r) + [("paths", paths)];
    match r
    case Plain(n, c) => assert Keys(fields) == ["course", "credits", "paths"];
    case Term(n, c, s) => assert Keys(fields) == ["course", "credits", "semester", "paths"];
    case Prereq(n, c, s, p) => assert Keys(fields) == ["course", "credits", "semester", "prereq", "paths"];
  }

  /** Looking up `paths` in a requirement gives the list of its paths. */
  lemma RequirementLookup(header: Row, paths: seq<Group>)
    ensures Lookup(EntryJson(WithPaths(header, paths)), "paths") == Success(Arr(GroupsJson(paths)))
  {
    RequirementPaths(header, Arr(GroupsJson(paths)));
  }

  /** A course in a year list yields itself. */
  lemma SingleEntryLeaves(r: Row)
    ensures MajorEntryLeaves(RowJson(r)) == Success(RowsJson([r]))
  {
    RowShape(r);
    assert MajorEntryLeaves(RowJson(r)) == Success([RowJson(r)]);
    assert RowsJson([r]) == [RowJson(r)];
  }

  /** A year-list dict whose `paths` holds a list yields what the walk of those paths yields. */
  lemma PathsEntryLeaves(course: Json, paths: seq<Json>)
    requires course.Obj? && Get(course.fields, "paths") == Some(Arr(paths))
    ensures MajorEntryLeaves(course) == Gather(paths, PathLeaves)
  {
    assert Contains(course, "paths") == Success(true);
    assert Lookup(course, "paths") == Success(Arr(paths));
  }

  /** A requirement in a year list yields the courses of every one of its paths. */
  lemma RequirementEntryLeaves(r: Row, ps: seq<Group>)
    ensures MajorEntryLeaves(EntryJson(WithPaths(r, ps))) == Success(RowsJson(GroupsRows(ps)))
  {
    RequirementPaths(r, Arr(GroupsJson(ps)));
    PathsEntryLeaves(EntryJson(WithPaths(r, ps)), GroupsJson(ps));
    GroupsLeaves(ps);
  }

  /** A year-list entry yields itself, or, for a requirement with `paths`, the courses of every path. */
  lemma EntryLeaves(e: YearEntry)
    ensures MajorEntryLeaves(EntryJson(e)) == Success(RowsJson(EntryRows(e)))
  {
    match e
    case Single(r) => SingleEntryLeaves(r);
    case WithPaths(r, ps) => RequirementEntryLeaves(r, ps);
  }

  /** A year list yields the courses of its entries, in order. */
  lemma {:induction false} EntriesLeaves(es: seq<YearEntry>)
    ensures Gather(EntriesJson(es), MajorEntryLeaves) == Success(RowsJson(EntriesRows(es)))
  {
    if es != [] {
      assert EntriesJson(es) == [EntryJson(es[0])] + EntriesJson(es[1..]);
      EntriesLeaves(es[1..]);
      EntryLeaves(es[0]);
      GatherCons(EntryJson(es[0]), EntriesJson(es[1..]), MajorEntryLeaves);
      RowsJsonConcat(EntryRows(es[0]), EntriesRows(es[1..]));
    }
  }

  /** A year map yields the courses of its years, in order. */
  lemma {:induction false} YearsLeaves(t: seq<(string, seq<YearEntry>)>)
    ensures Gather(YearsJson(t), YearLeaves) == Success(RowsJson(YearsRows(t)))
  {
    if t != [] {
      assert YearsJson(t) == [(t[0].0, Arr(EntriesJson(t[0].1)))] + YearsJson(t[1..]);
      YearsLeaves(t[1..]);
      EntriesLeaves(t[0].1);
      GatherCons((t[0].0, Arr(EntriesJson(t[0].1))), YearsJson(t[1..]), YearLeaves);
      RowsJsonConcat(EntriesRows(t[0].1), YearsRows(t[1..]));
    }
  }

  /** A category holding `class_options` yields the courses of its subcategories. */
  lemma OptionsCategoryLeaves(options: seq<(string, OptionList)>)
    ensures DetailsLeaves(Obj([("class_options", Obj(OptionsJson(options)))])) == Success(RowsJson(OptionsRows(options)))
  {
    var details := Obj([("class_options", Obj(OptionsJson(options)))]);
    assert Keys(details.fields) == ["class_options"];
    OptionsLeaves(options);
  }
}
