/**
 * `generate_schedule` and `add_schedule` of classTimings.py, the older copy
 * of the generator. It walks a catalog exactly as src/class_timings.py does,
 * but `add_schedule` appends to the list its caller owns, always draws 3
 * sections, takes the slot lists as arguments, and keeps only the course's
 * `course` value: the emitted dict is `{"course", "sections"}`.
 */
module LegacyTimings {
  import opened Wrappers
  import opened JsonValues
  import opened Catalog
  import opened Sections
  import Config

  /** `mwf_slots` of classTimings.py. */
  const MWF_SLOTS: seq<string> := [
    "8:00 AM - 8:50 AM", "9:05 AM - 9:55 AM", "10:10 AM - 11:00 AM",
    "11:15 AM - 12:05 PM", "12:20 PM - 1:10 PM", "1:25 PM - 2:15 PM",
    "2:30 PM - 3:20 PM", "3:35 PM - 4:25 PM", "4:40 PM - 5:30 PM"
  ]

  /** `tth_slots` of classTimings.py. */
  const TTH_SLOTS: seq<string> := [
    "8:00 AM - 9:15 AM", "10:30 AM - 11:45 AM",
    "12:00 PM - 1:15 PM", "1:30 PM - 2:45 PM"
  ]

  /**
   * The script's slot lists are the configured ones, so they have 9 and 4
   * distinct entries and share none.
   */
  lemma SlotsAsConfigured()
    ensures MWF_SLOTS == Config.MWF_TIME_SLOTS && TTH_SLOTS == Config.TTH_TIME_SLOTS
    ensures |MWF_SLOTS| == 9 && Config.Distinct(MWF_SLOTS)
    ensures |TTH_SLOTS| == 4 && Config.Distinct(TTH_SLOTS)
    ensures forall s :: s in MWF_SLOTS ==> s !in TTH_SLOTS
  {
    Config.MwfSlotsAreTimetable();
    Config.TthSlotsAreTimetable();
    Config.SlotListsDisjoint();
  }

  /** `add_schedule` always draws this many sections. */
  const SECTIONS_PER_COURSE: int := 3

  /** An appended entry: the course's `course` value and its sections. */
  datatype LegacyEntry = LegacyEntry(name: Json, sections: seq<Section>) {
    function ToJson(): Json {
      Obj([("course", name), ("sections", SectionsJson(sections))])
    }
  }

  /** The emitted dict has the keys `course` and `sections` only, whatever else the course had. */
  lemma EntryKeys(e: LegacyEntry)
    ensures e.ToJson().Obj? && Keys(e.ToJson().fields) == ["course", "sections"]
    ensures Get(e.ToJson().fields, "course") == Some(e.name)
    ensures Get(e.ToJson().fields, "sections") == Some(SectionsJson(e.sections))
    ensures forall k :: k != "course" && k != "sections" ==> Get(e.ToJson().fields, k).None?
  {
  }

  /** The list `schedule` that `generate_schedule` creates and `add_schedule` appends to. */
  class ScheduleList {
    var classes: seq<LegacyEntry>

    constructor ()
      ensures classes == []
    {
      classes := [];
    }
  }

  /** `add_schedule` reads `course["course"]` first, so it completes only on a dict with that key. */
  predicate HasCourse(c: Json) {
    c.Obj? && "course" in Keys(c.fields)
  }

  /** `entry` is what `add_schedule` appends for the leaf course `leaf`. */
  predicate AppendedFor(entry: LegacyEntry, leaf: Json, mwf: seq<string>, tth: seq<string>) {
    && HasCourse(leaf)
    && entry.name == Get(leaf.fields, "course").value
    && ValidSections(entry.sections, SECTIONS_PER_COURSE, mwf, tth)
  }

  /** `out` holds one appended entry per leaf, in the same order. */
  predicate AppendsFor(out: seq<LegacyEntry>, leaves: seq<Json>, mwf: seq<string>, tth: seq<string>) {
    |out| == |leaves| && forall i :: 0 <= i < |out| ==> AppendedFor(out[i], leaves[i], mwf, tth)
  }

  lemma AppendsConcat(a: seq<LegacyEntry>, la: seq<Json>, b: seq<LegacyEntry>, lb: seq<Json>,
                      mwf: seq<string>, tth: seq<string>)
    requires AppendsFor(a, la, mwf, tth) && AppendsFor(b, lb, mwf, tth)
    ensures AppendsFor(a + b, la + lb, mwf, tth)
  {
    forall i | 0 <= i < |a + b| ensures AppendedFor((a + b)[i], (la + lb)[i], mwf, tth) {
      if i >= |a| {
        assert (a + b)[i] == b[i - |a|] && (la + lb)[i] == lb[i - |a|];
      }
    }
  }

  /** What a list holds past an earlier length, split at an intermediate length. */
  lemma SuffixSplit<T>(start: seq<T>, mid: seq<T>, now: seq<T>)
    requires start <= mid <= now
    ensures now[|start|..] == mid[|start|..] + now[|mid|..]
  {
  }

  /**
   * `add_schedule(course, schedule, mwf_slots, tth_slots)`: reads the
   * course's `course` value, draws 3 sections, and appends one
   * `{"course", "sections"}` entry to `schedule`. When it raises, nothing has
   * been appended.
   */
  method AddSchedule(course: Json, schedule: ScheduleList, mwf: seq<string>, tth: seq<string>) returns (r: Result<()>)
    modifies schedule
    ensures r.Failure? ==> schedule.classes == old(schedule.classes)
    ensures r.Success? ==>
      && |schedule.classes| == |old(schedule.classes)| + 1
      && schedule.classes[..|old(schedule.classes)|] == old(schedule.classes)
      && AppendedFor(schedule.classes[|old(schedule.classes)|], course, mwf, tth)
    ensures !HasCourse(course) ==> r == Failure(Lookup(course, "course").error)
    ensures HasCourse(course) && |mwf| > 0 && |tth| > 0 ==> r.Success?
  {
    var courseName :- Lookup(course, "course");
    var sections :- DrawSections(SECTIONS_PER_COURSE, mwf, tth);
    schedule.classes := schedule.classes + [LegacyEntry(courseName, sections)];
    r := Success(());
  }

  /** `for sub_course in ...: add_schedule(sub_course, schedule, mwf_slots, tth_slots)`. */
  method AddCourses(courses: seq<Json>, schedule: ScheduleList, mwf: seq<string>, tth: seq<string>) returns (r: Result<()>)
    modifies schedule
    ensures old(schedule.classes) <= schedule.classes
    ensures r.Success? ==>
      && Admits(Success(courses), HasCourse)
      && AppendsFor(schedule.classes[|old(schedule.classes)|..], courses, mwf, tth)
    ensures Admits(Success(courses), HasCourse) && |mwf| > 0 && |tth| > 0 ==> r.Success?
  {
    ghost var start := schedule.classes;
    for i := 0 to |courses|
      invariant start <= schedule.classes
      invariant Admits(Success(courses[..i]), HasCourse)
      invariant AppendsFor(schedule.classes[|start|..], courses[..i], mwf, tth)
    {
      ghost var before := schedule.classes;
      assert courses[..i + 1] == courses[..i] + [courses[i]];
      AdmitsConcat(courses[..i], [courses[i]], HasCourse);
      var _ :- AddSchedule(courses[i], schedule, mwf, tth);
      SuffixSplit(start, before, schedule.classes);
      AppendsConcat(before[|start|..], courses[..i], schedule.classes[|before|..], [courses[i]], mwf, tth);
    }
    assert courses[..|courses|] == courses;
    r := Success(());
  }

  /** The entries of one `class_options` subcategory: a lab group contributes its `courses`, any other entry itself. */
  method AddOptionEntries(entries: seq<Json>, schedule: ScheduleList, mwf: seq<string>, tth: seq<string>) returns (r: Result<()>)
    modifies schedule
    ensures old(schedule.classes) <= schedule.classes
    ensures r.Success? ==>
      && Admits(Gather(entries, OptionEntryLeaves), HasCourse)
      && AppendsFor(schedule.classes[|old(schedule.classes)|..], Gather(entries, OptionEntryLeaves).value, mwf, tth)
    ensures Admits(Gather(entries, OptionEntryLeaves), HasCourse) && |mwf| > 0 && |tth| > 0 ==> r.Success?
  {
    ghost var start := schedule.classes;
    for i := 0 to |entries|
      invariant start <= schedule.classes
      invariant Admits(Gather(entries[..i], OptionEntryLeaves), HasCourse)
      invariant AppendsFor(schedule.classes[|start|..], Gather(entries[..i], OptionEntryLeaves).value, mwf, tth)
    {
      LoopStep(entries, i, OptionEntryLeaves, HasCourse);
      ghost var before := schedule.classes;
      var course := entries[i];
      var nested :- Contains(course, "courses");
      if nested {
        var members :- Lookup(course, "courses");
        var subCourses :- Elements(members);
        var _ :- AddCourses(subCourses, schedule, mwf, tth);
      } else {
        assert Admits(Success([course]), HasCourse) <==> HasCourse(course) by {
          assert [course][0] == course;
        }
        var _ :- AddSchedule(course, schedule, mwf, tth);
      }
      SuffixSplit(start, before, schedule.classes);
      AppendsConcat(before[|start|..], Gather(entries[..i], OptionEntryLeaves).value,
        schedule.classes[|before|..], OptionEntryLeaves(entries[i]).value, mwf, tth);
    }
    assert entries[..|entries|] == entries;
    r := Success(());
  }

  /** `for subcategory, courses in details["class_options"].items()`. */
  method AddOptionGroups(groups: seq<(string, Json)>, schedule: ScheduleList, mwf: seq<string>, tth: seq<string>) returns (r: Result<()>)
    modifies schedule
    ensures old(schedule.classes) <= schedule.classes
    ensures r.Success? ==>
      && Admits(Gather(groups, OptionGroupLeaves), HasCourse)
      && AppendsFor(schedule.classes[|old(schedule.classes)|..], Gather(groups, OptionGroupLeaves).value, mwf, tth)
    ensures Admits(Gather(groups, OptionGroupLeaves), HasCourse) && |mwf| > 0 && |tth| > 0 ==> r.Success?
  {
    ghost var start := schedule.classes;
    for i := 0 to |groups|
      invariant start <= schedule.classes
      invariant Admits(Gather(groups[..i], OptionGroupLeaves), HasCourse)
      invariant AppendsFor(schedule.classes[|start|..], Gather(groups[..i], OptionGroupLeaves).value, mwf, tth)
    {
      LoopStep(groups, i, OptionGroupLeaves, HasCourse);
      ghost var before := schedule.classes;
      var courses :- Elements(groups[i].1);
      var _ :- AddOptionEntries(courses, schedule, mwf, tth);
      SuffixSplit(start, before, schedule.classes);
      AppendsConcat(before[|start|..], Gather(groups[..i], OptionGroupLeaves).value,
        schedule.classes[|before|..], OptionGroupLeaves(groups[i]).value, mwf, tth);
    }
    assert groups[..|groups|] == groups;
    r := Success(());
  }

  /** `for path in ...: for sub_course in path["courses"]`: every course of every path. */
  method AddPaths(paths: seq<Json>, schedule: ScheduleList, mwf: seq<string>, tth: seq<string>) returns (r: Result<()>)
    modifies schedule
    ensures old(schedule.classes) <= schedule.classes
    ensures r.Success? ==>
      && Admits(Gather(paths, PathLeaves), HasCourse)
      && AppendsFor(schedule.classes[|old(schedule.classes)|..], Gather(paths, PathLeaves).value, mwf, tth)
    ensures Admits(Gather(paths, PathLeaves), HasCourse) && |mwf| > 0 && |tth| > 0 ==> r.Success?
  {
    ghost var start := schedule.classes;
    for i := 0 to |paths|
      invariant start <= schedule.classes
      invariant Admits(Gather(paths[..i], PathLeaves), HasCourse)
      invariant AppendsFor(schedule.classes[|start|..], Gather(paths[..i], PathLeaves).value, mwf, tth)
    {
      LoopStep(paths, i, PathLeaves, HasCourse);
      ghost var before := schedule.classes;
      var members :- Lookup(paths[i], "courses");
      var subCourses :- Elements(members);
      var _ :- AddCourses(subCourses, schedule, mwf, tth);
      SuffixSplit(start, before, schedule.classes);
      AppendsConcat(before[|start|..], Gather(paths[..i], PathLeaves).value,
        schedule.classes[|before|..], PathLeaves(paths[i]).value, mwf, tth);
    }
    assert paths[..|paths|] == paths;
    r := Success(());
  }

  /** The entries of one year: a requirement with `paths` contributes every course of every path, any other entry itself. */
  method AddMajorEntries(entries: seq<Json>, schedule: ScheduleList, mwf: seq<string>, tth: seq<string>) returns (r: Result<()>)
    modifies schedule
    ensures old(schedule.classes) <= schedule.classes
    ensures r.Success? ==>
      && Admits(Gather(entries, MajorEntryLeaves), HasCourse)
      && AppendsFor(schedule.classes[|old(schedule.classes)|..], Gather(entries, MajorEntryLeaves).value, mwf, tth)
    ensures Admits(Gather(entries, MajorEntryLeaves), HasCourse) && |mwf| > 0 && |tth| > 0 ==> r.Success?
  {
    ghost var start := schedule.classes;
    for i := 0 to |entries|
      invariant start <= schedule.classes
      invariant Admits(Gather(entries[..i], MajorEntryLeaves), HasCourse)
      invariant AppendsFor(schedule.classes[|start|..], Gather(entries[..i], MajorEntryLeaves).value, mwf, tth)
    {
      LoopStep(entries, i, MajorEntryLeaves, HasCourse);
      ghost var before := schedule.classes;
      var course := entries[i];
      var hasPaths :- Contains(course, "paths");
      if hasPaths {
        var pathList :- Lookup(course, "paths");
        var paths :- Elements(pathList);
        var _ :- AddPaths(paths, schedule, mwf, tth);
      } else {
        assert Admits(Success([course]), HasCourse) <==> HasCourse(course) by {
          assert [course][0] == course;
        }
        var _ :- AddSchedule(course, schedule, mwf, tth);
      }
      SuffixSplit(start, before, schedule.classes);
      AppendsConcat(before[|start|..], Gather(entries[..i], MajorEntryLeaves).value,
        schedule.classes[|before|..], MajorEntryLeaves(entries[i]).value, mwf, tth);
    }
    assert entries[..|entries|] == entries;
    r := Success(());
  }

  /** `for year, courses in details["major_related_classes"].items()`. */
  method AddYears(years: seq<(string, Json)>, schedule: ScheduleList, mwf: seq<string>, tth: seq<string>) returns (r: Result<()>)
    modifies schedule
    ensures old(schedule.classes) <= schedule.classes
    ensures r.Success? ==>
      && Admits(Gather(years, YearLeaves), HasCourse)
      && AppendsFor(schedule.classes[|old(schedule.classes)|..], Gather(years, YearLeaves).value, mwf, tth)
    ensures Admits(Gather(years, YearLeaves), HasCourse) && |mwf| > 0 && |tth| > 0 ==> r.Success?
  {
    ghost var start := schedule.classes;
    for i := 0 to |years|
      invariant start <= schedule.classes
      invariant Admits(Gather(years[..i], YearLeaves), HasCourse)
      invariant AppendsFor(schedule.classes[|start|..], Gather(years[..i], YearLeaves).value, mwf, tth)
    {
      LoopStep(years, i, YearLeaves, HasCourse);
      ghost var before := schedule.classes;
      var courses :- Elements(years[i].1);
      var _ :- AddMajorEntries(courses, schedule, mwf, tth);
      SuffixSplit(start, before, schedule.classes);
      AppendsConcat(before[|start|..], Gather(years[..i], YearLeaves).value,
        schedule.classes[|before|..], YearLeaves(years[i]).value, mwf, tth);
    }
    assert years[..|years|] == years;
    r := Success(());
  }

  /** The body of the category loop: the three-way dispatch on the marker keys. */
  method AddCategory(details: Json, schedule: ScheduleList, mwf: seq<string>, tth: seq<string>) returns (r: Result<()>)
    modifies schedule
    ensures old(schedule.classes) <= schedule.classes
    ensures r.Success? ==>
      && Admits(DetailsLeaves(details), HasCourse)
      && AppendsFor(schedule.classes[|old(schedule.classes)|..], DetailsLeaves(details).value, mwf, tth)
    ensures Admits(DetailsLeaves(details), HasCourse) && |mwf| > 0 && |tth| > 0 ==> r.Success?
  {
    var isOptions :- Contains(details, "class_options");
    // Once one membership test has not raised, the later ones on the same value cannot.
    if isOptions {
      var options :- Lookup(details, "class_options");
      var groups :- Items(options);
      r := AddOptionGroups(groups, schedule, mwf, tth);
    } else {
      var isMajor := Contains(details, "major_related_classes").value;
      if isMajor {
        var yearMap :- Lookup(details, "major_related_classes");
        var years :- Items(yearMap);
        r := AddYears(years, schedule, mwf, tth);
      } else {
        var isPaths := Contains(details, "major_related_paths").value;
        if isPaths {
          var requirement :- Lookup(details, "major_related_paths");
          var pathList :- Lookup(requirement, "paths");
          var paths :- Elements(pathList);
          r := AddPaths(paths, schedule, mwf, tth);
        } else {
          r := Success(());
        }
      }
    }
  }

  /**
   * `generate_schedule(data, mwf_slots, tth_slots)`: when it returns, the
   * catalog walk completed with a dict holding `course` at every leaf, and the
   * result holds one entry per leaf course, in walk order, each with 3
   * sections. With both slot lists non-empty, such a catalog always returns.
   */
  method GenerateSchedule(data: Json, mwf: seq<string>, tth: seq<string>) returns (r: Result<seq<LegacyEntry>>)
    ensures r.Success? ==> Admits(Flatten(data), HasCourse) && AppendsFor(r.value, Flatten(data).value, mwf, tth)
    ensures Admits(Flatten(data), HasCourse) && |mwf| > 0 && |tth| > 0 ==> r.Success?
  {
    var schedule := new ScheduleList();
    var categories :- Items(data);
    for i := 0 to |categories|
      invariant Admits(Gather(categories[..i], CategoryLeaves), HasCourse)
      invariant AppendsFor(schedule.classes, Gather(categories[..i], CategoryLeaves).value, mwf, tth)
    {
      LoopStep(categories, i, CategoryLeaves, HasCourse);
      ghost var before := schedule.classes;
      var _ :- AddCategory(categories[i].1, schedule, mwf, tth);
      SuffixSplit([], before, schedule.classes);
      AppendsConcat(before, Gather(categories[..i], CategoryLeaves).value,
        schedule.classes[|before|..], CategoryLeaves(categories[i]).value, mwf, tth);
    }
    assert categories[..|categories|] == categories;
    r := Success(schedule.classes);
  }
}
