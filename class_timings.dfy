/**
 * `generate_schedule_with_times` and `_add_course_with_sections` of
 * src/class_timings.py: every leaf course of a catalog, in walk order, copied
 * with a `sections` list of synthetic sections drawn from the slot lists of
 * src/config.py.
 *
 * The source grows one `schedule` list inside nested `for` loops; here each
 * loop level is a method that returns what its loop appends, and its caller
 * appends that in turn. Each loop is proved against the catalog walk of
 * module Catalog: it completes exactly when the walk completes with a dict at
 * every leaf, and then it yields one scheduled copy per leaf, in walk order.
 */
module ClassTimings {
  import opened Wrappers
  import opened JsonValues
  import opened Catalog
  import opened Sections
  import opened Config

  /** A course dict (its pairs, in order) together with the sections drawn for it. */
  datatype ScheduledCourse = ScheduledCourse(course: seq<(string, Json)>, sections: seq<Section>) {
    /**
     * The emitted dict: a copy of the course with `sections` set. Every other
     * key keeps its value, and the `sections` key keeps its place if the
     * course had one and goes last otherwise.
     */
    function ToJson(): (j: Json)
      ensures j.Obj?
      ensures Get(j.fields, "sections") == Some(SectionsJson(sections))
      ensures forall k :: k != "sections" ==> Get(j.fields, k) == Get(course, k)
      ensures Keys(j.fields) ==
        if "sections" in Keys(course) then Keys(course) else Keys(course) + ["sections"]
    {
      Obj(SetKey(course, "sections", SectionsJson(sections)))
    }
  }

  /** `_add_course_with_sections` only completes on a dict: a `.copy()` it can subscript. */
  predicate IsDict(c: Json) {
    c.Obj?
  }

  /** `entry` is what the generator makes of the leaf course `leaf` with `n` sections. */
  predicate ScheduledFrom(entry: ScheduledCourse, leaf: Json, n: int) {
    leaf == Obj(entry.course) && ValidSections(entry.sections, n, MWF_TIME_SLOTS, TTH_TIME_SLOTS)
  }

  /** `out` schedules the leaves `leaves`, one entry per leaf, in the same order. */
  predicate Schedules(out: seq<ScheduledCourse>, leaves: seq<Json>, n: int) {
    |out| == |leaves| && forall i :: 0 <= i < |out| ==> ScheduledFrom(out[i], leaves[i], n)
  }

  lemma SchedulesConcat(a: seq<ScheduledCourse>, la: seq<Json>, b: seq<ScheduledCourse>, lb: seq<Json>, n: int)
    requires Schedules(a, la, n) && Schedules(b, lb, n)
    ensures Schedules(a + b, la + lb, n)
  {
    forall i | 0 <= i < |a + b| ensures ScheduledFrom((a + b)[i], (la + lb)[i], n) {
      if i >= |a| {
        assert (a + b)[i] == b[i - |a|] && (la + lb)[i] == lb[i - |a|];
      }
    }
  }

  /**
   * `_add_course_with_sections`: draws `numSections` sections (none when it
   * is not positive), then copies the course and sets its `sections`. Only a
   * dict can be copied and subscripted: a list's copy rejects the string key
   * (`TypeError`), and other values have no `copy` (`AttributeError`).
   */
  method AddCourseWithSections(course: Json, numSections: int) returns (r: Result<ScheduledCourse>)
    ensures r.Success? <==> course.Obj?
    ensures r.Success? ==> ScheduledFrom(r.value, course, numSections)
    ensures course.Arr? ==> r == Failure(TypeError)
    ensures !course.Obj? && !course.Arr? ==> r == Failure(AttributeError)
  {
    var drawn := DrawSections(numSections, MWF_TIME_SLOTS, TTH_TIME_SLOTS);
    assert drawn.Success?;
    var sections := drawn.value;
    if course.Obj? {
      r := Success(ScheduledCourse(course.fields, sections));
    } else if course.Arr? {
      r := Failure(TypeError);
    } else {
      r := Failure(AttributeError);
    }
  }

  /** `for sub_course in courses: schedule.append(_add_course_with_sections(sub_course, n))`. */
  method AddCourses(courses: seq<Json>, n: int) returns (r: Result<seq<ScheduledCourse>>)
    ensures r.Success? <==> Admits(Success(courses), IsDict)
    ensures r.Success? ==> Schedules(r.value, courses, n)
  {
    var out: seq<ScheduledCourse> := [];
    for i := 0 to |courses|
      invariant Admits(Success(courses[..i]), IsDict)
      invariant Schedules(out, courses[..i], n)
    {
      var entry := AddCourseWithSections(courses[i], n);
      if entry.Failure? {
        assert !IsDict(courses[i]);
        return Failure(entry.error);
      }
      assert courses[..i + 1] == courses[..i] + [courses[i]];
      SchedulesConcat(out, courses[..i], [entry.value], [courses[i]], n);
      AdmitsConcat(courses[..i], [courses[i]], IsDict);
      out := out + [entry.value];
    }
    assert courses[..|courses|] == courses;
    return Success(out);
  }

  /** The entries of one `class_options` subcategory: a lab group contributes its `courses`, any other entry itself. */
  method AddOptionEntries(entries: seq<Json>, n: int) returns (r: Result<seq<ScheduledCourse>>)
    ensures r.Success? <==> Admits(Gather(entries, OptionEntryLeaves), IsDict)
    ensures r.Success? ==> Schedules(r.value, Gather(entries, OptionEntryLeaves).value, n)
  {
    var out: seq<ScheduledCourse> := [];
    for i := 0 to |entries|
      invariant Admits(Gather(entries[..i], OptionEntryLeaves), IsDict)
      invariant Schedules(out, Gather(entries[..i], OptionEntryLeaves).value, n)
    {
      LoopStep(entries, i, OptionEntryLeaves, IsDict);
      var course := entries[i];
      var nested :- Contains(course, "courses");
      var more: seq<ScheduledCourse>;
      if nested {
        var members :- Lookup(course, "courses");
        var subCourses :- Elements(members);
        more :- AddCourses(subCourses, n);
      } else {
        assert Admits(Success([course]), IsDict) <==> IsDict(course) by {
          assert [course][0] == course;
        }
        var entry :- AddCourseWithSections(course, n);
        more := [entry];
      }
      SchedulesConcat(out, Gather(entries[..i], OptionEntryLeaves).value, more, OptionEntryLeaves(course).value, n);
      out := out + more;
    }
    assert entries[..|entries|] == entries;
    return Success(out);
  }

  /** `for subcategory, courses in details["class_options"].items()`. */
  method AddOptionGroups(groups: seq<(string, Json)>, n: int) returns (r: Result<seq<ScheduledCourse>>)
    ensures r.Success? <==> Admits(Gather(groups, OptionGroupLeaves), IsDict)
    ensures r.Success? ==> Schedules(r.value, Gather(groups, OptionGroupLeaves).value, n)
  {
    var out: seq<ScheduledCourse> := [];
    for i := 0 to |groups|
      invariant Admits(Gather(groups[..i], OptionGroupLeaves), IsDict)
      invariant Schedules(out, Gather(groups[..i], OptionGroupLeaves).value, n)
    {
      LoopStep(groups, i, OptionGroupLeaves, IsDict);
      var courses :- Elements(groups[i].1);
      var more :- AddOptionEntries(courses, n);
      SchedulesConcat(out, Gather(groups[..i], OptionGroupLeaves).value, more, OptionGroupLeaves(groups[i]).value, n);
      out := out + more;
    }
    assert groups[..|groups|] == groups;
    return Success(out);
  }

  /** `for path in ...: for sub_course in path["courses"]`: every course of every path. */
  method AddPaths(paths: seq<Json>, n: int) returns (r: Result<seq<ScheduledCourse>>)
    ensures r.Success? <==> Admits(Gather(paths, PathLeaves), IsDict)
    ensures r.Success? ==> Schedules(r.value, Gather(paths, PathLeaves).value, n)
  {
    var out: seq<ScheduledCourse> := [];
    for i := 0 to |paths|
      invariant Admits(Gather(paths[..i], PathLeaves), IsDict)
      invariant Schedules(out, Gather(paths[..i], PathLeaves).value, n)
    {
      LoopStep(paths, i, PathLeaves, IsDict);
      var members :- Lookup(paths[i], "courses");
      var subCourses :- Elements(members);
      var more :- AddCourses(subCourses, n);
      SchedulesConcat(out, Gather(paths[..i], PathLeaves).value, more, PathLeaves(paths[i]).value, n);
      out := out + more;
    }
    assert paths[..|paths|] == paths;
    return Success(out);
  }

  /** The entries of one year: a requirement with `paths` contributes every course of every path, any other entry itself. */
  method AddMajorEntries(entries: seq<Json>, n: int) returns (r: Result<seq<ScheduledCourse>>)
    ensures r.Success? <==> Admits(Gather(entries, MajorEntryLeaves), IsDict)
    ensures r.Success? ==> Schedules(r.value, Gather(entries, MajorEntryLeaves).value, n)
  {
    var out: seq<ScheduledCourse> := [];
    for i := 0 to |entries|
      invariant Admits(Gather(entries[..i], MajorEntryLeaves), IsDict)
      invariant Schedules(out, Gather(entries[..i], MajorEntryLeaves).value, n)
    {
      LoopStep(entries, i, MajorEntryLeaves, IsDict);
      var course := entries[i];
      var hasPaths :- Contains(course, "paths");
      var more: seq<ScheduledCourse>;
      if hasPaths {
        var pathList :- Lookup(course, "paths");
        var paths :- Elements(pathList);
        more :- AddPaths(paths, n);
      } else {
        assert Admits(Success([course]), IsDict) <==> IsDict(course) by {
          assert [course][0] == course;
        }
        var entry :- AddCourseWithSections(course, n);
        more := [entry];
      }
      SchedulesConcat(out, Gather(entries[..i], MajorEntryLeaves).value, more, MajorEntryLeaves(course).value, n);
      out := out + more;
    }
    assert entries[..|entries|] == entries;
    return Success(out);
  }

  /** `for year, courses in details["major_related_classes"].items()`. */
  method AddYears(years: seq<(string, Json)>, n: int) returns (r: Result<seq<ScheduledCourse>>)
    ensures r.Success? <==> Admits(Gather(years, YearLeaves), IsDict)
    ensures r.Success? ==> Schedules(r.value, Gather(years, YearLeaves).value, n)
  {
    var out: seq<ScheduledCourse> := [];
    for i := 0 to |years|
      invariant Admits(Gather(years[..i], YearLeaves), IsDict)
      invariant Schedules(out, Gather(years[..i], YearLeaves).value, n)
    {
      LoopStep(years, i, YearLeaves, IsDict);
      var courses :- Elements(years[i].1);
      var more :- AddMajorEntries(courses, n);
      SchedulesConcat(out, Gather(years[..i], YearLeaves).value, more, YearLeaves(years[i]).value, n);
      out := out + more;
    }
    assert years[..|years|] == years;
    return Success(out);
  }

  /** The body of the category loop: the three-way dispatch on the marker keys. */
  method AddCategory(details: Json, n: int) returns (r: Result<seq<ScheduledCourse>>)
    ensures r.Success? <==> Admits(DetailsLeaves(details), IsDict)
    ensures r.Success? ==> Schedules(r.value, DetailsLeaves(details).value, n)
  {
    var isOptions :- Contains(details, "class_options");
    // Once one membership test has not raised, the later ones on the same value cannot.
    if isOptions {
      var options :- Lookup(details, "class_options");
      var groups :- Items(options);
      r := AddOptionGroups(groups, n);
    } else {
      var isMajor := Contains(details, "major_related_classes").value;
      if isMajor {
        var yearMap :- Lookup(details, "major_related_classes");
        var years :- Items(yearMap);
        r := AddYears(years, n);
      } else {
        var isPaths := Contains(details, "major_related_paths").value;
        if isPaths {
          var requirement :- Lookup(details, "major_related_paths");
          var pathList :- Lookup(requirement, "paths");
          var paths :- Elements(pathList);
          r := AddPaths(paths, n);
        } else {
          r := Success([]);
        }
      }
    }
  }

  /**
   * `generate_schedule_with_times(course_data, num_sections)`: completes
   * exactly when the catalog walk completes with a dict at every leaf, and
   * then schedules every leaf course, in walk order, with `num_sections`
   * sections each (the source's default is 3).
   */
  method GenerateScheduleWithTimes(courseData: Json, numSections: int) returns (r: Result<seq<ScheduledCourse>>)
    ensures r.Success? <==> Admits(Flatten(courseData), IsDict)
    ensures r.Success? ==> Schedules(r.value, Flatten(courseData).value, numSections)
  {
    var categories :- Items(courseData);
    var schedule: seq<ScheduledCourse> := [];
    for i := 0 to |categories|
      invariant Admits(Gather(categories[..i], CategoryLeaves), IsDict)
      invariant Schedules(schedule, Gather(categories[..i], CategoryLeaves).value, numSections)
    {
      LoopStep(categories, i, CategoryLeaves, IsDict);
      var more :- AddCategory(categories[i].1, numSections);
      SchedulesConcat(schedule, Gather(categories[..i], CategoryLeaves).value, more,
        CategoryLeaves(categories[i]).value, numSections);
      schedule := schedule + more;
    }
    assert categories[..|categories|] == categories;
    return Success(schedule);
  }

  /** The emitted schedule: the list of emitted course dicts. */
  function ScheduleJson(out: seq<ScheduledCourse>): (j: Json)
    ensures j.Arr? && |j.items| == |out|
    ensures forall i :: 0 <= i < |out| ==> j.items[i] == out[i].ToJson()
  {
    Arr(seq(|out|, i requires 0 <= i < |out| => out[i].ToJson()))
  }

  /**
   * An emitted entry is its leaf course with only `sections` added or
   * replaced: every other key of the course keeps its value, and `sections`
   * holds `n` sections numbered 1 to n whose slots match their day types.
   */
  lemma EmittedEntryExtendsCourse(out: seq<ScheduledCourse>, leaves: seq<Json>, n: int, i: nat)
    requires Schedules(out, leaves, n) && i < |out|
    ensures leaves[i].Obj? && ScheduleJson(out).items[i].Obj?
    ensures forall k :: k != "sections" ==>
      Get(ScheduleJson(out).items[i].fields, k) == Get(leaves[i].fields, k)
    ensures Get(ScheduleJson(out).items[i].fields, "sections") == Some(SectionsJson(out[i].sections))
    ensures |out[i].sections| == SectionCount(n)
    ensures forall k :: k in SectionIds(out[i].sections) <==> 1 <= k <= n
    ensures forall j :: 0 <= j < |out[i].sections| ==>
      SlotFits(out[i].sections[j], MWF_TIME_SLOTS, TTH_TIME_SLOTS)
  {
    assert ScheduledFrom(out[i], leaves[i], n);
    SectionIdsOneToN(out[i].sections, n, MWF_TIME_SLOTS, TTH_TIME_SLOTS);
  }

  /** Since the two slot lists share no slot, an emitted section's slot determines its day type. */
  lemma EmittedDayFollowsSlot(out: seq<ScheduledCourse>, leaves: seq<Json>, n: int, i: nat, j: nat)
    requires Schedules(out, leaves, n) && i < |out| && j < |out[i].sections|
    ensures out[i].sections[j].day == MWF <==> out[i].sections[j].timeSlot in MWF_TIME_SLOTS
    ensures out[i].sections[j].day == TTh <==> out[i].sections[j].timeSlot in TTH_TIME_SLOTS
  {
    assert ScheduledFrom(out[i], leaves[i], n);
    SlotListsDisjoint();
    DayFollowsSlot(out[i].sections, n, MWF_TIME_SLOTS, TTH_TIME_SLOTS, j);
  }
}
