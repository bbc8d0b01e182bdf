/**
 * The catalog walk shared by `generate_schedule_with_times`
 * (src/class_timings.py) and `generate_schedule` (classTimings.py): which
 * leaf courses a catalog yields, in which order, and when the walk raises.
 *
 * The walk visits category -> subcategory or year -> entry. It does not look
 * at a category's name: it checks the category's value for the marker keys
 * `class_options`, `major_related_classes` and `major_related_paths`, in that
 * order, and a category holding none of them yields nothing.
 */
module Catalog {
  import opened Wrappers
  import opened JsonValues

  /**
   * The leaves that one loop over `xs` yields, each element contributing
   * `f` of itself, in order; the first element whose contribution raises
   * makes the whole loop raise.
   */
  function Gather<T>(xs: seq<T>, f: T -> Result<seq<Json>>): Result<seq<Json>> {
    if xs == [] then Success([])
    else
      var init :- Gather(xs[..|xs| - 1], f);
      var last :- f(xs[|xs| - 1]);
      Success(init + last)
  }

  /** An entry of a `class_options` list: a lab group with `courses` yields its members, any other entry itself. */
  function OptionEntryLeaves(course: Json): Result<seq<Json>> {
    var nested :- Contains(course, "courses");
    if nested then
      var members :- Lookup(course, "courses");
      Elements(members)
    else Success([course])
  }

  /** One subcategory of `class_options` and its list of entries. */
  function OptionGroupLeaves(group: (string, Json)): Result<seq<Json>> {
    var courses :- Elements(group.1);
    Gather(courses, OptionEntryLeaves)
  }

  /** One path: the courses under its `courses` key. */
  function PathLeaves(path: Json): Result<seq<Json>> {
    var courses :- Lookup(path, "courses");
    Elements(courses)
  }

  /** An entry of a year list: a requirement with `paths` yields every course of every path, any other entry itself. */
  function MajorEntryLeaves(course: Json): Result<seq<Json>> {
    var hasPaths :- Contains(course, "paths");
    if hasPaths then
      var pathList :- Lookup(course, "paths");
      var paths :- Elements(pathList);
      Gather(paths, PathLeaves)
    else Success([course])
  }

  /** One year of `major_related_classes` and its list of entries. */
  function YearLeaves(year: (string, Json)): Result<seq<Json>> {
    var courses :- Elements(year.1);
    Gather(courses, MajorEntryLeaves)
  }

  /** The three-way dispatch on the marker keys inside a category's value. */
  function DetailsLeaves(details: Json): Result<seq<Json>> {
    var isOptions :- Contains(details, "class_options");
    if isOptions then
      var options :- Lookup(details, "class_options");
      var groups :- Items(options);
      Gather(groups, OptionGroupLeaves)
    else
      var isMajor :- Contains(details, "major_related_classes");
      if isMajor then
        var yearMap :- Lookup(details, "major_related_classes");
        var years :- Items(yearMap);
        Gather(years, YearLeaves)
      else
        var isPaths :- Contains(details, "major_related_paths");
        if isPaths then
          var requirement :- Lookup(details, "major_related_paths");
          var pathList :- Lookup(requirement, "paths");
          var paths :- Elements(pathList);
          Gather(paths, PathLeaves)
        else Success([])
  }

  function CategoryLeaves(category: (string, Json)): Result<seq<Json>> {
    DetailsLeaves(category.1)
  }

  /** Every leaf course of a catalog, in walk order. */
  function Flatten(catalog: Json): Result<seq<Json>> {
    var categories :- Items(catalog);
    Gather(categories, CategoryLeaves)
  }

  /** The walk completes and every leaf is acceptable to the per-course step `ok`. */
  predicate Admits(r: Result<seq<Json>>, ok: Json -> bool) {
    r.Success? && forall i :: 0 <= i < |r.value| ==> ok(r.value[i])
  }

  // ---------------------------------------------------------------------
  // Loops over prefixes: what the generator loops rely on.

  /** One more loop iteration: the prefix through `xs[i]` is the prefix before it followed by `f(xs[i])`. */
  lemma GatherStep<T>(xs: seq<T>, i: nat, f: T -> Result<seq<Json>>)
    requires i < |xs|
    ensures Gather(xs[..i + 1], f).Success? <==> Gather(xs[..i], f).Success? && f(xs[i]).Success?
    ensures Gather(xs[..i + 1], f).Success? ==>
      Gather(xs[..i + 1], f).value == Gather(xs[..i], f).value + f(xs[i]).value
  {
    assert xs[..i + 1][..i] == xs[..i];
  }

  lemma AdmitsConcat(a: seq<Json>, b: seq<Json>, ok: Json -> bool)
    ensures Admits(Success(a + b), ok) <==> Admits(Success(a), ok) && Admits(Success(b), ok)
  {
    if Admits(Success(a), ok) && Admits(Success(b), ok) {
      forall i | 0 <= i < |a + b| ensures ok((a + b)[i]) {
        if i >= |a| { assert (a + b)[i] == b[i - |a|]; }
      }
    }
    if Admits(Success(a + b), ok) {
      forall i | 0 <= i < |a| ensures ok(a[i]) {
        assert (a + b)[i] == a[i];
      }
      forall i | 0 <= i < |b| ensures ok(b[i]) {
        assert (a + b)[|a| + i] == b[i];
      }
    }
  }

  lemma AdmitsStep<T>(xs: seq<T>, i: nat, f: T -> Result<seq<Json>>, ok: Json -> bool)
    requires i < |xs|
    ensures Admits(Gather(xs[..i + 1], f), ok) <==> Admits(Gather(xs[..i], f), ok) && Admits(f(xs[i]), ok)
  {
    GatherStep(xs, i, f);
    if Gather(xs[..i], f).Success? && f(xs[i]).Success? {
      AdmitsConcat(Gather(xs[..i], f).value, f(xs[i]).value, ok);
    }
  }

  /** Once a prefix of the loop raises or yields an unacceptable leaf, so does the whole loop. */
  lemma {:induction false} AdmitsPrefix<T>(xs: seq<T>, i: nat, f: T -> Result<seq<Json>>, ok: Json -> bool)
    requires i <= |xs|
    ensures Admits(Gather(xs, f), ok) ==> Admits(Gather(xs[..i], f), ok)
    decreases |xs| - i
  {
    if i < |xs| {
      AdmitsPrefix(xs, i + 1, f, ok);
      AdmitsStep(xs, i, f, ok);
    } else {
      assert xs[..i] == xs;
    }
  }

  /** The loop step the generator loops need, in one call. */
  lemma LoopStep<T>(xs: seq<T>, i: nat, f: T -> Result<seq<Json>>, ok: Json -> bool)
    requires i < |xs|
    ensures Admits(Gather(xs[..i + 1], f), ok) <==> Admits(Gather(xs[..i], f), ok) && Admits(f(xs[i]), ok)
    ensures Gather(xs[..i + 1], f).Success? <==> Gather(xs[..i], f).Success? && f(xs[i]).Success?
    ensures Gather(xs[..i + 1], f).Success? ==>
      Gather(xs[..i + 1], f).value == Gather(xs[..i], f).value + f(xs[i]).value
    ensures Admits(Gather(xs, f), ok) ==> Admits(Gather(xs[..i + 1], f), ok)
  {
    GatherStep(xs, i, f);
    AdmitsStep(xs, i, f, ok);
    AdmitsPrefix(xs, i + 1, f, ok);
  }

  // ---------------------------------------------------------------------
  // Properties of the walk.

  /**
   * Output order follows iteration order: the loop over `xs + ys` yields
   * the leaves of `xs` and then those of `ys`; it raises what `xs` raises,
   * or else what `ys` raises.
   */
  lemma {:induction false} GatherConcat<T>(xs: seq<T>, ys: seq<T>, f: T -> Result<seq<Json>>)
    ensures Gather(xs, f).Failure? ==> Gather(xs + ys, f) == Gather(xs, f)
    ensures Gather(xs, f).Success? && Gather(ys, f).Failure? ==> Gather(xs + ys, f) == Gather(ys, f)
    ensures Gather(xs, f).Success? && Gather(ys, f).Success? ==>
      Gather(xs + ys, f) == Success(Gather(xs, f).value + Gather(ys, f).value)
    decreases |ys|
  {
    if ys == [] {
      assert xs + ys == xs;
      if Gather(xs, f).Success? {
        assert Gather(xs, f).value + [] == Gather(xs, f).value;
      }
    } else {
      var ys' := ys[..|ys| - 1];
      var y := ys[|ys| - 1];
      GatherConcat(xs, ys', f);
      assert (xs + ys)[..|xs + ys| - 1] == xs + ys';
      assert (xs + ys)[|xs + ys| - 1] == y;
      if Gather(xs, f).Success? && Gather(ys', f).Success? && f(y).Success? {
        var a, b, c := Gather(xs, f).value, Gather(ys', f).value, f(y).value;
        assert (a + b) + c == a + (b + c);
      }
    }
  }

  /** Replacing a stretch of the loop by one that yields the same result leaves the loop's result unchanged. */
  lemma GatherReplace<T>(before: seq<T>, mid: seq<T>, mid': seq<T>, after: seq<T>, f: T -> Result<seq<Json>>)
    requires Gather(mid, f) == Gather(mid', f)
    ensures Gather(before + mid + after, f) == Gather(before + mid' + after, f)
  {
    GatherConcat(before, mid, f);
    GatherConcat(before + mid, after, f);
    GatherConcat(before, mid', f);
    GatherConcat(before + mid', after, f);
  }

  /** A one-element loop yields exactly that element's contribution. */
  lemma GatherSingle<T>(x: T, f: T -> Result<seq<Json>>)
    ensures Gather([x], f) == f(x)
  {
    assert [x][..0] == [];
    if f(x).Success? {
      assert [] + f(x).value == f(x).value;
    }
  }

  /** Output order at the top level: a catalog of two category lists yields the leaves of the first list, then of the second. */
  lemma FlattenCategoriesInOrder(first: seq<(string, Json)>, second: seq<(string, Json)>)
    ensures Flatten(Obj(first)).Failure? ==> Flatten(Obj(first + second)) == Flatten(Obj(first))
    ensures Flatten(Obj(first)).Success? && Flatten(Obj(second)).Failure? ==>
      Flatten(Obj(first + second)) == Flatten(Obj(second))
    ensures Flatten(Obj(first)).Success? && Flatten(Obj(second)).Success? ==>
      Flatten(Obj(first + second)) == Success(Flatten(Obj(first)).value + Flatten(Obj(second)).value)
  {
    GatherConcat(first, second, CategoryLeaves);
  }

  /**
   * A category value that is a dict holding none of the three marker keys
   * yields nothing, whatever its name and whatever else it holds.
   */
  lemma UnmarkedCategoryYieldsNothing(details: Json)
    requires details.Obj?
    requires "class_options" !in Keys(details.fields)
    requires "major_related_classes" !in Keys(details.fields)
    requires "major_related_paths" !in Keys(details.fields)
    ensures DetailsLeaves(details) == Success([])
  {
  }

  /**
   * A category value holding `class_options` is walked by that branch only:
   * the other two marker keys, if present, are ignored.
   */
  lemma ClassOptionsTakesPrecedence(details: Json)
    requires details.Obj? && "class_options" in Keys(details.fields)
    ensures DetailsLeaves(details) ==
      (var options := Get(details.fields, "class_options").value;
       if options.Obj? then Gather(options.fields, OptionGroupLeaves) else Failure(AttributeError))
  {
  }

  /** Every member yielded by `Elements` of a value is different from any dict that holds that value. */
  lemma ElementsSmaller(holder: Json, k: string)
    requires holder.Obj? && Get(holder.fields, k).Some?
    ensures Elements(Get(holder.fields, k).value).Success? ==>
      holder !in Elements(Get(holder.fields, k).value).value
  {
    GetSmaller(holder.fields, k);
    var v := Get(holder.fields, k).value;
    if v.Arr? {
      forall x | x in v.items ensures x != holder {
        assert x < v;
      }
    }
  }

  /** A lab group (an entry with `courses`) is never itself emitted: only its members are. */
  lemma LabGroupNotEmitted(course: Json)
    requires course.Obj? && "courses" in Keys(course.fields)
    ensures OptionEntryLeaves(course).Success? ==> course !in OptionEntryLeaves(course).value
  {
    ElementsSmaller(course, "courses");
  }

  /**
   * The leaves of a path list are each strictly smaller than the dict `owner`
   * holding that path list, or strings (the keys or characters visited when a
   * `courses` value is a dict or a string).
   */
  lemma {:induction false} PathsSmaller(paths: seq<Json>, owner: Json)
    requires forall p :: p in paths ==> p < owner || p.Str?
    ensures Gather(paths, PathLeaves).Success? ==>
      forall x :: x in Gather(paths, PathLeaves).value ==> x < owner || x.Str?
    decreases |paths|
  {
    if paths != [] {
      var n := |paths| - 1;
      var init := paths[..n];
      var last := paths[n];
      assert forall p :: p in init ==> p in paths;
      PathsSmaller(init, owner);
      GatherStep(paths, n, PathLeaves);
      assert paths[..n + 1] == paths;
      if Gather(paths, PathLeaves).Success? {
        assert last.Obj?;
        GetSmaller(last.fields, "courses");
        var members := Get(last.fields, "courses").value;
        if members.Arr? {
          forall x | x in members.items ensures x < owner {
            assert x < members;
          }
        }
      }
    }
  }

  /** A requirement with `paths` is never itself emitted: only the courses of its paths are. */
  lemma PathRequirementNotEmitted(course: Json)
    requires course.Obj? && "paths" in Keys(course.fields)
    ensures MajorEntryLeaves(course).Success? ==> course !in MajorEntryLeaves(course).value
  {
    var pathList := Get(course.fields, "paths").value;
    GetSmaller(course.fields, "paths");
    if Elements(pathList).Success? {
      var paths := Elements(pathList).value;
      forall p | p in paths ensures p < course || p.Str? {
        if pathList.Arr? {
          assert p < pathList;
        }
      }
      PathsSmaller(paths, course);
    }
  }

  /** A plain course: a dict with none of the grouping keys. */
  predicate IsPlainCourse(c: Json) {
    c.Obj? && "courses" !in Keys(c.fields) && "paths" !in Keys(c.fields)
  }

  /** A list of plain courses yields itself in a `class_options` list. */
  lemma {:induction false} PlainOptionEntries(cs: seq<Json>)
    requires forall i :: 0 <= i < |cs| ==> IsPlainCourse(cs[i])
    ensures Gather(cs, OptionEntryLeaves) == Success(cs)
    decreases |cs|
  {
    if cs != [] {
      PlainOptionEntries(cs[..|cs| - 1]);
      assert cs[..|cs| - 1] + [cs[|cs| - 1]] == cs;
    }
  }

  /** A list of plain courses yields itself in a year list. */
  lemma {:induction false} PlainMajorEntries(cs: seq<Json>)
    requires forall i :: 0 <= i < |cs| ==> IsPlainCourse(cs[i])
    ensures Gather(cs, MajorEntryLeaves) == Success(cs)
    decreases |cs|
  {
    if cs != [] {
      PlainMajorEntries(cs[..|cs| - 1]);
      assert cs[..|cs| - 1] + [cs[|cs| - 1]] == cs;
    }
  }

  /** Walking `[x] + ys` yields what `x` contributes, then what `ys` does. */
  lemma GatherCons<T>(x: T, ys: seq<T>, f: T -> Result<seq<Json>>)
    requires f(x).Success? && Gather(ys, f).Success?
    ensures Gather([x] + ys, f) == Success(f(x).value + Gather(ys, f).value)
  {
    GatherSingle(x, f);
    GatherConcat([x], ys, f);
  }

  /**
   * The leaf count does not depend on nesting: a `class_options` list that
   * holds a lab group of plain courses yields the same leaves, in the same
   * order, as the list with the group replaced by its members.
   */
  lemma LabGroupIsTransparent(before: seq<Json>, name: string, members: seq<Json>, after: seq<Json>)
    requires forall i :: 0 <= i < |members| ==> IsPlainCourse(members[i])
    ensures Gather(before + [Obj([("path_name", Str(name)), ("courses", Arr(members))])] + after, OptionEntryLeaves)
         == Gather(before + members + after, OptionEntryLeaves)
  {
    var group := Obj([("path_name", Str(name)), ("courses", Arr(members))]);
    assert Keys(group.fields) == ["path_name", "courses"];
    assert OptionEntryLeaves(group) == Success(members);
    GatherSingle(group, OptionEntryLeaves);
    PlainOptionEntries(members);
    GatherReplace(before, [group], members, after, OptionEntryLeaves);
  }
}
