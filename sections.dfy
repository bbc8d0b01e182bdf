/**
 * Synthetic sections, as both schedule generators draw them: section `k`
 * (counting from 1) meets either on Monday/Wednesday/Friday, in a slot drawn
 * from the MWF list, or on Tuesday/Thursday, in a slot drawn from the TTh
 * list. The random draws are choices the model leaves open: every contract
 * below holds whichever day and slot are drawn.
 */
module Sections {
  import opened Wrappers
  import opened JsonValues

  datatype DayType = MWF | TTh

  /** The `day_type` string of a section. */
  function DayName(d: DayType): string {
    match d
    case MWF => "MWF"
    case TTh => "TTh"
  }

  datatype Section = Section(sectionId: int, day: DayType, timeSlot: string) {
    /** The section as the generators emit it: `{"section_id", "day_type", "time_slot"}`. */
    function ToJson(): Json {
      Obj([("section_id", Int(sectionId)), ("day_type", Str(DayName(day))), ("time_slot", Str(timeSlot))])
    }
  }

  function SectionsJson(secs: seq<Section>): (j: Json)
    ensures j.Arr? && |j.items| == |secs|
    ensures forall i :: 0 <= i < |secs| ==> j.items[i] == secs[i].ToJson()
  {
    Arr(seq(|secs|, i requires 0 <= i < |secs| => secs[i].ToJson()))
  }

  /** Reads a section dict back; `None` for anything that is not one. */
  function SectionFromJson(j: Json): Option<Section> {
    if !j.Obj? then None
    else
      match (Get(j.fields, "section_id"), Get(j.fields, "day_type"), Get(j.fields, "time_slot"))
      case (Some(Int(id)), Some(Str(d)), Some(Str(slot))) =>
        if d == "MWF" then Some(Section(id, MWF, slot))
        else if d == "TTh" then Some(Section(id, TTh, slot))
        else None
      case _ => None
  }

  /** A section dict carries everything about the section: reading it back gives the section. */
  lemma SectionJsonRoundTrip(s: Section)
    ensures SectionFromJson(s.ToJson()) == Some(s)
  {
    var f := s.ToJson().fields;
    assert Get(f, "section_id") == Some(Int(s.sectionId));
    assert Get(f, "day_type") == Some(Str(DayName(s.day)));
    assert Get(f, "time_slot") == Some(Str(s.timeSlot));
    match s.day
    case MWF =>
    case TTh => assert "TTh" != "MWF";
  }

  /** A section dict has exactly the keys `section_id`, `day_type` and `time_slot`, in that order. */
  lemma SectionJsonKeys(s: Section)
    ensures Keys(s.ToJson().fields) == ["section_id", "day_type", "time_slot"]
  {
  }

  /** `range(1, n + 1)` has this many elements. */
  function SectionCount(n: int): nat {
    if n < 0 then 0 else n
  }

  /** A section's slot comes from the list that matches its day type. */
  predicate SlotFits(s: Section, mwf: seq<string>, tth: seq<string>) {
    match s.day
    case MWF => s.timeSlot in mwf
    case TTh => s.timeSlot in tth
  }

  /** What a draw of `n` sections can produce: ids 1 to n in order, each with a slot matching its day. */
  predicate ValidSections(secs: seq<Section>, n: int, mwf: seq<string>, tth: seq<string>) {
    && |secs| == SectionCount(n)
    && forall i :: 0 <= i < |secs| ==> secs[i].sectionId == i + 1 && SlotFits(secs[i], mwf, tth)
  }

  /**
   * Draws `n` sections. Each picks a day type at random, then a slot at
   * random from that day's list; drawing from an empty list raises
   * `IndexError`, as `random.choice` does.
   */
  method DrawSections(n: int, mwf: seq<string>, tth: seq<string>) returns (r: Result<seq<Section>>)
    ensures r.Success? ==> ValidSections(r.value, n, mwf, tth)
    ensures r.Success? && n <= 0 ==> r.value == []
    ensures r.Success? && n >= 1 ==> |r.value| == n
    ensures r.Failure? ==> r.error == IndexError && n >= 1 && (|mwf| == 0 || |tth| == 0)
    ensures n <= 0 || (|mwf| > 0 && |tth| > 0) ==> r.Success?
  {
    var sections: seq<Section> := [];
    var id := 1;
    while id <= n
      invariant 1 <= id <= SectionCount(n) + 1
      invariant |sections| == id - 1
      invariant forall i :: 0 <= i < |sections| ==> sections[i].sectionId == i + 1 && SlotFits(sections[i], mwf, tth)
    {
      var onMwf: bool :| true;
      var day, slots := if onMwf then MWF else TTh, if onMwf then mwf else tth;
      if |slots| == 0 {
        return Failure(IndexError);
      }
      var k :| 0 <= k < |slots|;
      sections := sections + [Section(id, day, slots[k])];
      id := id + 1;
    }
    r := Success(sections);
  }

  function SectionIds(secs: seq<Section>): set<int> {
    set i | 0 <= i < |secs| :: secs[i].sectionId
  }

  /** The ids of a draw of `n` sections are exactly 1 to n, each once. */
  lemma SectionIdsOneToN(secs: seq<Section>, n: int, mwf: seq<string>, tth: seq<string>)
    requires ValidSections(secs, n, mwf, tth)
    ensures forall k :: k in SectionIds(secs) <==> 1 <= k <= n
    ensures forall i, j :: 0 <= i < j < |secs| ==> secs[i].sectionId < secs[j].sectionId
  {
    forall k | 1 <= k <= n ensures k in SectionIds(secs) {
      assert secs[k - 1].sectionId == k;
    }
  }

  /**
   * When no slot is in both lists, a section's slot alone tells its day
   * type: the two lists are never crossed.
   */
  lemma DayFollowsSlot(secs: seq<Section>, n: int, mwf: seq<string>, tth: seq<string>, i: nat)
    requires ValidSections(secs, n, mwf, tth) && i < |secs|
    requires forall s :: s in mwf ==> s !in tth
    ensures secs[i].day == MWF <==> secs[i].timeSlot in mwf
    ensures secs[i].day == TTh <==> secs[i].timeSlot in tth
  {
  }
}
