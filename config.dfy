/**
 * The constants of src/config.py the model uses: the credit targets and the
 * two lists of class meeting times, with what their strings mean as clock
 * intervals.
 */
module Config {
  import opened Wrappers

  const MIN_CREDITS: int := 12
  const TARGET_MIN_CREDITS: int := 16
  const TARGET_MAX_CREDITS: int := 18

  /** Meeting times for Monday/Wednesday/Friday sections. */
  const MWF_TIME_SLOTS: seq<string> := [
    "8:00 AM - 8:50 AM",
    "9:05 AM - 9:55 AM",
    "10:10 AM - 11:00 AM",
    "11:15 AM - 12:05 PM",
    "12:20 PM - 1:10 PM",
    "1:25 PM - 2:15 PM",
    "2:30 PM - 3:20 PM",
    "3:35 PM - 4:25 PM",
    "4:40 PM - 5:30 PM"
  ]

  /** Meeting times for Tuesday/Thursday sections. */
  const TTH_TIME_SLOTS: seq<string> := [
    "8:00 AM - 9:15 AM",
    "10:30 AM - 11:45 AM",
    "12:00 PM - 1:15 PM",
    "1:30 PM - 2:45 PM"
  ]

  /** The credit thresholds are ordered: the minimum load is below the target range. */
  lemma CreditThresholdsOrdered()
    ensures MIN_CREDITS <= TARGET_MIN_CREDITS <= TARGET_MAX_CREDITS
    ensures (MIN_CREDITS, TARGET_MIN_CREDITS, TARGET_MAX_CREDITS) == (12, 16, 18)
  {
  }

  predicate IsDigit(c: char) {
    '0' <= c <= '9'
  }

  function DigitAt(s: string, i: nat): int
    requires i < |s|
  {
    s[i] as int - '0' as int
  }

  /**
   * The twelve-hour clock reading `h:mm AM` or `h:mm PM` (hour 1 to 12, one
   * or two digits) that occupies the `n` characters of `s` from `lo`, as
   * minutes since midnight; `None` if those characters are not one.
   */
  function ClockMinutes(s: string, lo: nat, n: nat): (r: Option<int>)
    requires lo + n <= |s|
    ensures r.Some? ==> 0 <= r.value < 24 * 60
  {
    if n != 7 && n != 8 then None
    else
      var hi := lo + n;
      if !IsDigit(s[lo]) || (n == 8 && !IsDigit(s[lo + 1])) then None
      else if s[hi - 6] != ':' || !IsDigit(s[hi - 5]) || !IsDigit(s[hi - 4]) then None
      else if s[hi - 3] != ' ' || (s[hi - 2] != 'A' && s[hi - 2] != 'P') || s[hi - 1] != 'M' then None
      else
        var hour := if n == 7 then DigitAt(s, lo) else 10 * DigitAt(s, lo) + DigitAt(s, lo + 1);
        var minute := 10 * DigitAt(s, hi - 5) + DigitAt(s, hi - 4);
        if hour < 1 || hour > 12 || minute >= 60 then None
        else Some((hour % 12 + (if s[hi - 2] == 'P' then 12 else 0)) * 60 + minute)
  }

  /** A slot string `<start> - <end>` as the interval (start, end) in minutes since midnight. */
  function SlotInterval(slot: string): Option<(int, int)> {
    var cut := if |slot| >= 10 && slot[7] == ' ' then 7 else 8;
    if |slot| < cut + 3 || slot[cut] != ' ' || slot[cut + 1] != '-' || slot[cut + 2] != ' ' then None
    else
      var start := ClockMinutes(slot, 0, cut);
      var end := ClockMinutes(slot, cut + 3, |slot| - cut - 3);
      if start.Some? && end.Some? then Some((start.value, end.value)) else None
  }

  /**
   * A list of intervals as the source intends its slots: each ends after it
   * starts, and each ends before the next one starts, so the list is in
   * increasing order and no two intervals overlap.
   */
  predicate IsTimetable(intervals: seq<(int, int)>) {
    && (forall i :: 0 <= i < |intervals| ==> intervals[i].0 < intervals[i].1)
    && (forall i, j :: 0 <= i < |intervals| && j == i + 1 < |intervals| ==> intervals[i].1 < intervals[j].0)
  }

  predicate Distinct<T(==)>(xs: seq<T>) {
    forall i, j :: 0 <= i < j < |xs| ==> xs[i] != xs[j]
  }

  /** In a timetable every later interval starts after every earlier one ends. */
  lemma {:induction false} TimetableIncreasing(intervals: seq<(int, int)>, i: nat, j: nat)
    requires IsTimetable(intervals) && i < j < |intervals|
    ensures intervals[i].1 < intervals[j].0
    decreases j - i
  {
    if i + 1 < j {
      TimetableIncreasing(intervals, i + 1, j);
    }
  }

  /** No interval occurs twice in a timetable. */
  lemma TimetableDistinct(intervals: seq<(int, int)>)
    requires IsTimetable(intervals)
    ensures Distinct(intervals)
  {
    forall i, j | 0 <= i < j < |intervals| ensures intervals[i] != intervals[j] {
      TimetableIncreasing(intervals, i, j);
    }
  }

  /** The Monday/Wednesday/Friday slots as intervals in minutes since midnight. */
  const MWF_INTERVALS: seq<(int, int)> :=
    [(480, 530), (545, 595), (610, 660), (675, 725), (740, 790), (805, 855), (870, 920), (935, 985), (1000, 1050)]

  /** The Tuesday/Thursday slots as intervals in minutes since midnight. */
  const TTH_INTERVALS: seq<(int, int)> :=
    [(480, 555), (630, 705), (720, 795), (810, 885)]

  // Reading a slot string is a sizeable evaluation for the verifier, so each
  // slot is read in a lemma of its own.
  lemma MwfSlot0() ensures SlotInterval(MWF_TIME_SLOTS[0]) == Some((480, 530)) && MWF_INTERVALS[0] == (480, 530) {}
  lemma MwfSlot1() ensures SlotInterval(MWF_TIME_SLOTS[1]) == Some((545, 595)) && MWF_INTERVALS[1] == (545, 595) {}
  lemma MwfSlot2() ensures SlotInterval(MWF_TIME_SLOTS[2]) == Some((610, 660)) && MWF_INTERVALS[2] == (610, 660) {}
  lemma MwfSlot3() ensures SlotInterval(MWF_TIME_SLOTS[3]) == Some((675, 725)) && MWF_INTERVALS[3] == (675, 725) {}
  lemma MwfSlot4() ensures SlotInterval(MWF_TIME_SLOTS[4]) == Some((740, 790)) && MWF_INTERVALS[4] == (740, 790) {}
  lemma MwfSlot5() ensures SlotInterval(MWF_TIME_SLOTS[5]) == Some((805, 855)) && MWF_INTERVALS[5] == (805, 855) {}
  lemma MwfSlot6() ensures SlotInterval(MWF_TIME_SLOTS[6]) == Some((870, 920)) && MWF_INTERVALS[6] == (870, 920) {}
  lemma MwfSlot7() ensures SlotInterval(MWF_TIME_SLOTS[7]) == Some((935, 985)) && MWF_INTERVALS[7] == (935, 985) {}
  lemma MwfSlot8() ensures SlotInterval(MWF_TIME_SLOTS[8]) == Some((1000, 1050)) && MWF_INTERVALS[8] == (1000, 1050) {}
  lemma TthSlot0() ensures SlotInterval(TTH_TIME_SLOTS[0]) == Some((480, 555)) && TTH_INTERVALS[0] == (480, 555) {}
  lemma TthSlot1() ensures SlotInterval(TTH_TIME_SLOTS[1]) == Some((630, 705)) && TTH_INTERVALS[1] == (630, 705) {}
  lemma TthSlot2() ensures SlotInterval(TTH_TIME_SLOTS[2]) == Some((720, 795)) && TTH_INTERVALS[2] == (720, 795) {}
  lemma TthSlot3() ensures SlotInterval(TTH_TIME_SLOTS[3]) == Some((810, 885)) && TTH_INTERVALS[3] == (810, 885) {}

  /** Slot `i` of `slots` reads as interval `i` of `intervals`, for every slot. */
  predicate SlotsRead(slots: seq<string>, intervals: seq<(int, int)>) {
    |slots| == |intervals| && forall i :: 0 <= i < |slots| ==> SlotInterval(slots[i]) == Some(intervals[i])
  }

  lemma MwfSlotRead(i: nat)
    requires i < 9
    ensures SlotInterval(MWF_TIME_SLOTS[i]) == Some(MWF_INTERVALS[i])
  {
    if i == 0 { MwfSlot0(); }
    else if i == 1 { MwfSlot1(); }
    else if i == 2 { MwfSlot2(); }
    else if i == 3 { MwfSlot3(); }
    else if i == 4 { MwfSlot4(); }
    else if i == 5 { MwfSlot5(); }
    else if i == 6 { MwfSlot6(); }
    else if i == 7 { MwfSlot7(); }
    else { MwfSlot8(); }
  }

  lemma TthSlotRead(i: nat)
    requires i < 4
    ensures SlotInterval(TTH_TIME_SLOTS[i]) == Some(TTH_INTERVALS[i])
  {
    if i == 0 { TthSlot0(); }
    else if i == 1 { TthSlot1(); }
    else if i == 2 { TthSlot2(); }
    else { TthSlot3(); }
  }

  lemma MwfSlotsRead()
    ensures SlotsRead(MWF_TIME_SLOTS, MWF_INTERVALS)
  {
    forall i | 0 <= i < |MWF_TIME_SLOTS| ensures SlotInterval(MWF_TIME_SLOTS[i]) == Some(MWF_INTERVALS[i]) {
      MwfSlotRead(i);
    }
  }

  lemma TthSlotsRead()
    ensures SlotsRead(TTH_TIME_SLOTS, TTH_INTERVALS)
  {
    forall i | 0 <= i < |TTH_TIME_SLOTS| ensures SlotInterval(TTH_TIME_SLOTS[i]) == Some(TTH_INTERVALS[i]) {
      TthSlotRead(i);
    }
  }

  /**
   * The Monday/Wednesday/Friday list: nine distinct slots, each reading as
   * a 50-minute interval, in increasing order and without overlap.
   */
  lemma MwfSlotsAreTimetable()
    ensures |MWF_TIME_SLOTS| == |MWF_INTERVALS| == 9
    ensures Distinct(MWF_TIME_SLOTS)
    ensures SlotsRead(MWF_TIME_SLOTS, MWF_INTERVALS)
    ensures IsTimetable(MWF_INTERVALS) && Distinct(MWF_INTERVALS)
    ensures forall i :: 0 <= i < 9 ==> MWF_INTERVALS[i].1 - MWF_INTERVALS[i].0 == 50
  {
    MwfSlotsRead();
    MwfSlotStrings();
    MwfIntervals();
  }

  lemma MwfSlotStrings()
    ensures |MWF_TIME_SLOTS| == 9 && Distinct(MWF_TIME_SLOTS)
  {
  }

  lemma MwfIntervals()
    ensures |MWF_INTERVALS| == 9
    ensures IsTimetable(MWF_INTERVALS) && Distinct(MWF_INTERVALS)
    ensures forall i :: 0 <= i < 9 ==> MWF_INTERVALS[i].1 - MWF_INTERVALS[i].0 == 50
  {
    TimetableDistinct(MWF_INTERVALS);
  }

  /**
   * The Tuesday/Thursday list: four distinct slots, each reading as a
   * 75-minute interval, in increasing order and without overlap.
   */
  lemma TthSlotsAreTimetable()
    ensures |TTH_TIME_SLOTS| == |TTH_INTERVALS| == 4
    ensures Distinct(TTH_TIME_SLOTS)
    ensures SlotsRead(TTH_TIME_SLOTS, TTH_INTERVALS)
    ensures IsTimetable(TTH_INTERVALS) && Distinct(TTH_INTERVALS)
    ensures forall i :: 0 <= i < 4 ==> TTH_INTERVALS[i].1 - TTH_INTERVALS[i].0 == 75
  {
    TthSlotsRead();
    TthSlotStrings();
    TthIntervals();
  }

  lemma TthSlotStrings()
    ensures |TTH_TIME_SLOTS| == 4 && Distinct(TTH_TIME_SLOTS)
  {
  }

  lemma TthIntervals()
    ensures |TTH_INTERVALS| == 4
    ensures IsTimetable(TTH_INTERVALS) && Distinct(TTH_INTERVALS)
    ensures forall i :: 0 <= i < 4 ==> TTH_INTERVALS[i].1 - TTH_INTERVALS[i].0 == 75
  {
    TimetableDistinct(TTH_INTERVALS);
  }

  /** No string is both a Monday/Wednesday/Friday slot and a Tuesday/Thursday slot. */
  lemma SlotListsDisjoint()
    ensures forall s :: s in MWF_TIME_SLOTS ==> s !in TTH_TIME_SLOTS
  {
  }
}
