/**
 * The schedule completer of the timetable page: a day's sparse list of
 * (time slot, entry) rows is joined against the fixed list of nine canonical
 * slots, a missing slot becoming a break, and Sunday showing no class rows.
 */
module Schedule {
  import opened Wrappers

  /** One row of a day: a time-slot label and the free-form entry string. */
  datatype Entry = Entry(time: string, entry: string)

  /** The canonical slots, 09:00 AM to 05:55 PM, in display order. */
  const AllTimeSlots: seq<string> := [
    "09:00 AM - 09:55 AM",
    "10:00 AM - 10:55 AM",
    "11:00 AM - 11:55 AM",
    "12:00 PM - 12:55 PM",
    "01:00 PM - 01:55 PM",
    "02:00 PM - 02:55 PM",
    "03:00 PM - 03:55 PM",
    "04:00 PM - 04:55 PM",
    "05:00 PM - 05:55 PM"
  ]

  /** The placeholder shown for a slot without a class. */
  function Break(slot: string): Entry {
    Entry(slot, "")
  }

  /** `d[j]` is the first row of `d` whose label is `t`. */
  ghost predicate FirstWithTime(d: seq<Entry>, t: string, j: int) {
    0 <= j < |d| && d[j].time == t && forall j' :: 0 <= j' < j ==> d[j'].time != t
  }

  /** No row of `d` has the label `t`. */
  ghost predicate NoneWithTime(d: seq<Entry>, t: string) {
    forall j :: 0 <= j < |d| ==> d[j].time != t
  }

  /** `Array.prototype.find` with an exact label comparison: the first row labelled `t`. */
  function Find(d: seq<Entry>, t: string): (r: Option<Entry>)
    ensures r.None? <==> NoneWithTime(d, t)
    ensures r.Some? ==> exists j :: FirstWithTime(d, t, j) && r.value == d[j]
  {
    if d == [] then None
    else if d[0].time == t then
      assert FirstWithTime(d, t, 0);
      Some(d[0])
    else
      var r := Find(d[1..], t);
      assert r.Some? ==> exists j :: FirstWithTime(d[1..], t, j) && r.value == d[1..][j];
      assert forall j :: FirstWithTime(d[1..], t, j) ==> FirstWithTime(d, t, j + 1);
      r
  }

  /** The row shown for one slot: the first row labelled with it, else a break. */
  function Fill(d: seq<Entry>, slot: string): (r: Entry)
    ensures r.time == slot
    ensures forall j :: FirstWithTime(d, slot, j) ==> r == d[j]
    ensures NoneWithTime(d, slot) ==> r == Break(slot)
  {
    var r := Find(d, slot).GetOr(Break(slot));
    assert forall j :: FirstWithTime(d, slot, j) ==> r == d[j] by {
      forall j | FirstWithTime(d, slot, j)
        ensures r == d[j]
      {
        var j' :| FirstWithTime(d, slot, j') && Find(d, slot).value == d[j'];
        FirstWithTimeUnique(d, slot, j, j');
      }
    }
    r
  }

  /**
   * The complete list for a day: one row per canonical slot, in canonical
   * order, holding the first row of `d` with that label unchanged, or a
   * break when `d` has none.
   */
  function FillBreakSlots(d: seq<Entry>): (r: seq<Entry>)
    ensures |r| == |AllTimeSlots|
    ensures forall i :: 0 <= i < |r| ==> r[i].time == AllTimeSlots[i]
    ensures forall i, j :: 0 <= i < |r| && FirstWithTime(d, AllTimeSlots[i], j) ==> r[i] == d[j]
    ensures forall i :: 0 <= i < |r| && NoneWithTime(d, AllTimeSlots[i]) ==> r[i] == Break(AllTimeSlots[i])
  {
    seq(|AllTimeSlots|, i requires 0 <= i < |AllTimeSlots| => Fill(d, AllTimeSlots[i]))
  }

  lemma FirstWithTimeUnique(d: seq<Entry>, t: string, j: int, j': int)
    requires FirstWithTime(d, t, j) && FirstWithTime(d, t, j')
    ensures j == j'
  {
  }

  /** No two canonical slots share a label. */
  lemma SlotsDistinct()
    ensures forall a, b :: 0 <= a < b < |AllTimeSlots| ==> AllTimeSlots[a] != AllTimeSlots[b]
  {
  }

  /** Some row of `d` carries the label `t`, so a first such row exists. */
  lemma FirstWithTimeExists(d: seq<Entry>, t: string, k: int)
    requires 0 <= k < |d| && d[k].time == t
    ensures exists j :: FirstWithTime(d, t, j)
  {
    var r := Find(d, t);
    assert !NoneWithTime(d, t);
  }

  /** A row is a break exactly when its entry is empty (`!item.entry`). */
  predicate IsBreak(x: Entry) {
    x.entry == ""
  }

  /** Completing a day with no rows shows nine breaks, one per canonical slot. */
  lemma FillBreakSlotsEmpty()
    ensures var r := FillBreakSlots([]);
      |r| == 9 && forall i :: 0 <= i < 9 ==> r[i] == Break(AllTimeSlots[i]) && IsBreak(r[i])
  {
  }

  /**
   * Nothing is invented: every row shown is a row of the day's list, or else a
   * break for a canonical slot that the list does not mention.
   */
  lemma CompletedRowOrigin(d: seq<Entry>, x: Entry)
    requires x in FillBreakSlots(d)
    ensures x.time in AllTimeSlots
    ensures x in d || (x == Break(x.time) && NoneWithTime(d, x.time))
  {
    var r := FillBreakSlots(d);
    var i :| 0 <= i < |r| && r[i] == x;
    if !NoneWithTime(d, AllTimeSlots[i]) {
      var k :| 0 <= k < |d| && d[k].time == AllTimeSlots[i];
      FirstWithTimeExists(d, AllTimeSlots[i], k);
    }
  }

  /**
   * A row of the day's list is shown exactly when its label is a canonical
   * slot and it is the first row carrying that label.
   */
  lemma ShownRows(d: seq<Entry>, k: int)
    requires 0 <= k < |d|
    ensures d[k] in FillBreakSlots(d) <==>
      d[k].time in AllTimeSlots && exists j :: FirstWithTime(d, d[k].time, j) && d[j] == d[k]
  {
    var r := FillBreakSlots(d);
    FirstWithTimeExists(d, d[k].time, k);
    if d[k] in r {
      var i :| 0 <= i < |r| && r[i] == d[k];
      var j :| FirstWithTime(d, d[k].time, j);
      assert r[i] == d[j];
    }
    if d[k].time in AllTimeSlots {
      var i :| 0 <= i < |AllTimeSlots| && AllTimeSlots[i] == d[k].time;
      var j :| FirstWithTime(d, d[k].time, j);
      if d[j] == d[k] {
        assert r[i] == d[k];
      }
    }
  }

  /** A row whose label is not one of the canonical slots never appears. */
  lemma OrphanDropped(d: seq<Entry>, x: Entry)
    requires x.time !in AllTimeSlots
    ensures x !in FillBreakSlots(d)
  {
    if x in FillBreakSlots(d) {
      CompletedRowOrigin(d, x);
    }
  }

  /** A later row that repeats a slot's label with different content is hidden by the first. */
  lemma LaterDuplicateDropped(d: seq<Entry>, j: int, k: int)
    requires 0 <= j < k < |d| && FirstWithTime(d, d[k].time, j) && d[j] != d[k]
    ensures d[k] !in FillBreakSlots(d)
  {
    ShownRows(d, k);
    forall j' | FirstWithTime(d, d[k].time, j')
      ensures j' == j
    {
      FirstWithTimeUnique(d, d[k].time, j, j');
    }
  }

  /** Completing an already complete day changes nothing. */
  lemma {:induction false} FillBreakSlotsIdempotent(d: seq<Entry>)
    ensures FillBreakSlots(FillBreakSlots(d)) == FillBreakSlots(d)
  {
    var r := FillBreakSlots(d);
    var r' := FillBreakSlots(r);
    SlotsDistinct();
    forall i | 0 <= i < |r|
      ensures r'[i] == r[i]
    {
      assert FirstWithTime(r, AllTimeSlots[i], i);
    }
  }

  /** No two rows of `d` carry the same label. */
  ghost predicate DistinctTimes(d: seq<Entry>) {
    forall a, b :: 0 <= a < b < |d| ==> d[a].time != d[b].time
  }

  /**
   * When no label is repeated, the order in which a day lists its rows does
   * not matter: any rearrangement of the rows completes to the same day.
   */
  lemma FillOrderIndependent(d: seq<Entry>, e: seq<Entry>)
    requires multiset(d) == multiset(e) && DistinctTimes(d)
    ensures FillBreakSlots(d) == FillBreakSlots(e)
  {
    var r, r' := FillBreakSlots(d), FillBreakSlots(e);
    forall i | 0 <= i < |r|
      ensures r[i] == r'[i]
    {
      var t := AllTimeSlots[i];
      if NoneWithTime(d, t) {
        forall k | 0 <= k < |e|
          ensures e[k].time != t
        {
          assert e[k] in multiset(e);
        }
      } else {
        var k :| 0 <= k < |d| && d[k].time == t;
        assert d[k] in multiset(e);
        var k' :| 0 <= k' < |e| && e[k'] == d[k];
        FirstWithTimeExists(e, t, k');
        var m :| FirstWithTime(e, t, m);
        assert e[m] in multiset(d);
        var n :| 0 <= n < |d| && d[n] == e[m];
        assert n == k;
        FirstWithTimeExists(d, t, k);
        var j :| FirstWithTime(d, t, j);
        assert j == k;
      }
    }
  }

  /** The days of the week, as the day selector offers them. */
  datatype Day = Sun | Mon | Tue | Wed | Thu | Fri | Sat

  /** The key a day is stored under in the timetable. */
  function DayKey(day: Day): (k: string)
    ensures day == Sun <==> k == "SUN"
    ensures |k| == 3
  {
    match day
    case Sun => "SUN"
    case Mon => "MON"
    case Tue => "TUE"
    case Wed => "WED"
    case Thu => "THU"
    case Fri => "FRI"
    case Sat => "SAT"
  }

  /**
   * The rows the page shows for the selected day: no rows on Sunday; otherwise
   * the completion of the day's rows, a day missing from the timetable
   * counting as a day without rows.
   */
  function DayEntries(timetable: map<string, seq<Entry>>, day: Day): (r: seq<Entry>)
    ensures day == Sun ==> r == []
    ensures day != Sun ==> r == FillBreakSlots(if DayKey(day) in timetable then timetable[DayKey(day)] else [])
    ensures day != Sun ==> |r| == |AllTimeSlots| && forall i :: 0 <= i < |r| ==> r[i].time == AllTimeSlots[i]
    ensures day != Sun && DayKey(day) !in timetable ==> forall i :: 0 <= i < |r| ==> r[i] == Break(AllTimeSlots[i])
    ensures day != Sun && DayKey(day) in timetable ==>
      forall x :: x in r ==> x in timetable[DayKey(day)] || (IsBreak(x) && NoneWithTime(timetable[DayKey(day)], x.time))
  {
    var dayData := if DayKey(day) in timetable then timetable[DayKey(day)] else [];
    if day == Sun then []
    else
      var r := FillBreakSlots(dayData);
      assert forall x :: x in r ==> x in dayData || (IsBreak(x) && NoneWithTime(dayData, x.time)) by {
        forall x | x in r
          ensures x in dayData || (IsBreak(x) && NoneWithTime(dayData, x.time))
        {
          CompletedRowOrigin(dayData, x);
        }
      }
      r
  }

  /** Monday as the shipped timetable lists it: six classes, three free slots. */
  const Monday: seq<Entry> := [
    Entry("09:00 AM - 09:55 AM", "P-25B17CI471 24A12 (HSL) CL9_1"),
    Entry("10:00 AM - 10:55 AM", "P-25B17CI471 24A12 (HSL) CL9_1"),
    Entry("11:00 AM - 11:55 AM", "P-25B17CI473 24A12 (RBT) CL6"),
    Entry("12:00 PM - 12:55 PM", "P-25B17CI473 24A12 (RBT) CL6"),
    Entry("02:00 PM - 02:55 PM", "L-25B1WHS434 (RTK) LT3"),
    Entry("04:00 PM - 04:55 PM", "L-25B11CI413 24A11,24A12,24A13 (RBT) LT2")
  ]

  /** Each Monday row is the first with its label. */
  lemma MondayFirsts()
    ensures FirstWithTime(Monday, AllTimeSlots[0], 0) && FirstWithTime(Monday, AllTimeSlots[1], 1)
    ensures FirstWithTime(Monday, AllTimeSlots[2], 2) && FirstWithTime(Monday, AllTimeSlots[3], 3)
    ensures FirstWithTime(Monday, AllTimeSlots[5], 4) && FirstWithTime(Monday, AllTimeSlots[7], 5)
  {
  }

  /** No Monday row is labelled 01:00 PM, 03:00 PM or 05:00 PM. */
  lemma MondayGaps()
    ensures NoneWithTime(Monday, AllTimeSlots[4])
    ensures NoneWithTime(Monday, AllTimeSlots[6])
    ensures NoneWithTime(Monday, AllTimeSlots[8])
  {
  }

  /**
   * Monday completes to its six classes, in order, with breaks at 01:00 PM,
   * 03:00 PM and 05:00 PM.
   */
  lemma MondayFilled()
    ensures var r := FillBreakSlots(Monday);
      && r[0] == Monday[0] && r[1] == Monday[1] && r[2] == Monday[2] && r[3] == Monday[3]
      && r[4] == Break(AllTimeSlots[4]) && r[5] == Monday[4] && r[6] == Break(AllTimeSlots[6])
      && r[7] == Monday[5] && r[8] == Break(AllTimeSlots[8])
  {
    MondayFirsts();
    MondayGaps();
  }

  /** The page shows the completed Monday when Monday is selected. */
  lemma MondayShown()
    ensures DayEntries(map["MON" := Monday], Mon) == FillBreakSlots(Monday)
  {
  }
}
