/**
 * The occupied-slot map the booking page is rendered with (the `unavailable_slots`
 * dictionary built in `booking` in main/views.py).
 *
 * Every existing booking, whatever its confirmation state, contributes its date as a
 * key and, under it, the "%H:%M" strings of start, start+30, start+60, ... that lie
 * before its stored end time, each string at most once per date.
 */
module Availability {
  import opened Wrappers
  import opened Clock

  /** The four columns the view selects (`booking_date`, `booking_time`,
      `booking_end_time`; the duration column is selected but never read). */
  datatype ExistingBooking = ExistingBooking(date: int, start: int, end: int)

  predicate WellFormed(b: ExistingBooking) {
    IsTimeOfDay(b.start) && IsTimeOfDay(b.end)
  }

  predicate AllWellFormed(bookings: seq<ExistingBooking>) {
    forall j :: 0 <= j < |bookings| ==> WellFormed(bookings[j])
  }

  const SlotStep: int := 30

  /** start, start+30, ... while below end. */
  function SlotTimes(start: int, end: int): (r: seq<int>)
    ensures forall k :: 0 <= k < |r| ==> start <= r[k] < end
    decreases end - start
  {
    if start < end then [start] + SlotTimes(start + SlotStep, end) else []
  }

  /** The "%H:%M" strings of SlotTimes(start, end), in order. */
  function SlotLabels(start: int, end: int): seq<string>
    requires 0 <= start && end <= MinutesPerDay
    decreases end - start
  {
    if start < end then [FormatHHMM(start)] + SlotLabels(start + SlotStep, end) else []
  }

  lemma {:induction false} SlotLabelsAt(start: int, end: int)
    requires 0 <= start && end <= MinutesPerDay
    ensures |SlotLabels(start, end)| == |SlotTimes(start, end)|
    ensures forall k :: 0 <= k < |SlotTimes(start, end)| ==>
              SlotLabels(start, end)[k] == FormatHHMM(SlotTimes(start, end)[k])
    decreases end - start
  {
    if start < end {
      SlotLabelsAt(start + SlotStep, end);
    }
  }

  lemma AppendNewStep(list: seq<string>, entry: string, rest: seq<string>)
    ensures AppendNew(list, [entry] + rest) ==
              AppendNew(if entry in list then list else list + [entry], rest)
  {
    assert ([entry] + rest)[1..] == rest;
  }

  /** Appending each entry that is not in the list yet. */
  function AppendNew(list: seq<string>, labels: seq<string>): seq<string>
    decreases |labels|
  {
    if labels == [] then list
    else AppendNew(if labels[0] in list then list else list + [labels[0]], labels[1..])
  }

  predicate NoDuplicates(list: seq<string>) {
    forall i, j :: 0 <= i < j < |list| ==> list[i] != list[j]
  }

  /** The dictionary after the first |bookings| rows of the query have been processed. */
  function Unavailable(bookings: seq<ExistingBooking>): map<int, seq<string>>
    requires AllWellFormed(bookings)
    decreases |bookings|
  {
    if bookings == [] then map[]
    else
      var m := Unavailable(bookings[..|bookings| - 1]);
      var b := bookings[|bookings| - 1];
      var current := if b.date in m then m[b.date] else [];
      m[b.date := AppendNew(current, SlotLabels(b.start, b.end))]
  }

  /** The view's loop over all existing bookings. */
  method BuildUnavailableSlots(existing: seq<ExistingBooking>) returns (slots: map<int, seq<string>>)
    requires AllWellFormed(existing)
    ensures slots == Unavailable(existing)
  {
    slots := map[];
    for i := 0 to |existing|
      invariant slots == Unavailable(existing[..i])
    {
      assert existing[..i + 1][..i] == existing[..i];
      slots := MarkBooking(slots, existing[i]);
    }
    assert existing[..|existing|] == existing;
  }

  /** One iteration of the view's outer loop: the booking's date becomes a key (with an
      empty list when new), then the inner walk appends the booking's slot strings that
      the date's list does not hold yet. */
  method MarkBooking(slots: map<int, seq<string>>, b: ExistingBooking) returns (marked: map<int, seq<string>>)
    requires WellFormed(b)
    ensures marked == slots[b.date := AppendNew(if b.date in slots then slots[b.date] else [],
                                                SlotLabels(b.start, b.end))]
  {
    var taken := if b.date in slots then slots[b.date] else [];
    taken := MarkSlots(taken, b.start, b.end);
    marked := slots[b.date := taken];
  }

  /** The view's inner loop: walk from the start in 30-minute steps while before the end,
      appending each "%H:%M" string the date's list (held by the dictionary by
      reference) does not contain yet. */
  method MarkSlots(taken: seq<string>, start: int, end: int) returns (list: seq<string>)
    requires 0 <= start && end <= MinutesPerDay
    ensures list == AppendNew(taken, SlotLabels(start, end))
  {
    list := taken;
    var current := start;
    while current < end
      invariant 0 <= current
      invariant AppendNew(list, SlotLabels(current, end)) == AppendNew(taken, SlotLabels(start, end))
      decreases end - current
    {
      var entry := FormatHHMM(current);
      AppendNewStep(list, entry, SlotLabels(current + SlotStep, end));
      if entry !in list {
        list := list + [entry];
      }
      current := current + SlotStep;
    }
  }

  // ---------------------------------------------------------------------------
  // What the map contains

  /** A booking marks exactly the times start + 30k below its end: slots are aligned to
      the booking's own start, not to a global grid. */
  lemma {:induction false} SlotTimesExact(start: int, end: int, t: int)
    ensures t in SlotTimes(start, end) <==> start <= t < end && (t - start) % SlotStep == 0
    decreases end - start
  {
    if start < end {
      SlotTimesExact(start + SlotStep, end, t);
      var x := t - start;
      assert x - SlotStep == t - (start + SlotStep);
      assert (x - SlotStep) % SlotStep == x % SlotStep;
      if 0 <= x < SlotStep {
        assert x % SlotStep == x;
      }
    }
  }

  /** A booking whose stored end is not after its start (one that wrapped past midnight)
      marks nothing. */
  lemma NoSlotsWhenEndNotAfterStart(start: int, end: int)
    requires 0 <= start && end <= MinutesPerDay
    requires end <= start
    ensures SlotLabels(start, end) == []
  {
  }

  lemma {:induction false} AppendNewMembers(list: seq<string>, labels: seq<string>, x: string)
    ensures x in AppendNew(list, labels) <==> x in list || x in labels
    decreases |labels|
  {
    if labels != [] {
      var next := if labels[0] in list then list else list + [labels[0]];
      AppendNewMembers(next, labels[1..], x);
      assert x in labels <==> x == labels[0] || x in labels[1..];
    }
  }

  lemma {:induction false} AppendNewKeepsNoDuplicates(list: seq<string>, labels: seq<string>)
    requires NoDuplicates(list)
    ensures NoDuplicates(AppendNew(list, labels))
    decreases |labels|
  {
    if labels != [] {
      var next := if labels[0] in list then list else list + [labels[0]];
      assert NoDuplicates(next);
      AppendNewKeepsNoDuplicates(next, labels[1..]);
    }
  }

  /** Every booking's date is a key, even when the booking marks no slot, and no other
      date is. */
  lemma {:induction false} UnavailableKeys(bookings: seq<ExistingBooking>)
    requires AllWellFormed(bookings)
    ensures Unavailable(bookings).Keys == set j | 0 <= j < |bookings| :: bookings[j].date
    decreases |bookings|
  {
    if bookings != [] {
      var init := bookings[..|bookings| - 1];
      UnavailableKeys(init);
      assert forall j :: 0 <= j < |init| ==> init[j] == bookings[j];
    }
  }

  /** Some booking on date d marks the string. */
  predicate Marks(bookings: seq<ExistingBooking>, d: int, entry: string)
    requires AllWellFormed(bookings)
  {
    exists j :: 0 <= j < |bookings| && bookings[j].date == d &&
                entry in SlotLabels(bookings[j].start, bookings[j].end)
  }

  lemma MarksSnoc(bookings: seq<ExistingBooking>, d: int, entry: string)
    requires AllWellFormed(bookings) && bookings != []
    ensures Marks(bookings, d, entry) <==>
              Marks(bookings[..|bookings| - 1], d, entry) ||
              (bookings[|bookings| - 1].date == d &&
               entry in SlotLabels(bookings[|bookings| - 1].start, bookings[|bookings| - 1].end))
  {
    var init := bookings[..|bookings| - 1];
    if Marks(bookings, d, entry) {
      var j :| 0 <= j < |bookings| && bookings[j].date == d &&
               entry in SlotLabels(bookings[j].start, bookings[j].end);
      if j < |init| {
        assert init[j] == bookings[j];
      }
    }
    if Marks(init, d, entry) {
      var j :| 0 <= j < |init| && init[j].date == d && entry in SlotLabels(init[j].start, init[j].end);
      assert bookings[j] == init[j];
    }
  }

  lemma DateNotMarked(bookings: seq<ExistingBooking>, d: int, entry: string)
    requires AllWellFormed(bookings)
    requires d !in Unavailable(bookings)
    ensures !Marks(bookings, d, entry)
  {
    UnavailableKeys(bookings);
  }

  /** A string is listed under a date exactly when some booking on that date marks it. */
  lemma {:induction false} UnavailableMembers(bookings: seq<ExistingBooking>, d: int, entry: string)
    requires AllWellFormed(bookings)
    requires d in Unavailable(bookings)
    ensures entry in Unavailable(bookings)[d] <==> Marks(bookings, d, entry)
    decreases |bookings|
  {
    var n := |bookings|;
    var init := bookings[..n - 1];
    var b := bookings[n - 1];
    var m := Unavailable(init);
    MarksSnoc(bookings, d, entry);
    if b.date == d {
      var current := if d in m then m[d] else [];
      AppendNewMembers(current, SlotLabels(b.start, b.end), entry);
      if d in m {
        UnavailableMembers(init, d, entry);
      } else {
        DateNotMarked(init, d, entry);
      }
    } else {
      UnavailableMembers(init, d, entry);
    }
  }

  /** No string appears twice in any date's list. */
  lemma {:induction false} UnavailableNoDuplicates(bookings: seq<ExistingBooking>, d: int)
    requires AllWellFormed(bookings)
    requires d in Unavailable(bookings)
    ensures NoDuplicates(Unavailable(bookings)[d])
    decreases |bookings|
  {
    var n := |bookings|;
    var init := bookings[..n - 1];
    var b := bookings[n - 1];
    var m := Unavailable(init);
    if b.date == d {
      if d in m {
        UnavailableNoDuplicates(init, d);
        AppendNewKeepsNoDuplicates(m[d], SlotLabels(b.start, b.end));
      } else {
        AppendNewKeepsNoDuplicates([], SlotLabels(b.start, b.end));
      }
    } else {
      UnavailableNoDuplicates(init, d);
    }
  }

  lemma LabelInSlotLabels(start: int, end: int, t: int)
    requires 0 <= start && end <= MinutesPerDay
    requires IsTimeOfDay(t)
    ensures FormatHHMM(t) in SlotLabels(start, end) <==> t in SlotTimes(start, end)
  {
    var labels, times := SlotLabels(start, end), SlotTimes(start, end);
    SlotLabelsAt(start, end);
    if FormatHHMM(t) in labels {
      var k :| 0 <= k < |labels| && labels[k] == FormatHHMM(t);
      HHMMInjective(times[k], t);
    }
    if t in times {
      var k :| 0 <= k < |times| && times[k] == t;
      assert labels[k] == FormatHHMM(t);
    }
  }

  /** The map marks the "%H:%M" string of a time t on date d exactly when some booking on
      d starts at or before t, ends after t, and t is a whole number of 30-minute steps
      after its start. */
  lemma UnavailableMarksExactly(bookings: seq<ExistingBooking>, d: int, t: int)
    requires AllWellFormed(bookings)
    requires d in Unavailable(bookings)
    requires IsTimeOfDay(t)
    ensures FormatHHMM(t) in Unavailable(bookings)[d] <==>
              exists j :: 0 <= j < |bookings| && bookings[j].date == d &&
                          bookings[j].start <= t < bookings[j].end &&
                          (t - bookings[j].start) % SlotStep == 0
  {
    UnavailableMembers(bookings, d, FormatHHMM(t));
    MarksExactly(bookings, d, t);
  }

  /** Booking b occupies the slot at time t. */
  predicate Covers(b: ExistingBooking, t: int) {
    b.start <= t < b.end && (t - b.start) % SlotStep == 0
  }

  /** Some booking on d lists a time's label exactly when the time is one of its slots. */
  lemma MarksExactly(bookings: seq<ExistingBooking>, d: int, t: int)
    requires AllWellFormed(bookings) && IsTimeOfDay(t)
    ensures Marks(bookings, d, FormatHHMM(t)) <==>
              exists j :: 0 <= j < |bookings| && bookings[j].date == d && Covers(bookings[j], t)
  {
    var entry := FormatHHMM(t);
    forall j | 0 <= j < |bookings|
      ensures entry in SlotLabels(bookings[j].start, bookings[j].end) <==> Covers(bookings[j], t)
    {
      BookingMarksExactly(bookings[j], t);
    }
  }

  /** One booking lists a time's label exactly when the time is one of its slots. */
  lemma BookingMarksExactly(b: ExistingBooking, t: int)
    requires WellFormed(b) && IsTimeOfDay(t)
    ensures FormatHHMM(t) in SlotLabels(b.start, b.end) <==> Covers(b, t)
  {
    LabelInSlotLabels(b.start, b.end, t);
    SlotTimesExact(b.start, b.end, t);
  }

  /** Each listed string is a zero-padded "HH:MM" of a time of day. */
  lemma UnavailableEntriesAreTimes(bookings: seq<ExistingBooking>, d: int, entry: string)
    requires AllWellFormed(bookings)
    requires d in Unavailable(bookings)
    requires entry in Unavailable(bookings)[d]
    ensures exists t :: IsTimeOfDay(t) && ParseHHMM(entry) == Some(t) && FormatHHMM(t) == entry
  {
    UnavailableMembers(bookings, d, entry);
    var j :| 0 <= j < |bookings| && bookings[j].date == d &&
             entry in SlotLabels(bookings[j].start, bookings[j].end);
    var labels := SlotLabels(bookings[j].start, bookings[j].end);
    SlotLabelsAt(bookings[j].start, bookings[j].end);
    var k :| 0 <= k < |labels| && labels[k] == entry;
    var t := SlotTimes(bookings[j].start, bookings[j].end)[k];
    HHMMRoundTrip(t);
    assert IsTimeOfDay(t) && ParseHHMM(entry) == Some(t) && FormatHHMM(t) == entry;
  }
}
