/**
 * The catalogue and booking records of main/models.py: a service offering with
 * its duration arithmetic and display string, a booking that derives its end
 * time and defaults its price when saved, the booking overlap test, and the
 * "one primary image per service" rule of the service image table.
 *
 * Prices and deposits are integer cents; times of day are minutes since
 * midnight; dates are day numbers.
 */
module Catalog {
  import opened Wrappers
  import opened Clock

  /** A service offering. `depositCents` is the value `get_deposit_amount()` returns. */
  datatype Service = Service(
    id: int,
    priceCents: int,
    durationMinutes: int,
    depositCents: int,
    isActive: bool)

  // ---------------------------------------------------------------------------
  // Service.get_duration_display

  /** "{h}h {m}m", "{h}h" or "{m}m" with Python's floor `//` and `%` by 60. */
  function DurationDisplay(duration: int): string {
    var hours, minutes := duration / 60, duration % 60;
    if hours > 0 then
      if minutes > 0 then NatToString(hours) + "h " + NatToString(minutes) + "m"
      else NatToString(hours) + "h"
    else
      NatToString(minutes) + "m"
  }

  /** Reads a duration display string back into minutes. */
  function ParseDurationDisplay(s: string): Option<int> {
    var k := DigitPrefixLength(s);
    if k == 0 then None else ParseUnits(ParseNat(s[..k]), s[k..])
  }

  function ParseUnits(n: nat, rest: string): Option<int> {
    if rest == "m" then
      if n < 60 then Some(n) else None
    else if rest == "h" then
      if n > 0 then Some(60 * n) else None
    else if |rest| > 2 && rest[..2] == "h " && n > 0 then
      ParseMinutesPart(n, rest[2..])
    else
      None
  }

  function ParseMinutesPart(hours: nat, t: string): Option<int> {
    var j := DigitPrefixLength(t);
    if j > 0 && t[j..] == "m" && 0 < ParseNat(t[..j]) < 60 then
      Some(60 * hours + ParseNat(t[..j]))
    else
      None
  }

  /** Reading "{n}" followed by a non-digit tail. */
  lemma ParseLeadingNumber(n: nat, tail: string)
    requires tail != [] && !IsDigit(tail[0])
    ensures ParseDurationDisplay(NatToString(n) + tail) == ParseUnits(n, tail)
  {
    var ns := NatToString(n);
    NatToStringRoundTrip(n);
    DigitPrefixOfDigits(ns, tail);
    assert (ns + tail)[..|ns|] == ns;
    assert (ns + tail)[|ns|..] == tail;
  }

  lemma MinutesOnlyRoundTrip(m: nat)
    requires m < 60
    ensures ParseDurationDisplay(NatToString(m) + "m") == Some(m)
  {
    ParseLeadingNumber(m, "m");
  }

  lemma HoursOnlyRoundTrip(h: nat)
    requires h > 0
    ensures ParseDurationDisplay(NatToString(h) + "h") == Some(60 * h)
  {
    ParseLeadingNumber(h, "h");
  }

  lemma MinutesPartRoundTrip(h: nat, m: nat)
    requires 0 < m < 60
    ensures ParseMinutesPart(h, NatToString(m) + "m") == Some(60 * h + m)
  {
    var ms := NatToString(m);
    NatToStringRoundTrip(m);
    DigitPrefixOfDigits(ms, "m");
    assert (ms + "m")[..|ms|] == ms;
    assert (ms + "m")[|ms|..] == "m";
  }

  lemma HoursUnitTail(h: nat, ms: string)
    requires h > 0
    ensures ParseUnits(h, "h " + ms + "m") == ParseMinutesPart(h, ms + "m")
  {
    var tail := "h " + ms + "m";
    assert |tail| > 2 && tail[..2] == "h " && tail[2..] == ms + "m";
  }

  /** "{h}" followed by "h {m}m" reads back as h hours and m minutes. */
  lemma HoursThenMinutesTail(h: nat, m: nat)
    requires h > 0 && 0 < m < 60
    ensures ParseDurationDisplay(NatToString(h) + ("h " + NatToString(m) + "m")) == Some(60 * h + m)
  {
    var ms := NatToString(m);
    var tail := "h " + ms + "m";
    assert tail[0] == 'h';
    calc {
      ParseDurationDisplay(NatToString(h) + tail);
      == { ParseLeadingNumber(h, tail); }
      ParseUnits(h, tail);
      == { HoursUnitTail(h, ms); }
      ParseMinutesPart(h, ms + "m");
      == { MinutesPartRoundTrip(h, m); }
      Some(60 * h + m);
    }
  }

  /** "{h}h {m}m" regrouped as "{h}" followed by "h {m}m". */
  lemma RegroupDisplay(hs: string, ms: string)
    ensures hs + "h " + ms + "m" == hs + ("h " + ms + "m")
  {
  }

  lemma HoursMinutesRoundTrip(h: nat, m: nat)
    requires h > 0 && 0 < m < 60
    ensures ParseDurationDisplay(NatToString(h) + "h " + NatToString(m) + "m") == Some(60 * h + m)
  {
    RegroupDisplay(NatToString(h), NatToString(m));
    HoursThenMinutesTail(h, m);
  }

  /** The display string of a non-negative duration determines the duration. */
  lemma DurationDisplayRoundTrip(duration: int)
    requires duration >= 0
    ensures ParseDurationDisplay(DurationDisplay(duration)) == Some(duration)
  {
    DurationDisplayShapes(duration);
    if duration < 60 {
      MinutesOnlyRoundTrip(duration);
    } else if duration % 60 == 0 {
      HoursOnlyRoundTrip(duration / 60);
    } else {
      HoursMinutesRoundTrip(duration / 60, duration % 60);
    }
  }

  /** The three shapes of the display string. */
  lemma DurationDisplayShapes(duration: int)
    requires duration >= 0
    ensures duration < 60 ==> DurationDisplay(duration) == NatToString(duration) + "m"
    ensures duration >= 60 && duration % 60 == 0 ==>
              DurationDisplay(duration) == NatToString(duration / 60) + "h"
    ensures duration >= 60 && duration % 60 != 0 ==>
              DurationDisplay(duration) == NatToString(duration / 60) + "h " + NatToString(duration % 60) + "m"
  {
  }

  /** A negative duration has no positive hour part, so only its floor remainder is shown. */
  lemma NegativeDurationDisplay()
    ensures DurationDisplay(-30) == "30m"
    ensures DurationDisplay(-90) == "30m"
  {
    assert NatToString(30) == "30";
  }

  // ---------------------------------------------------------------------------
  // Service.get_end_time

  /** The end time: start plus the duration, as a time of day (wrapping at midnight). */
  function EndTime(service: Service, start: int): (r: int)
    ensures IsTimeOfDay(r)
    ensures 0 <= start + service.durationMinutes < MinutesPerDay ==> r == start + service.durationMinutes
  {
    (start + service.durationMinutes) % MinutesPerDay
  }

  /** Going back by the duration from the end time gives the start again. */
  lemma EndTimeRecoversStart(service: Service, start: int)
    requires IsTimeOfDay(start)
    ensures (EndTime(service, start) - service.durationMinutes) % MinutesPerDay == start
  {
    var d := service.durationMinutes;
    var q := (start + d) / MinutesPerDay;
    assert EndTime(service, start) - d == start - q * MinutesPerDay;
  }

  /** A service that runs past midnight ends before it starts. */
  lemma EndTimeWrapsPastMidnight(service: Service, start: int)
    requires IsTimeOfDay(start)
    requires 0 <= service.durationMinutes < MinutesPerDay
    requires start + service.durationMinutes >= MinutesPerDay
    ensures EndTime(service, start) == start + service.durationMinutes - MinutesPerDay
    ensures EndTime(service, start) < start
  {
  }

  // ---------------------------------------------------------------------------
  // Booking

  /** `if not self.total_price: self.total_price = self.service.price` (NULL and 0 are falsy). */
  function DefaultPrice(current: Option<int>, servicePrice: int): (r: Option<int>)
    ensures (current.Some? && current.value != 0) ==> r == current
    ensures (current.None? || current == Some(0)) ==> r == Some(servicePrice)
  {
    if current.None? || current.value == 0 then Some(servicePrice) else current
  }

  /** Once a save has stored a non-zero price, no later save (whatever the service price
      has become) changes it. */
  lemma PriceFrozenAfterSave(current: Option<int>, firstPrice: int, laterPrice: int)
    requires firstPrice != 0
    ensures DefaultPrice(DefaultPrice(current, firstPrice), laterPrice) == DefaultPrice(current, firstPrice)
  {
  }

  /** A free service leaves a falsy price behind, so the next save re-prices the booking. */
  lemma ZeroPriceIsNotFrozen(current: Option<int>, laterPrice: int)
    requires current.None? || current == Some(0)
    ensures DefaultPrice(DefaultPrice(current, 0), laterPrice) == Some(laterPrice)
  {
  }

  /** The stored columns of a booking, as far as the modelled code reads or writes them. */
  datatype BookingRecord = BookingRecord(
    service: Service,
    bookingDate: int,
    bookingTime: int,
    bookingEndTime: Option<int>,
    isConfirmed: bool,
    totalPrice: Option<int>,
    reminderSent: bool,
    reminderSentAt: Option<int>)

  /** The row `Booking.save` writes: the end time is always recomputed from the service
      and the start; the price is filled in from the service only while it is falsy.
      Every other column is kept. */
  function Saved(row: BookingRecord): BookingRecord {
    row.(bookingEndTime := Some(EndTime(row.service, row.bookingTime)),
         totalPrice := DefaultPrice(row.totalPrice, row.service.priceCents))
  }

  /** Saving a row that was just saved changes nothing. */
  lemma SaveIdempotent(row: BookingRecord)
    ensures Saved(Saved(row)) == Saved(row)
    ensures Saved(row).bookingEndTime.Some? && Saved(row).totalPrice.Some?
  {
  }

  /** A save leaves the start, the service and the reminder columns alone, and it keeps
      a truthy price. */
  lemma SaveKeepsOtherColumns(row: BookingRecord)
    ensures Saved(row).(bookingEndTime := row.bookingEndTime, totalPrice := row.totalPrice) == row
    ensures row.totalPrice.Some? && row.totalPrice.value != 0 ==> Saved(row).totalPrice == row.totalPrice
    ensures IsTimeOfDay(Saved(row).bookingEndTime.value)
  {
  }

  class Booking {
    var service: Service
    var bookingDate: int
    var bookingTime: int
    var bookingEndTime: Option<int>
    var isConfirmed: bool
    var totalPrice: Option<int>
    var reminderSent: bool
    var reminderSentAt: Option<int>

    /** The booking's columns as a value. */
    function Snapshot(): BookingRecord
      reads this
    {
      BookingRecord(service, bookingDate, bookingTime, bookingEndTime, isConfirmed,
                    totalPrice, reminderSent, reminderSentAt)
    }

    /** An in-memory instance loaded from (or about to become) a row. */
    constructor (row: BookingRecord)
      ensures Snapshot() == row
    {
      service := row.service;
      bookingDate := row.bookingDate;
      bookingTime := row.bookingTime;
      bookingEndTime := row.bookingEndTime;
      isConfirmed := row.isConfirmed;
      totalPrice := row.totalPrice;
      reminderSent := row.reminderSent;
      reminderSentAt := row.reminderSentAt;
    }

    /** Booking.save: the instance's columns become the row `Saved` describes. */
    method Save()
      modifies this
      ensures Snapshot() == Saved(old(Snapshot()))
    {
      bookingEndTime := Some(EndTime(service, bookingTime));
      if totalPrice.None? || totalPrice.value == 0 {
        totalPrice := Some(service.priceCents);
      }
    }

    /** Booking.overlaps_with: same date, and one booking starts inside the other's
        [start, end) range. No buffer is added. An end time is needed only where the
        short-circuiting comparisons reach it; reaching a NULL one raises in the source. */
    function OverlapsWith(other: Booking): (r: bool)
      reads this, other
      requires bookingDate == other.bookingDate && bookingTime <= other.bookingTime ==>
                 bookingEndTime.Some?
      requires bookingDate == other.bookingDate && other.bookingTime <= bookingTime &&
               !(bookingTime <= other.bookingTime && other.bookingTime < bookingEndTime.value) ==>
                 other.bookingEndTime.Some?
      ensures r ==> bookingDate == other.bookingDate
      ensures (bookingDate == other.bookingDate && bookingTime == other.bookingTime &&
               bookingTime < bookingEndTime.value) ==> r
    {
      if bookingDate != other.bookingDate then false
      else
        (bookingTime <= other.bookingTime < bookingEndTime.value) ||
        (other.bookingTime <= bookingTime < other.bookingEndTime.value)
    }
  }

  /** The rows of a list of booking instances. */
  function Records(bookings: seq<Booking>): (r: seq<BookingRecord>)
    reads set b | b in bookings
    ensures |r| == |bookings|
    ensures forall j :: 0 <= j < |bookings| ==> r[j] == bookings[j].Snapshot()
  {
    seq(|bookings|, j requires 0 <= j < |bookings| reads set b | b in bookings => bookings[j].Snapshot())
  }

  /** A query result holds each row's instance once. */
  predicate Distinct(bookings: seq<Booking>) {
    forall i, j :: 0 <= i < j < |bookings| ==> bookings[i] != bookings[j]
  }

  lemma OverlapsDifferentDates(a: Booking, b: Booking)
    requires a.bookingDate != b.bookingDate
    ensures !a.OverlapsWith(b)
  {
  }

  /** The inputs whose NULL end time the source never compares still get an answer:
      other dates, and a later start on the same date against a booking that has an end. */
  lemma NullEndStillAnswered(a: Booking, b: Booking)
    requires a.bookingEndTime.None?
    requires a.bookingDate != b.bookingDate ||
             (b.bookingTime < a.bookingTime && b.bookingEndTime.Some?)
    ensures a.OverlapsWith(b) <==>
              a.bookingDate == b.bookingDate && a.bookingTime < b.bookingEndTime.value
  {
  }

  lemma OverlapsSymmetric(a: Booking, b: Booking)
    requires a.bookingEndTime.Some? && b.bookingEndTime.Some?
    ensures a.OverlapsWith(b) == b.OverlapsWith(a)
  {
  }

  /** For proper (non-wrapping) bookings on one date the test is the half-open
      interval intersection. */
  lemma OverlapsIsHalfOpenIntersection(a: Booking, b: Booking)
    requires a.bookingEndTime.Some? && b.bookingEndTime.Some?
    requires a.bookingDate == b.bookingDate
    requires a.bookingTime < a.bookingEndTime.value && b.bookingTime < b.bookingEndTime.value
    ensures a.OverlapsWith(b) <==>
              a.bookingTime < b.bookingEndTime.value && b.bookingTime < a.bookingEndTime.value
  {
  }

  /** There is no post-service buffer: a booking that starts exactly when another ends
      does not overlap it. */
  lemma BackToBackDoNotOverlap(a: Booking, b: Booking)
    requires a.bookingEndTime.Some? && b.bookingEndTime.Some?
    requires a.bookingTime < a.bookingEndTime.value && b.bookingTime < b.bookingEndTime.value
    requires b.bookingTime >= a.bookingEndTime.value
    ensures !a.OverlapsWith(b) && !b.OverlapsWith(a)
  {
  }

  /** A booking whose stored end wrapped past midnight covers no start time of its own:
      it overlaps another only when it starts inside the other one. */
  lemma WrappedBookingOverlaps(a: Booking, b: Booking)
    requires a.bookingEndTime.Some? && b.bookingEndTime.Some?
    requires a.bookingDate == b.bookingDate
    requires a.bookingEndTime.value <= a.bookingTime
    ensures a.OverlapsWith(b) <==> b.bookingTime <= a.bookingTime < b.bookingEndTime.value
  {
  }

  // ---------------------------------------------------------------------------
  // ServiceImage.save

  datatype ServiceImage = ServiceImage(id: int, service: int, isPrimary: bool)

  predicate UniqueIds(rows: seq<ServiceImage>) {
    forall i, j :: 0 <= i < j < |rows| ==> rows[i].id != rows[j].id
  }

  /** `ServiceImage.objects.filter(service=s, is_primary=True).update(is_primary=False)` */
  function Demote(rows: seq<ServiceImage>, service: int): (r: seq<ServiceImage>)
    ensures |r| == |rows|
    ensures forall k :: 0 <= k < |rows| ==> r[k].id == rows[k].id && r[k].service == rows[k].service
    ensures forall k :: 0 <= k < |rows| ==> r[k].isPrimary == (rows[k].isPrimary && rows[k].service != service)
  {
    seq(|rows|, k requires 0 <= k < |rows| =>
      if rows[k].service == service && rows[k].isPrimary then rows[k].(isPrimary := false) else rows[k])
  }

  /** `super().save()`: the row with the image's id is overwritten, or the image is
      inserted at the end when no row has that id. */
  function Upsert(rows: seq<ServiceImage>, image: ServiceImage): (r: seq<ServiceImage>)
    requires UniqueIds(rows)
    ensures |r| == |rows| + (if exists k :: 0 <= k < |rows| && rows[k].id == image.id then 0 else 1)
    ensures forall k :: 0 <= k < |rows| ==> r[k] == (if rows[k].id == image.id then image else rows[k])
    ensures |r| > |rows| ==> r[|rows|] == image
    decreases |rows|
  {
    if rows == [] then [image]
    else if rows[0].id == image.id then
      assert forall k :: 1 <= k < |rows| ==> rows[k] == rows[1..][k - 1];
      [image] + rows[1..]
    else
      var tail := Upsert(rows[1..], image);
      assert forall k :: 1 <= k < |rows| ==> rows[k] == rows[1..][k - 1];
      [rows[0]] + tail
  }

  lemma {:induction false} UpsertKeepsIdsUnique(rows: seq<ServiceImage>, image: ServiceImage)
    requires UniqueIds(rows)
    ensures UniqueIds(Upsert(rows, image))
    ensures image in Upsert(rows, image)
  {
    var r := Upsert(rows, image);
    if exists k :: 0 <= k < |rows| && rows[k].id == image.id {
      var k :| 0 <= k < |rows| && rows[k].id == image.id;
      assert r[k] == image;
    } else {
      assert r[|rows|] == image;
    }
    forall i, j | 0 <= i < j < |r| ensures r[i].id != r[j].id {
      if j == |rows| {
        assert r[j] == image;
      }
    }
  }

  /** What saving one image does to the image table. */
  function SaveImage(rows: seq<ServiceImage>, image: ServiceImage): seq<ServiceImage>
    requires UniqueIds(rows)
  {
    assert UniqueIds(Demote(rows, image.service));
    Upsert(if image.isPrimary then Demote(rows, image.service) else rows, image)
  }

  /** After saving a primary image it is the only primary image of its service. */
  lemma SavedPrimaryIsOnlyPrimary(rows: seq<ServiceImage>, image: ServiceImage)
    requires UniqueIds(rows)
    requires image.isPrimary
    ensures image in SaveImage(rows, image)
    ensures forall r :: r in SaveImage(rows, image) && r.service == image.service && r.isPrimary ==> r == image
  {
    var d := Demote(rows, image.service);
    assert UniqueIds(d);
    UpsertKeepsIdsUnique(d, image);
    var s := SaveImage(rows, image);
    forall r | r in s && r.service == image.service && r.isPrimary ensures r == image {
      var k :| 0 <= k < |s| && s[k] == r;
    }
  }

  /** Saving never touches images of other services (except the saved row itself), and a
      non-primary save touches no other row at all. */
  lemma SaveImageFrame(rows: seq<ServiceImage>, image: ServiceImage)
    requires UniqueIds(rows)
    ensures |SaveImage(rows, image)| >= |rows|
    ensures forall k :: 0 <= k < |rows| && rows[k].id != image.id && rows[k].service != image.service ==>
              SaveImage(rows, image)[k] == rows[k]
    ensures !image.isPrimary ==>
              forall k :: 0 <= k < |rows| && rows[k].id != image.id ==> SaveImage(rows, image)[k] == rows[k]
  {
  }

  lemma SaveImageKeepsIdsUnique(rows: seq<ServiceImage>, image: ServiceImage)
    requires UniqueIds(rows)
    ensures UniqueIds(SaveImage(rows, image))
  {
    var d := if image.isPrimary then Demote(rows, image.service) else rows;
    assert UniqueIds(d);
    UpsertKeepsIdsUnique(d, image);
  }

  /** The service image table. */
  class ImageTable {
    var images: seq<ServiceImage>

    predicate Valid()
      reads this
    {
      UniqueIds(images)
    }

    constructor ()
      ensures Valid() && images == []
    {
      images := [];
    }

    /** ServiceImage.save on `image`. */
    method Save(image: ServiceImage)
      requires Valid()
      modifies this
      ensures Valid()
      ensures images == SaveImage(old(images), image)
      ensures image in images
      ensures image.isPrimary ==>
                forall r :: r in images && r.service == image.service && r.isPrimary ==> r == image
    {
      ghost var before := images;
      if image.isPrimary {
        images := Demote(images, image.service);
      }
      images := Upsert(images, image);
      SaveImageKeepsIdsUnique(before, image);
      if image.isPrimary {
        SavedPrimaryIsOnlyPrimary(before, image);
      } else {
        UpsertKeepsIdsUnique(before, image);
      }
    }
  }
}
