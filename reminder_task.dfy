/**
 * `send_booking_reminders` of main/tasks.py: the periodic job that e-mails a reminder
 * for every confirmed, not yet reminded booking starting 25 to 35 minutes from now.
 *
 * The booking table is the list `bookings`; the ORM filter is the first test in the
 * loop, and the window test the second. `delivered[j]` is the notifier's answer for
 * the j-th booking, consulted only when a reminder is sent to it.
 */
module ReminderTask {
  import opened Clock
  import opened Catalog
  import opened ReminderSweep

  const WindowStart: int := 25 * 60
  const WindowEnd: int := 35 * 60

  /** The query: confirmed, not reminded, on the calendar date of now + 25 minutes. */
  predicate Queried(now: int, row: BookingRecord) {
    row.isConfirmed && !row.reminderSent && row.bookingDate == DateOf(now + WindowStart)
  }

  /** The start lies in [now + 25 minutes, now + 35 minutes], both ends included. */
  predicate InWindow(now: int, row: BookingRecord) {
    now + WindowStart <= At(row.bookingDate, row.bookingTime) <= now + WindowEnd
  }

  /** The bookings the job tries to remind. */
  predicate Selected(now: int, row: BookingRecord) {
    Queried(now, row) && InWindow(now, row)
  }

  /** One run of the job at instant `now`; returns the sent and failed counts. */
  method SendBookingReminders(bookings: seq<Booking>, now: int, delivered: seq<bool>)
    returns (sent: nat, failed: nat)
    requires Distinct(bookings)
    requires |delivered| == |bookings|
    modifies set b | b in bookings
    ensures Records(bookings) == Sweep(old(Records(bookings)), r => Selected(now, r), now, delivered)
    ensures sent == CountSent(old(Records(bookings)), r => Selected(now, r), delivered)
    ensures failed == CountFailed(old(Records(bookings)), r => Selected(now, r), delivered)
  {
    ghost var before := Records(bookings);
    ghost var attempt := r => Selected(now, r);
    sent, failed := 0, 0;
    for i := 0 to |bookings|
      invariant forall j :: 0 <= j < i ==>
                  bookings[j].Snapshot() == Step(before[j], attempt(before[j]), delivered[j], now)
      invariant forall j :: i <= j < |bookings| ==> bookings[j].Snapshot() == before[j]
      invariant sent == CountSent(before[..i], attempt, delivered[..i])
      invariant failed == CountFailed(before[..i], attempt, delivered[..i])
    {
      CountsExtend(before, attempt, delivered, i);
      var wasSent, wasFailed := Consider(bookings[i], now, delivered[i]);
      if wasSent {
        sent := sent + 1;
      }
      if wasFailed {
        failed := failed + 1;
      }
    }
    assert before[..|bookings|] == before && delivered[..|bookings|] == delivered;
  }

  /** The loop body for one booking: the selection tests, then the send. Reports whether
      a reminder was delivered or failed. */
  method Consider(booking: Booking, now: int, delivered: bool) returns (wasSent: bool, wasFailed: bool)
    modifies booking
    ensures booking.Snapshot() ==
              Step(old(booking.Snapshot()), Selected(now, old(booking.Snapshot())), delivered, now)
    ensures wasSent <==> Selected(now, old(booking.Snapshot())) && delivered
    ensures wasFailed <==> Selected(now, old(booking.Snapshot())) && !delivered
  {
    wasSent, wasFailed := false, false;
    if booking.isConfirmed && !booking.reminderSent && booking.bookingDate == DateOf(now + WindowStart) {
      var bookingInstant := At(booking.bookingDate, booking.bookingTime);
      if now + WindowStart <= bookingInstant <= now + WindowEnd {
        if delivered {
          MarkReminded(booking, now);
          wasSent := true;
        } else {
          wasFailed := true;
        }
      }
    }
  }

  /** A booking already reminded is never selected again. */
  lemma SkipsRemindedBookings(now: int)
    ensures SkipsReminded(r => Selected(now, r))
  {
  }

  /** When now + 25 minutes and now + 35 minutes fall on different dates, the bookings
      after midnight are outside the query, however close they are. */
  lemma AfterMidnightMissed(now: int, row: BookingRecord)
    requires IsTimeOfDay(row.bookingTime)
    requires DateOf(now + WindowStart) < DateOf(now + WindowEnd)
    requires row.bookingDate == DateOf(now + WindowEnd)
    ensures !Selected(now, row)
  {
  }

  /** For a booking on the queried date, selection is exactly the window test. */
  lemma SelectedIffWindow(now: int, row: BookingRecord)
    requires IsTimeOfDay(row.bookingTime)
    requires row.isConfirmed && !row.reminderSent
    requires DateOf(now + WindowStart) == DateOf(now + WindowEnd)
    ensures Selected(now, row) <==> InWindow(now, row)
  {
    AtSplits(row.bookingDate, row.bookingTime);
  }
}
