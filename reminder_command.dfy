/**
 * `Command.handle` of main/management/commands/send_reminders.py: the management
 * command that texts a reminder for every confirmed, not yet reminded booking whose
 * start time lies between now + 30 minutes and now + 35 minutes on that date.
 *
 * As in the e-mail task, the ORM query and the lead-time guard are tests in the loop over
 * the booking table, and `delivered[j]` is the notifier's answer for the j-th booking.
 * The returned counts are the ones the command's summary line reports.
 */
module ReminderCommand {
  import opened Wrappers
  import opened Clock
  import opened Catalog
  import opened ReminderSweep
  import ReminderTask

  const Lead: int := 30 * 60
  const Slack: int := 5 * 60
  const MinLead: int := 25 * 60
  const MaxLead: int := 35 * 60

  /** The query: confirmed, not reminded, on the date of now + 30 minutes, with a start
      time of day between those of now + 30 minutes and now + 35 minutes. */
  predicate Queried(now: int, row: BookingRecord) {
    row.isConfirmed && !row.reminderSent
    && row.bookingDate == DateOf(now + Lead)
    && row.bookingTime * 60 >= SecondOfDay(now + Lead)
    && row.bookingTime * 60 <= SecondOfDay(now + Lead + Slack)
  }

  /** The guard: the start is 25 to 35 minutes away, both ends included. */
  predicate LeadTimeOk(now: int, row: BookingRecord) {
    MinLead <= At(row.bookingDate, row.bookingTime) - now <= MaxLead
  }

  /** The bookings the command tries to remind. */
  predicate Selected(now: int, row: BookingRecord) {
    Queried(now, row) && LeadTimeOk(now, row)
  }

  /** One run of the command at instant `now`; returns the sent and failed counts. */
  method Handle(bookings: seq<Booking>, now: int, delivered: seq<bool>)
    returns (sent: nat, failed: nat)
    requires Distinct(bookings)
    requires |delivered| == |bookings|
    modifies set b | b in bookings
    ensures Records(bookings) == Sweep(old(Records(bookings)), r => Selected(now, r), now, delivered)
    ensures sent == CountSent(old(Records(bookings)), r => Selected(now, r), delivered)
    ensures failed == CountFailed(old(Records(bookings)), r => Selected(now, r), delivered)
  {
    ghost var before := Records(bookings);
    ghost var attempt := r => Selected(now, r);
    sent, failed := 0, 0;
    for i := 0 to |bookings|
      invariant forall j :: 0 <= j < i ==>
                  bookings[j].Snapshot() == Step(before[j], attempt(before[j]), delivered[j], now)
      invariant forall j :: i <= j < |bookings| ==> bookings[j].Snapshot() == before[j]
      invariant sent == CountSent(before[..i], attempt, delivered[..i])
      invariant failed == CountFailed(before[..i], attempt, delivered[..i])
    {
      CountsExtend(before, attempt, delivered, i);
      var wasSent, wasFailed := Consider(bookings[i], now, delivered[i]);
      if wasSent {
        sent := sent + 1;
      }
      if wasFailed {
        failed := failed + 1;
      }
    }
    assert before[..|bookings|] == before && delivered[..|bookings|] == delivered;
  }

  /** The loop body for one booking: the selection tests, then the send. Reports whether
      a reminder was delivered or failed. */
  method Consider(booking: Booking, now: int, delivered: bool) returns (wasSent: bool, wasFailed: bool)
    modifies booking
    ensures booking.Snapshot() ==
              Step(old(booking.Snapshot()), Selected(now, old(booking.Snapshot())), delivered, now)
    ensures wasSent <==> Selected(now, old(booking.Snapshot())) && delivered
    ensures wasFailed <==> Selected(now, old(booking.Snapshot())) && !delivered
  {
    wasSent, wasFailed := false, false;
    var reminderTime := now + Lead;
    if booking.isConfirmed && !booking.reminderSent && booking.bookingDate == DateOf(reminderTime)
       && booking.bookingTime * 60 >= SecondOfDay(reminderTime)
       && booking.bookingTime * 60 <= SecondOfDay(reminderTime + Slack)
    {
      var timeUntilBooking := At(booking.bookingDate, booking.bookingTime) - now;
      if MinLead <= timeUntilBooking <= MaxLead {
        if delivered {
          MarkReminded(booking, now);
          wasSent := true;
        } else {
          wasFailed := true;
        }
      }
    }
  }

  /** A booking already reminded is never selected again. */
  lemma SkipsRemindedBookings(now: int)
    ensures SkipsReminded(r => Selected(now, r))
  {
  }

  /** The query already confines the start to [now + 30 minutes, now + 35 minutes], so
      the lead-time guard never rejects a queried booking. */
  lemma QueryImpliesLeadTime(now: int, row: BookingRecord)
    requires IsTimeOfDay(row.bookingTime)
    requires Queried(now, row)
    ensures now + Lead <= At(row.bookingDate, row.bookingTime) <= now + Lead + Slack
    ensures Selected(now, row)
  {
    var t := now + Lead;
    var start := At(row.bookingDate, row.bookingTime);
    AtSplits(row.bookingDate, row.bookingTime);
    assert t == DateOf(t) * SecondsPerDay + SecondOfDay(t);
    assert start == DateOf(t) * SecondsPerDay + row.bookingTime * 60;
    assert SecondOfDay(t + Slack) == SecondOfDay(t) + Slack by {
      assert SecondOfDay(t) + Slack >= SecondOfDay(t);
      if SecondOfDay(t) + Slack >= SecondsPerDay {
        assert false;
      }
    }
  }

  /** When the day does not turn within the next five minutes, the command selects
      exactly the bookings whose start is 30 to 35 minutes away. */
  lemma SelectionWithinDay(now: int, row: BookingRecord)
    requires IsTimeOfDay(row.bookingTime)
    requires row.isConfirmed && !row.reminderSent
    requires SecondOfDay(now + Lead) + Slack < SecondsPerDay
    ensures Selected(now, row) <==>
              now + Lead <= At(row.bookingDate, row.bookingTime) <= now + Lead + Slack
  {
    var t := now + Lead;
    AtSplits(row.bookingDate, row.bookingTime);
    assert t == DateOf(t) * SecondsPerDay + SecondOfDay(t);
    assert SecondOfDay(t + Slack) == SecondOfDay(t) + Slack;
    if now + Lead <= At(row.bookingDate, row.bookingTime) <= now + Lead + Slack {
      assert DateOf(At(row.bookingDate, row.bookingTime)) == DateOf(t);
    }
    if Queried(now, row) {
      QueryImpliesLeadTime(now, row);
    }
  }

  /** When midnight falls between now + 30 minutes and now + 35 minutes, the query
      selects nothing at all. */
  lemma NothingAcrossMidnight(now: int, row: BookingRecord)
    requires SecondOfDay(now + Lead) + Slack >= SecondsPerDay
    ensures !Selected(now, row)
  {
    var t := now + Lead;
    assert SecondOfDay(t + Slack) == SecondOfDay(t) + Slack - SecondsPerDay;
  }

  /** Concretely: at 23:27 on day 0, a booking at 23:57 that day, exactly 30 minutes
      away, gets no text. */
  lemma LateEveningBookingMissed()
    ensures !Selected(23 * 3600 + 27 * 60, BookingRecord(Service(1, 5000, 60, 2500, true), 0, 23 * 60 + 57,
                                                         None, true, None, false, None))
    ensures At(0, 23 * 60 + 57) - (23 * 3600 + 27 * 60) == Lead
  {
    NothingAcrossMidnight(23 * 3600 + 27 * 60, BookingRecord(Service(1, 5000, 60, 2500, true), 0, 23 * 60 + 57,
                                                             None, true, None, false, None));
  }

  /** Every booking the command selects, the e-mail task would select at the same instant. */
  lemma CommandSelectionWithinTask(now: int, row: BookingRecord)
    requires IsTimeOfDay(row.bookingTime)
    requires Selected(now, row)
    ensures ReminderTask.InWindow(now, row)
  {
    QueryImpliesLeadTime(now, row);
  }

  /** Runs of the e-mail task and of the SMS command, in any interleaving, send each booking at
      most one reminder between them. */
  lemma BothJobsRemindOnce(rows: seq<BookingRecord>, runs: seq<Run>, j: int)
    requires 0 <= j < |rows| && !rows[j].reminderSent
    requires forall i :: 0 <= i < |runs| ==> |runs[i].delivered| == |rows|
    requires forall i :: 0 <= i < |runs| ==>
               runs[i].attempt == (r => ReminderTask.Selected(runs[i].now, r)) ||
               runs[i].attempt == (r => Selected(runs[i].now, r))
    ensures RemindersTo(rows, runs, j) <= 1
  {
    forall i | 0 <= i < |runs| ensures SkipsReminded(runs[i].attempt) {
      ReminderTask.SkipsRemindedBookings(runs[i].now);
      SkipsRemindedBookings(runs[i].now);
    }
    AtMostOneReminder(rows, runs, j);
  }
}
