/**
 * What the two reminder jobs (main/tasks.py and
 * main/management/commands/send_reminders.py) have in common: each walks the
 * selected bookings and, for each one it decides to remind, asks the notifier to send;
 * only a delivered reminder sets `reminder_sent`, stamps `reminder_sent_at` and saves
 * the booking through `Booking.save` (which also recomputes the end time and fills in a
 * falsy price), and the job counts deliveries and failures.
 *
 * A job's selection is a predicate `attempt` on the booking row; the notifier's
 * answer for the j-th booking is `delivered[j]`.
 */
module ReminderSweep {
  import opened Wrappers
  import opened Catalog

  /** One booking's row after the job has looked at it. */
  function Step(row: BookingRecord, attempted: bool, delivered: bool, now: int): BookingRecord {
    if attempted && delivered then Saved(row.(reminderSent := true, reminderSentAt := Some(now))) else row
  }

  /** What both jobs do to a booking whose reminder was delivered: set the flag, stamp
      the run's instant, and save. */
  method MarkReminded(booking: Booking, now: int)
    modifies booking
    ensures booking.Snapshot() == Step(old(booking.Snapshot()), true, true, now)
  {
    booking.reminderSent := true;
    booking.reminderSentAt := Some(now);
    booking.Save();
  }

  /** All rows after one run of a job. */
  function Sweep(rows: seq<BookingRecord>, attempt: BookingRecord -> bool, now: int, delivered: seq<bool>)
    : seq<BookingRecord>
    requires |delivered| == |rows|
  {
    seq(|rows|, j requires 0 <= j < |rows| => Step(rows[j], attempt(rows[j]), delivered[j], now))
  }

  /** The number of rows a run reminds successfully. */
  function CountSent(rows: seq<BookingRecord>, attempt: BookingRecord -> bool, delivered: seq<bool>): nat
    requires |delivered| == |rows|
    decreases |rows|
  {
    if rows == [] then 0
    else
      var n := |rows| - 1;
      CountSent(rows[..n], attempt, delivered[..n]) + (if attempt(rows[n]) && delivered[n] then 1 else 0)
  }

  /** The number of rows whose reminder a run fails to deliver. */
  function CountFailed(rows: seq<BookingRecord>, attempt: BookingRecord -> bool, delivered: seq<bool>): nat
    requires |delivered| == |rows|
    decreases |rows|
  {
    if rows == [] then 0
    else
      var n := |rows| - 1;
      CountFailed(rows[..n], attempt, delivered[..n]) + (if attempt(rows[n]) && !delivered[n] then 1 else 0)
  }

  /** The number of rows a run tries to remind. */
  function CountAttempted(rows: seq<BookingRecord>, attempt: BookingRecord -> bool): nat
    decreases |rows|
  {
    if rows == [] then 0
    else CountAttempted(rows[..|rows| - 1], attempt) + (if attempt(rows[|rows| - 1]) then 1 else 0)
  }

  /** The counts over one more row of a prefix. */
  lemma CountsExtend(rows: seq<BookingRecord>, attempt: BookingRecord -> bool, delivered: seq<bool>, i: int)
    requires |delivered| == |rows| && 0 <= i < |rows|
    ensures CountSent(rows[..i + 1], attempt, delivered[..i + 1]) ==
              CountSent(rows[..i], attempt, delivered[..i]) + (if attempt(rows[i]) && delivered[i] then 1 else 0)
    ensures CountFailed(rows[..i + 1], attempt, delivered[..i + 1]) ==
              CountFailed(rows[..i], attempt, delivered[..i]) + (if attempt(rows[i]) && !delivered[i] then 1 else 0)
  {
    assert rows[..i + 1][..i] == rows[..i] && delivered[..i + 1][..i] == delivered[..i];
  }

  /** sent + failed is the number of bookings the run tried to remind. */
  lemma {:induction false} CountsAddUp(rows: seq<BookingRecord>, attempt: BookingRecord -> bool, delivered: seq<bool>)
    requires |delivered| == |rows|
    ensures CountSent(rows, attempt, delivered) + CountFailed(rows, attempt, delivered) ==
            CountAttempted(rows, attempt)
    decreases |rows|
  {
    if rows != [] {
      var n := |rows| - 1;
      CountsAddUp(rows[..n], attempt, delivered[..n]);
    }
  }

  /** A run changes a row only by reminding it, and reminds it only when it was selected
      and the notifier delivered; the stamp is the run's `now`, and apart from the two
      reminder columns the reminded row is the row a save writes. */
  lemma SweepEffect(rows: seq<BookingRecord>, attempt: BookingRecord -> bool, now: int,
                    delivered: seq<bool>, j: int)
    requires |delivered| == |rows| && 0 <= j < |rows|
    ensures |Sweep(rows, attempt, now, delivered)| == |rows|
    ensures Sweep(rows, attempt, now, delivered)[j].reminderSent <==>
              rows[j].reminderSent || (attempt(rows[j]) && delivered[j])
    ensures !(attempt(rows[j]) && delivered[j]) ==> Sweep(rows, attempt, now, delivered)[j] == rows[j]
    ensures attempt(rows[j]) && delivered[j] ==>
              Sweep(rows, attempt, now, delivered)[j].reminderSentAt == Some(now) &&
              Sweep(rows, attempt, now, delivered)[j].(reminderSent := rows[j].reminderSent,
                                                       reminderSentAt := rows[j].reminderSentAt) == Saved(rows[j])
    ensures attempt(rows[j]) && delivered[j] ==>
              Sweep(rows, attempt, now, delivered)[j].bookingEndTime ==
                Some(EndTime(rows[j].service, rows[j].bookingTime)) &&
              Sweep(rows, attempt, now, delivered)[j].totalPrice ==
                DefaultPrice(rows[j].totalPrice, rows[j].service.priceCents)
  {
  }

  /** A job that never selects an already-reminded booking. */
  ghost predicate SkipsReminded(attempt: BookingRecord -> bool) {
    forall r :: attempt(r) ==> !r.reminderSent
  }

  /** One run of either job, as the model sees it. */
  datatype Run = Run(attempt: BookingRecord -> bool, now: int, delivered: seq<bool>)

  ghost predicate RunsFit(rows: seq<BookingRecord>, runs: seq<Run>) {
    forall i :: 0 <= i < |runs| ==> |runs[i].delivered| == |rows| && SkipsReminded(runs[i].attempt)
  }

  /** The rows after a series of runs. */
  function AfterRuns(rows: seq<BookingRecord>, runs: seq<Run>): seq<BookingRecord>
    requires forall i :: 0 <= i < |runs| ==> |runs[i].delivered| == |rows|
    decreases |runs|
  {
    if runs == [] then rows
    else AfterRuns(Sweep(rows, runs[0].attempt, runs[0].now, runs[0].delivered), runs[1..])
  }

  /** In how many of the runs booking j receives a reminder. */
  function RemindersTo(rows: seq<BookingRecord>, runs: seq<Run>, j: int): nat
    requires 0 <= j < |rows|
    requires forall i :: 0 <= i < |runs| ==> |runs[i].delivered| == |rows|
    decreases |runs|
  {
    if runs == [] then 0
    else
      var r := runs[0];
      (if r.attempt(rows[j]) && r.delivered[j] then 1 else 0) +
      RemindersTo(Sweep(rows, r.attempt, r.now, r.delivered), runs[1..], j)
  }

  /** However many runs of jobs that skip reminded bookings follow one another, each
      booking receives at most one reminder, and none once it is marked. */
  lemma {:induction false} AtMostOneReminder(rows: seq<BookingRecord>, runs: seq<Run>, j: int)
    requires 0 <= j < |rows|
    requires RunsFit(rows, runs)
    ensures RemindersTo(rows, runs, j) <= (if rows[j].reminderSent then 0 else 1)
    decreases |runs|
  {
    if runs != [] {
      var r := runs[0];
      var next := Sweep(rows, r.attempt, r.now, r.delivered);
      assert RunsFit(next, runs[1..]) by {
        forall i | 0 <= i < |runs[1..]|
          ensures |runs[1..][i].delivered| == |next| && SkipsReminded(runs[1..][i].attempt)
        {
          assert runs[1..][i] == runs[i + 1];
        }
      }
      AtMostOneReminder(next, runs[1..], j);
      SweepEffect(rows, r.attempt, r.now, r.delivered, j);
    }
  }
}
