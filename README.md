# iWashCars booking core in Dafny

This project models the core of iWashCars, a mobile car-wash booking site built on
Django. It covers five parts of the core:

- **The catalogue and booking records** (`main/models.py`), in module `Catalog`:
  - a service's end-time arithmetic and its duration display string;
  - `Booking.save`, which derives the end time and defaults the price;
  - the booking overlap test;
  - the "one primary image per service" rule of `ServiceImage.save`.
- **The availability map of the booking page** (`main/views.py`), in module
  `Availability`. For every date with a booking, it lists the "%H:%M" labels of the
  half-hour slots that fall inside some booking.
- **The booking form's choices** (`main/forms.py`), in module `BookingForm`: the
  placeholder, then every half hour from 08:00 to 18:00 with 24-hour values and
  12-hour labels, and the active-service filter.
- **The two-phase card payment service** (`main/stripe_utils.py`), in module
  `Payments`:
  - creation of a manual-capture hold for the deposit;
  - deposit capture, which saves the card;
  - off-session charging of the remaining amount;
  - deposit refund;
  - release of the hold.
- **The two reminder jobs**, in modules `ReminderTask` and `ReminderCommand`:
  - the periodic e-mail task (`main/tasks.py`);
  - the SMS management command (`main/management/commands/send_reminders.py`).

  Their shared step, counting and at-most-once argument is in module `ReminderSweep`.

`Clock` holds the wall-clock representation and the string formats. `Wrappers` holds
`Option`.

The model uses these representations:

| Quantity | Representation |
|---|---|
| Time of day | integer minutes since midnight |
| Calendar date | integer day number |
| Instant (`timezone.now()`) | integer seconds; `datetime.combine(d, t)` is `d * 86400 + t * 60` |
| Money | integer cents |

Everything the code asks of the outside world is a parameter. That covers:

- every card-processor answer (`GatewayResult`: success, card error, other processor error);
- whether a receipt e-mail or reminder reached its recipient;
- the current instant;
- the payment guards `can_capture_remaining`, `can_refund_deposit` and `can_cancel_authorization`.

Each payment operation also returns the list of outbound requests it made. This makes
"no processor call", "exactly the deposit is captured" and "the receipt is sent only
after success" statements about that list.

Rows the code updates in place are classes:

- `Catalog.Booking` and `Payments.Payment`, whose columns are fields and whose value as a
  row is `Snapshot()`;
- `Catalog.ImageTable`, whose field `images` holds the service image rows.

The loops of the booking page, the booking form and the reminder jobs are methods with
loop invariants. Each is proved against a pure function, and the properties are proved
about that function:

| Method | Specification function |
|---|---|
| `Availability.BuildUnavailableSlots` | `Availability.Unavailable` |
| `ReminderTask.SendBookingReminders` | `ReminderSweep.Sweep` and its counts |
| `ReminderCommand.Handle` | `ReminderSweep.Sweep` and its counts |

`Payments.Payment.CaptureRemainingAmount` is proved in the same way: its reply, new
columns and calls are those of the pure `Payments.CaptureRemainingOutcome`, whose
contract states the capture's properties.

Behaviours of the code that the model keeps as written:

- **No buffer in the overlap test.** `overlaps_with` (main/models.py:105-114) compares
  the plain `[start, end)` ranges, with no post-service allowance, and
  `Catalog.Booking.OverlapsWith` does the same (`Catalog.BackToBackDoNotOverlap`). The
  booking page likewise marks exactly `[start, end)`. It takes every booking row, since
  the Booking model has no status column.
- **No guard on deposit capture.** `capture_deposit` (main/stripe_utils.py:81-117)
  checks no status, so `Payments.Payment.CaptureDeposit` accepts every status.
- **The price is refilled while it is falsy.** `Booking.save` overwrites the total price
  whenever it is NULL or 0, so a price of 0 is replaced at the next save
  (`Catalog.ZeroPriceIsNotFrozen`). This includes the save after a delivered reminder.
- **The intent uses the service price.** `create_payment_intent` takes the total from
  the service price, not from the booking's stored `total_price`.
- **The reminder query can select nothing.** The SMS command selects bookings by date
  and by a time-of-day range. When midnight falls inside the range, the query selects
  nothing (`ReminderCommand.NothingAcrossMidnight`).

## Model

| member | source | states |
|---|---|---|
| Catalog.DurationDisplay | main/models.py:30-35 | the display string, from floor `//` and `%` by 60; its meaning is stated by the round trip and shape lemmas below |
| Catalog.DurationDisplayRoundTrip | main/models.py:30-35 | for every non-negative duration, the display string ("{h}h {m}m", "{h}h" or "{m}m") is read back to that duration, so no two durations share a display |
| Catalog.DurationDisplayShapes | main/models.py:33-35 | under an hour the display is the minutes only; a whole number of hours shows no minutes part |
| Catalog.NegativeDurationDisplay | main/models.py:31-35 | with floor division a negative duration such as -30 or -90 is displayed as "30m", the display of a positive duration |
| Catalog.EndTime | main/models.py:37-42 | the end time is a time of day; it is start + duration when that stays within the day |
| Catalog.EndTimeRecoversStart | main/models.py:37-42 | subtracting the duration from the end time, modulo a day, gives back the start |
| Catalog.EndTimeWrapsPastMidnight | main/models.py:40-42 | a service running past midnight gets an end time earlier than its start (the date is dropped) |
| Catalog.DefaultPrice | main/models.py:101-102 | a truthy stored price is kept; a missing or zero price becomes the service price |
| Catalog.PriceFrozenAfterSave | main/models.py:101-102 | once a non-zero price is stored, later saves keep it whatever the service price becomes |
| Catalog.ZeroPriceIsNotFrozen | main/models.py:101-102 | a stored price of 0 is replaced with the current service price |
| Catalog.Booking.constructor | main/models.py:66-89 | a booking instance holds exactly the given row |
| Catalog.Saved | main/models.py:97-103 | the row a save writes: end time recomputed from the service and start, price defaulted, every other column kept |
| Catalog.SaveIdempotent | main/models.py:97-103 | saving a just-saved row changes nothing, and a saved row always has an end time and a price |
| Catalog.SaveKeepsOtherColumns | main/models.py:97-103 | a save changes only the end time and the price, keeps a truthy price, and stores an end time that is a time of day |
| Catalog.Booking.Save | main/models.py:97-103 | the instance's columns become exactly the row `Saved` gives for its old columns |
| Catalog.Booking.OverlapsWith | main/models.py:105-114 | an overlap needs the same date, and two bookings with the same start and a non-empty range overlap; an end time is required only where the short-circuiting comparisons read it |
| Catalog.OverlapsDifferentDates | main/models.py:107-108 | bookings on different dates never overlap |
| Catalog.NullEndStillAnswered | main/models.py:107-114 | with a NULL end time the answer is still defined for another date, and for a later start against a booking that has an end: overlap exactly when it starts before that end |
| Catalog.OverlapsSymmetric | main/models.py:111-114 | a overlaps b exactly when b overlaps a |
| Catalog.OverlapsIsHalfOpenIntersection | main/models.py:105-114 | for non-wrapping bookings on one date, overlap holds exactly when the half-open [start, end) ranges intersect |
| Catalog.BackToBackDoNotOverlap | main/models.py:111-114 | a booking starting at the instant another ends does not overlap it (no buffer) |
| Catalog.WrappedBookingOverlaps | main/models.py:111-114 | a booking whose stored end time wrapped past midnight covers no start of its own: it overlaps another booking that day only when it starts inside that booking |
| Catalog.Demote | main/models.py:61-62 | every primary image of the service is demoted; all other rows are unchanged |
| Catalog.Upsert | main/models.py:63 | the saved image replaces the row with its id, or is appended when the id is new |
| Catalog.UpsertKeepsIdsUnique | main/models.py:63 | writing an image into a table with unique ids keeps the ids unique and leaves the image in the table |
| Catalog.SaveImage | main/models.py:59-63 | saving an image: demote the service's primaries when the image is primary, then write the image; its properties are the lemmas below |
| Catalog.SavedPrimaryIsOnlyPrimary | main/models.py:59-63 | after saving a primary image it is the only primary image of its service |
| Catalog.SaveImageFrame | main/models.py:59-63 | images of other services are untouched, and a non-primary save demotes nothing |
| Catalog.SaveImageKeepsIdsUnique | main/models.py:59-63 | saving keeps image ids unique |
| Catalog.ImageTable.Save | main/models.py:59-63 | the table becomes the saved-image table, keeps unique ids, contains the image, and the image is its service's only primary when it is a primary image |
| Clock.FormatHHMM | main/views.py:41 | `strftime('%H:%M')`: five characters, two digits, a colon and two digits; its meaning is stated by `Clock.HHMMRoundTrip` and `Clock.HHMMInjective` |
| Clock.Format12 | main/forms.py:41-42 | `strftime('%I:%M %p')`: eight characters, with the colon, the space and "AM" exactly before noon; its meaning is stated by `Clock.Format12RoundTrip` |
| Clock.HHMMRoundTrip | main/views.py:41 | the "%H:%M" string of a time of day reads back to that time |
| Clock.HHMMInjective | main/views.py:41-43 | two times of day share a "%H:%M" string exactly when they are equal, so the `not in` test compares times |
| Clock.Format12RoundTrip | main/forms.py:41-42 | the "%I:%M %p" string of a time of day reads back to that time |
| Availability.SlotTimes | main/views.py:39-44 | every slot lies in [start, end) |
| Availability.SlotTimesExact | main/views.py:39-44 | a time is a slot exactly when start <= t < end and t is a whole number of half hours after start |
| Availability.NoSlotsWhenEndNotAfterStart | main/views.py:40 | a booking whose end is not after its start marks nothing |
| Availability.SlotLabels | main/views.py:39-41 | the "%H:%M" strings of the walk from the start in 30-minute steps; its meaning is stated by `SlotLabelsAt` and `LabelInSlotLabels` |
| Availability.SlotLabelsAt | main/views.py:41 | the labels are the "%H:%M" strings of the slots, one per slot, in order |
| Availability.LabelInSlotLabels | main/views.py:40-43 | a time's label is listed for a booking exactly when the time is one of its slots |
| Availability.AppendNew | main/views.py:42-43 | appending each label the list does not hold yet; its meaning is stated by `AppendNewMembers` and `AppendNewKeepsNoDuplicates` |
| Availability.AppendNewMembers | main/views.py:42-43 | appending only absent labels yields exactly the union of old and new labels |
| Availability.AppendNewKeepsNoDuplicates | main/views.py:42-43 | appending only absent labels keeps a list duplicate-free |
| Availability.MarkBooking | main/views.py:36-44 | marking one booking appends its absent slot labels to its date's list and changes no other date |
| Availability.MarkSlots | main/views.py:39-44 | the walk from the start in 30-minute steps leaves the date's list as exactly the old list with the booking's absent slot labels appended, in order |
| Availability.Unavailable | main/views.py:29-44 | the map the page builds, booking by booking in query order; its meaning is stated by the lemmas below |
| Availability.BuildUnavailableSlots | main/views.py:29-44 | the loop over the bookings computes exactly the map `Unavailable` specifies |
| Availability.UnavailableKeys | main/views.py:31-33 | the map's dates are exactly the booking dates, including those of bookings that mark nothing |
| Availability.UnavailableMembers | main/views.py:30-44 | a label is listed for a date exactly when some booking on that date has it among its slot labels |
| Availability.UnavailableNoDuplicates | main/views.py:42-43 | no date lists a label twice |
| Availability.UnavailableMarksExactly | main/views.py:30-44 | a time's label is listed for a date exactly when some booking that day has start <= t < end with t a whole number of half hours after its start |
| Availability.BookingMarksExactly | main/views.py:39-43 | one booking lists a time's label exactly when it covers the time: start <= t < end and t a whole number of half hours after start |
| Availability.MarksExactly | main/views.py:30-44 | some booking on a date lists a time's label exactly when some booking on that date covers the time |
| Availability.UnavailableEntriesAreTimes | main/views.py:41 | every listed entry is the "%H:%M" string of a time of day |
| BookingForm.TimeChoices | main/forms.py:33-46 | the choices are the placeholder followed by the 21 times 08:00, 08:30, ..., 18:00, each as its ("%H:%M", "%I:%M %p") pair |
| BookingForm.OfferedValuesAreHalfHours | main/forms.py:34-44 | each value reads back as 08:00 + 30k, within 08:00 to 18:00, consecutive values 30 minutes apart |
| BookingForm.ChoiceLabelAgreesWithValue | main/forms.py:41-42 | a choice's 12-hour label and 24-hour value name the same time |
| BookingForm.FirstChoice | main/forms.py:34-43 | the first option after the placeholder is 08:00 / "08:00 AM" |
| BookingForm.AfternoonChoice | main/forms.py:37-44 | the twelfth option is 13:30 / "01:30 PM" |
| BookingForm.LastChoice | main/forms.py:35-44 | the last option is 18:00 / "06:00 PM" |
| BookingForm.ActiveServices | main/forms.py:31 | a service is offered exactly when it is active |
| Payments.ChargeReply | main/stripe_utils.py:157-188 | the reply succeeds exactly when the processor succeeds, and is then the charge of the requested amount; authentication_required gives the needs-action reply with its fixed text and the pending intent; another card error gives "Card was declined: ..."; any other processor error gives its text |
| Payments.Payment.constructor | main/stripe_utils.py:56-64 | a new payment is pending, has no saved card, and its remaining amount is the total less the deposit |
| Payments.Payment.CaptureDeposit | main/stripe_utils.py:81-117 | whatever the status, exactly the deposit is captured on the payment's intent; success saves the card and moves to deposit_captured; any processor error moves to failed with the error in the notes |
| Payments.Payment.ChargeSavedPaymentMethod | main/stripe_utils.py:120-188 | without a saved card there is no processor call and the "no saved payment method" error; otherwise one off-session charge of exactly the amount against the saved card and customer; success exactly when the processor succeeds |
| Payments.CaptureRemainingOutcome | main/stripe_utils.py:191-257 | a refused guard gives an error and no call; a fully captured payment is a no-op success; otherwise exactly the remaining amount is charged against the saved card, or no call is made without one. The reply succeeds exactly when the charge does; a failure returns the charge's own reply (or the no-saved-card error) and writes only "Remaining payment failed: ..." to the notes; a success moves to fully_captured, stamps the time and sends the receipt, and only then. No amount column ever changes |
| Payments.Payment.CaptureRemainingAmount | main/stripe_utils.py:191-257 | the reply, the payment's new columns and the outbound calls are exactly those `CaptureRemainingOutcome` gives for the old columns and the guard's verdict on the old status, and the amounts stay consistent |
| Payments.Payment.RefundDeposit | main/stripe_utils.py:260-313 | when the guard refuses, an error and no call; otherwise exactly the deposit is refunded on the intent; success moves to deposit_refunded with the reason in the notes and sends the receipt; a processor error writes only the notes |
| Payments.Payment.CancelAuthorization | main/stripe_utils.py:316-347 | when the guard refuses, an error and no call; otherwise one cancel of the intent; success moves to cancelled; a processor error writes only the notes |
| Payments.CreatePaymentIntent | main/stripe_utils.py:17-78 | the customer is registered, then a hold of exactly the deposit amount is opened; a payment row exists exactly when both calls succeed, and then it is pending with total = service price and remaining = total less deposit |
| Payments.CaptureRemainingTwice | main/stripe_utils.py:191-215 | under the guard documented as "status must be deposit_captured", a successful charge of the remaining amount is followed by a refusal with no call, so the fully-captured no-op is never reached |
| ReminderSweep.Step | main/tasks.py:29-35 | one booking after a run looks at it: flagged, stamped and saved when it was attempted and delivered, otherwise unchanged; its meaning is stated by `SweepEffect` |
| ReminderSweep.Sweep | main/tasks.py:24-44 | every booking after one run, each by `Step`; its meaning is stated by `SweepEffect` and `AtMostOneReminder` |
| ReminderSweep.CountSent | main/tasks.py:21-36 | `sent_count`: the attempted bookings whose reminder was delivered; stated by `CountsExtend` and `CountsAddUp` |
| ReminderSweep.CountFailed | main/tasks.py:21-41 | `failed_count`: the attempted bookings whose reminder was not delivered; stated by `CountsExtend` and `CountsAddUp` |
| ReminderSweep.MarkReminded | main/tasks.py:32-35 | the booking's columns become the sweep step for a delivered reminder: flagged, stamped with the run's instant, then saved |
| ReminderSweep.CountsExtend | main/tasks.py:21-41 | considering one more booking adds one to the sent count exactly when it was selected and delivered, and one to the failed count exactly when it was selected and not delivered |
| ReminderSweep.CountsAddUp | main/tasks.py:21-47 | sent + failed equals the number of bookings the run tried to remind |
| ReminderSweep.SweepEffect | main/tasks.py:30-36 | a run sets the reminded flag exactly on the selected bookings whose reminder was delivered and stamps them with the run's instant; such a booking is also saved, so its end time is recomputed and a falsy price refilled; every other booking is unchanged |
| ReminderSweep.AtMostOneReminder | main/tasks.py:15-36 | over any series of runs of jobs that skip reminded bookings, each booking receives at most one reminder, and none once it is already marked |
| ReminderTask.Selected | main/tasks.py:15-29 | the bookings the e-mail task tries to remind: the query (confirmed, not reminded, on the date of now + 25 min) and the inclusive 25-35 minute window |
| ReminderTask.Consider | main/tasks.py:24-44 | one iteration: the booking becomes the sweep step for the e-mail task's selection and delivery, and it counts as sent (or failed) exactly when it is selected and delivered (or not) |
| ReminderTask.SendBookingReminders | main/tasks.py:10-47 | the run leaves every booking as the sweep over the e-mail task's selection specifies (flags, stamp and the save of each reminded booking), and its sent and failed counts are the delivered and undelivered selected bookings |
| ReminderTask.SkipsRemindedBookings | main/tasks.py:15-19 | the e-mail task never selects a booking already reminded |
| ReminderTask.AfterMidnightMissed | main/tasks.py:12-19 | when now + 25 minutes and now + 35 minutes fall on different dates, bookings on the later date are not reminded |
| ReminderTask.SelectedIffWindow | main/tasks.py:15-29 | otherwise, a confirmed, unreminded booking is selected exactly when its start lies in [now + 25 min, now + 35 min] |
| ReminderCommand.Selected | main/management/commands/send_reminders.py:13-33 | the bookings the command tries to remind: the query (confirmed, not reminded, date and time-of-day range of now + 30 to now + 35 min) and the 25-35 minute guard |
| ReminderCommand.Consider | main/management/commands/send_reminders.py:26-52 | one iteration: the booking becomes the sweep step for the command's selection and delivery, and it counts as sent (or failed) exactly when it is selected and delivered (or not) |
| ReminderCommand.Handle | main/management/commands/send_reminders.py:11-58 | the run leaves every booking as the sweep over the command's selection specifies (flags, stamp and the save of each reminded booking), and its sent and failed counts are the delivered and undelivered selected bookings |
| ReminderCommand.SkipsRemindedBookings | main/management/commands/send_reminders.py:15-21 | the command never selects a booking already reminded |
| ReminderCommand.QueryImpliesLeadTime | main/management/commands/send_reminders.py:13-33 | every queried booking starts 30 to 35 minutes from now, so the 25-35 minute guard never rejects one |
| ReminderCommand.SelectionWithinDay | main/management/commands/send_reminders.py:13-33 | when the day does not turn in the next 35 minutes, a confirmed, unreminded booking is selected exactly when it starts 30 to 35 minutes from now |
| ReminderCommand.NothingAcrossMidnight | main/management/commands/send_reminders.py:18-20 | when midnight falls between now + 30 and now + 35 minutes, the query selects nothing |
| ReminderCommand.LateEveningBookingMissed | main/management/commands/send_reminders.py:18-20 | at 23:27 a booking at 23:57 the same day, exactly 30 minutes away, is not selected |
| ReminderCommand.CommandSelectionWithinTask | main/management/commands/send_reminders.py:13-33 | whatever the command selects lies inside the e-mail task's 25-35 minute window |
| ReminderCommand.BothJobsRemindOnce | main/management/commands/send_reminders.py:15-39 | any interleaving of task and command runs sends each unreminded booking at most one reminder |

## Left out

- Notification delivery is modelled only as the boolean outcome the jobs and receipts read. This covers the e-mail and SMS senders (`main/notification_utils.py`) and the Mailgun backend. Message contents, logging and the command's console output are not modelled.
- Time zones are not modelled: `make_aware`, the difference between UTC `now` and local booking dates, and daylight-saving changes. All instants share one clock.
- Sub-second precision is not modelled: instants are whole seconds, while the command compares `booking_time` with a microsecond-precise `reminder_time.time()`.
- Money is integer cents, so `Decimal` rounding of `price * 100` is not modelled.
- `get_deposit_amount` is not part of this model. The deposit is a column of `Catalog.Service`.
- The Payment model and its guards `can_capture_remaining`, `can_refund_deposit` and `can_cancel_authorization` are not part of this model. The guards are parameters. `Payments.DocumentedCan*` are the readings their error texts suggest.
- `get_remaining_amount_dollars()` (used by main/stripe_utils.py:226) belongs to the Payment model, which is not part of this model. `Payments.RemainingChargedNote` takes it to be the remaining amount divided by 100.
- The success message strings of the payment replies, and any metadata sent to the processor, are not modelled.
- `capture_remaining_amount`'s outer `except Exception` path (main/stripe_utils.py:249-257) is not modelled. The modelled code raises nothing there.
- A receipt e-mail that raises is modelled as an undelivered receipt. Its exception is not modelled.
- ORM persistence, ids assigned to new rows, query ordering and transactions are not modelled. The booking table is a list of distinct instances.
- Concurrency is not modelled: concurrent bookings, concurrent reminder runs and processor webhooks. The at-most-once lemmas cover runs in sequence.
- Availability.Unavailable: map keys are day numbers, not `'%Y-%m-%d'` strings. A booking row with no end time, which makes the view raise, cannot be expressed: the end of an `ExistingBooking` is a plain integer, so rows without an end time are excluded by the type. `WellFormed` only bounds the start and end to the day.
- Catalog.Booking.OverlapsWith: an input where the source compares against a NULL end time and raises `TypeError` is excluded by its preconditions. The inputs where the short-circuiting comparisons never reach the NULL are modelled and answered.
- The rest of the booking view is not modelled: form handling and redirects, the service data for the page script.
- `get_payment_status`, `debug_payment_intent`, address validation, the admin, the URL configuration, the schedule setup and the migrations are outside the modelled core.
- The reminder columns `reminder_sent` and `reminder_sent_at` are used by both jobs but are not declared in the `Booking` model shown (main/models.py:66-89). They are modelled as plain columns of `Catalog.BookingRecord`.
