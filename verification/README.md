# Booking site core, modelled in Dafny

This project models the logic of a small booking web site for two PC
services ("optimization" and "repair"). A customer books either a fixed slot
or rush service, pays, and the booking is created. Admins list, view by day
and delete bookings. The model covers six components:

- **The booking modal** (`BookingFlow`, class `BookingModal`). It holds the
  state fields and the modal's price list. It models the guard for leaving the
  selection step, which exempts rush bookings from choosing a date and time.
  It builds the pending record, which stores `"ASAP"` as the time of a rush
  booking. It runs the ordered card checks, the card input filters, the
  one-second countdown, the reset on close, `formatTime` and the 14-day
  calendar strip.
- **The completion page** (`PaymentCompletion`, class `PaymentSuccessPage`).
  It reads the pending record back, applies the ten-minute window and sends
  the booking request. It removes the stored record on success and on expiry,
  but not after a failed request.
- **The admin list** (`AdminList`, class `AdminPanel`). It normalises the
  payload and sorts it ascending by instant. Delete removes exactly the
  matching id. It also covers the create-admin form.
- **The admin calendar** (`BookingsCalendar`). It filters bookings by day,
  shows a three-line preview with a "+N more" count, lists the selected day's
  bookings and shows their totals.
- **The admin middleware** (`AdminGate`). The role is the JavaScript `||` of
  four metadata flags. The gate calls `next` or sends 403.
- **The login modal** (`LoginForm`, class `LoginModal`). Its mode follows the
  parent's prop. Signup checks for a name. Success and failure keep or clear
  different fields.

Shared value types and the 99/149/+50 display price list are in `Records`.
Decimal printing and parsing are in `Decimal`.

Things outside the model become inputs:
- the current instant and year/month;
- the simulated random decline;
- the outcome of every HTTP call;
- the user's confirmation;
- date formatting.

Timers become explicit methods (`Tick`). Each awaited handler is either one
method that takes the settled outcome as a parameter, or, in the booking
modal, two methods: one before the await and one after it.

### Behaviour the model keeps as the code has it
- The modal charges 30/20 plus 20 for rush. The completion page, the admin list
  and the admin calendar display 99/149 plus 50. Each price list is kept as
  written, and `PriceListsDisagree` proves that they differ for every input.
- `handleClose` does not reset `isProcessing`.
- When the countdown runs out, the state updater calls `handleClose` and
  returns 0. `handleClose` queues 600 for the same state. Which value is
  applied last depends on when React runs the updater. If it runs at the
  `setTimeRemaining` call, the 600 is queued first and the countdown ends at 0.
  If it runs during the next render, the 600 is a render-phase update applied
  afterwards and the countdown ends at 600. `Tick` takes that choice as the
  input `eagerUpdate`. The form is cleared and the step is selection in both
  cases.
- No handler moves the modal into the payment step. `BeginPayment`,
  `FinishPayment` and `Tick` take that step as a precondition, and the model
  adds no transition into it.
- The Back button returns to selection without resetting the countdown.
- The ten-minute window is checked on the client, with a strict `>` on
  milliseconds, so exactly 600 000 ms is still accepted.
- `requireAdmin` reads four metadata locations, one of them writable by the
  user (`AnyOneFlagSuffices`). It answers only with 403. An undefined
  `req.user` makes the destructuring throw, and the model has an outcome for
  that case. There is no separate 401 path.

## Model

| member | source | states |
|---|---|---|
| `BookingFlow.TotalPriceTable` | src/app/components/booking-modal.tsx:29-42 | The modal's totals: optimization 30, or 50 with rush; repair 20, or 40 with rush. |
| `BookingFlow.BookingModal.Total` | src/app/components/booking-modal.tsx:228-229 | The pay-button amount is 30 for optimization or 20 for repair, plus 20 exactly when rush is on. |
| `BookingFlow.PriceListsDisagree` | src/app/components/booking-modal.tsx:29-42 | For every service and rush flag, the modal's total is below the display total. The modal's rush fee is 20; the display surcharge is 50. |
| `BookingFlow.FormatTimeRoundTrip` | src/app/components/booking-modal.tsx:231-235 | Every `formatTime` label (minutes, colon, two-digit seconds) reads back as exactly the seconds it was made from, so no two values share a label. |
| `BookingFlow.FormatTimeExamples` | src/app/components/booking-modal.tsx:231-235 | 600 s shows as "10:00", 65 s as "1:05", 9 s as "0:09". |
| `BookingFlow.FormatTime` | src/app/components/booking-modal.tsx:231-235 | A countdown label is digits, a colon, then two digits that read as the seconds within the minute. The label is four characters exactly when under ten minutes remain. |
| `BookingFlow.PaddedSeconds` | src/app/components/booking-modal.tsx:233-234 | The seconds part is padded to exactly two digits, and those digits read back as the seconds. |
| `BookingFlow.PadStart2` | src/app/components/booking-modal.tsx:234 | `padStart(2, "0")` leaves strings of length two or more alone. It left-pads shorter ones with zeros to length two, keeping the original as the suffix. |
| `BookingFlow.DigitInput` | src/app/components/booking-modal.tsx:527 | The card input filter keeps the first min(cap, digit count) typed digits, in order, and nothing else. |
| `BookingFlow.DigitInputStable` | src/app/components/booking-modal.tsx:544 | Filtering is idempotent. A value that is already at most `cap` digits passes unchanged. |
| `Decimal.DigitsOnly` | src/app/components/booking-modal.tsx:527 | `replace(/\D/g, "")` yields only digits, no longer than the input. A character is in the result exactly when it is a digit of the input. |
| `Decimal.DigitsOnlyConcat` | src/app/components/booking-modal.tsx:527 | The filter works piece by piece on a concatenation, so the kept digits stay in typing order. |
| `Decimal.DigitsOnlyCount` | src/app/components/booking-modal.tsx:527 | Every digit is kept exactly as many times as it was typed, and every other character is dropped. |
| `Decimal.Take` | src/app/components/booking-modal.tsx:544 | `slice(0, n)` is the prefix of length min(n, length). |
| `BookingFlow.ExpiryFormatOk` | src/app/components/booking-modal.tsx:153-154 | The MM/YY pattern accepts exactly five characters: two digits reading as a month from 1 to 12, a slash, and two digits. |
| `BookingFlow.ExpiryMonth` | src/app/components/booking-modal.tsx:160-165 | `parseInt(month)` of a pattern-matching expiry is tens times ten plus units of its first two characters, a value from 1 to 12. |
| `BookingFlow.ExpiryYear` | src/app/components/booking-modal.tsx:160-165 | `parseInt(year)` of a pattern-matching expiry is tens times ten plus units of its last two characters, a value below 100. |
| `BookingFlow.NotExpired` | src/app/components/booking-modal.tsx:160-167 | For a current month from 1 to 12, the card passes exactly when its month index (two-digit year times 12 plus month) is not before the current one, with the current year reduced to its last two digits. |
| `BookingFlow.CheckCard` | src/app/components/booking-modal.tsx:141-176 | The checks run in order: fields present, 16-character number, MM/YY pattern, not before the current month (the current month passes), 3-character CVC. Each error holds exactly when all earlier checks pass and its own check fails. No error holds exactly when all five pass. |
| `BookingFlow.CheckCardExamples` | src/app/components/booking-modal.tsx:146-176 | A 15-digit number, a past expiry, a 2-digit CVC and month 13 each get their own error. An expiry in the current month is accepted. |
| `BookingFlow.GenerateCalendarDays` | src/app/components/booking-modal.tsx:87-96 | The strip is 14 days, today first, each one day after the previous, strictly increasing. |
| `BookingFlow.BookingModal.constructor` | src/app/components/booking-modal.tsx:14-27 | Starts in selection with 600 s, no date, rush off, empty strings, not processing. |
| `BookingFlow.BookingModal.SelectDate` | src/app/components/booking-modal.tsx:347 | Picking a day sets the date. Its frame is that one field, so everything else is unchanged. |
| `BookingFlow.BookingModal.SelectTime` | src/app/components/booking-modal.tsx:372-377 | Picking one of the listed slots sets the time. Its frame is that one field, so everything else is unchanged. |
| `BookingFlow.BookingModal.ToggleRush` | src/app/components/booking-modal.tsx:287 | The rush panel flips the flag. Its frame is that one field, so any chosen slot and everything else are unchanged. |
| `BookingFlow.BookingModal.SetContact` | src/app/components/booking-modal.tsx:407-417 | The contact fields take what was typed. The frame is those two fields, so everything else is unchanged. |
| `BookingFlow.BookingModal.SetCardNumber` | src/app/components/booking-modal.tsx:527 | The card number becomes the filtered digits, at most 16. Its frame is that one field, so everything else is unchanged. |
| `BookingFlow.BookingModal.SetCardExpiry` | src/app/components/booking-modal.tsx:536 | The expiry keeps the raw text. Its frame is that one field, so everything else is unchanged. |
| `BookingFlow.BookingModal.SetCardCvc` | src/app/components/booking-modal.tsx:544 | The CVC becomes the filtered digits, at most 3. Its frame is that one field, so everything else is unchanged. |
| `BookingFlow.BookingModal.HandleClose` | src/app/components/booking-modal.tsx:72-85 | Every field it resets is back to its initial value (step selection, 600 s, no date, rush off, empty strings). `isProcessing` is untouched, and `onClose` is called once. |
| `BookingFlow.BookingModal.ProceedToPayment` | src/app/components/booking-modal.tsx:98-118 | Redirects exactly when (rush, or date and time chosen) and both contact fields are filled. Otherwise it shows the alert of the first failing guard. The record has the current instant and "ASAP" when rush, else the chosen date and time. Rush, contact and service are copied, and the timestamp is now. |
| `BookingFlow.BookingModal.BeginPayment` | src/app/components/booking-modal.tsx:140-179 | Submits exactly when every card check passes. A failing check sets its message, leaves `isProcessing` false and leaves the step, countdown and inputs unchanged. Submitting clears the error and sets `isProcessing`. |
| `BookingFlow.BookingModal.FinishPayment` | src/app/components/booking-modal.tsx:181-223 | A created booking moves to success. A decline or a failed request sets its message and stays. `isProcessing` is false on every outcome, and the countdown is not reset. |
| `BookingFlow.BookingModal.Tick` | src/app/components/booking-modal.tsx:50-70 | Above 1 it counts down by one. At 1 the modal is closed: the form is cleared, the step is selection and `onClose` is called once. The countdown ends at 0 when React runs the updater eagerly and at 600 when it runs it during render. `isProcessing` is kept. |
| `BookingFlow.BookingModal.BackToSelection` | src/app/components/booking-modal.tsx:570-571 | Back, only when not processing, returns to selection. Its frame is the step alone, so the countdown, error, inputs, `isProcessing` and `onClose` count are unchanged. |
| `Decimal.NatToString` | src/app/components/booking-modal.tsx:232-234 | `toString` on a whole number gives a non-empty string of digits, with no leading zero. It has one digit below 10 and at most two below 100. |
| `Decimal.ParseNatToString` | src/app/components/booking-modal.tsx:164-165 | `parseInt` reads back every number that `toString` printed. |
| `Decimal.ParseTwoDigits` | src/app/components/booking-modal.tsx:160-165 | A two-digit month or year reads as tens times ten plus units. |
| `Decimal.DigitsOnlyOfDigits` | src/app/components/booking-modal.tsx:527 | Removing non-digits from an all-digit string changes nothing. |
| `PaymentCompletion.WindowBoundary` | src/app/components/payment-success.tsx:26-30 | A session is accepted at 599 s and at exactly 600 s, and refused at 600.001 s and at 601 s. |
| `PaymentCompletion.WindowOnlyCloses` | src/app/components/payment-success.tsx:27-30 | Once a session is past the window it stays past it. Accepted at some instant means accepted at every earlier one. |
| `PaymentCompletion.WithinWindow` | src/app/components/payment-success.tsx:27-30 | A stored session is accepted exactly until 600 000 ms after its timestamp, that instant included. |
| `PaymentCompletion.PaymentSuccessPage.constructor` | src/app/components/payment-success.tsx:8-10 | The page starts processing, with no error and no details. |
| `PaymentCompletion.PaymentSuccessPage.ProcessPayment` | src/app/components/payment-success.tsx:13-73 | No record: "No pending booking found" and no request. Past the window: the expiry message, the record removed, no request. Otherwise the request forwards the formatted date, the stored time ("ASAP" for rush), rush, service and contact. A created booking removes the record and keeps it as details. A failure shows the message and keeps the record. Processing ends on every path. |
| `PaymentCompletion.PaymentSuccessPage.DisplayedTotal` | src/app/components/payment-success.tsx:134-135 | The confirmation shows 99 for optimization or 149 for repair, plus 50 when rush. |
| `Records.PostErrorMessage` | src/app/components/payment-success.tsx:57-71 | A failed booking request shows the body's error, else "Failed to create booking". A thrown error shows its message, else the caller's fallback. |
| `Records.DisplayTotalTable` | src/app/components/admin-panel.tsx:192-195 | The display totals: optimization 99, or 149 with rush; repair 149, or 199 with rush. |
| `Records.BookingsFromPayload` | src/app/components/bookings-calendar.tsx:44-50 | An array payload is taken as is. A non-array payload or a failed fetch gives the empty list. |
| `AdminList.Insert` | src/app/components/admin-panel.tsx:59-62 | Insertion adds exactly the one booking to the multiset, and the list grows by one. The new first element is the inserted booking or the old first one. |
| `AdminList.SortByKey` | src/app/components/admin-panel.tsx:59-62 | The sorted list has the payload's length and holds exactly its bookings, each as often as there. |
| `AdminList.InsertSorted` | src/app/components/admin-panel.tsx:59-62 | Inserting into a sorted list keeps it sorted. |
| `AdminList.SortByKeySorted` | src/app/components/admin-panel.tsx:57-63 | The sorted list is ascending by the date-and-time instant and is a permutation of the payload. |
| `AdminList.WithoutId` | src/app/components/admin-panel.tsx:92 | After deletion, a booking is in the list exactly when it was there before and its id differs from the deleted one. |
| `AdminList.WithoutIdCount` | src/app/components/admin-panel.tsx:92 | Every booking with the id is gone, and every other booking stays as many times as it was there. |
| `AdminList.WithoutIdConcat` | src/app/components/admin-panel.tsx:92 | Deletion works piece by piece on a concatenation, so the remaining bookings keep their order. |
| `AdminList.WithoutIdAbsent` | src/app/components/admin-panel.tsx:92 | Deleting an id no booking has leaves the list unchanged. |
| `AdminList.AdminPanel.constructor` | src/app/components/admin-panel.tsx:26-32 | The panel starts with no bookings, not loading, the form hidden and empty. |
| `AdminList.AdminPanel.FetchBookings` | src/app/components/admin-panel.tsx:36-73 | The list becomes the normalised payload sorted ascending (a permutation of it). It is empty on a fetch error or a non-array payload. Loading ends either way, and the form is untouched. |
| `AdminList.AdminPanel.DeleteBooking` | src/app/components/admin-panel.tsx:75-97 | A request is sent exactly when confirmed. Only a confirmed delete with an ok response removes the bookings with that id; every other case leaves the list unchanged. |
| `AdminList.AdminPanel.CreateAdmin` | src/app/components/admin-panel.tsx:99-135 | A clean response clears the three fields and the error, and hides the form. An error body shows its message and keeps the form. A failed request shows the fixed message. |
| `AdminList.AdminPanel.ToggleCreateAdminForm` | src/app/components/admin-panel.tsx:377 | The button shows or hides the form. Its frame is that one flag, so the list, the form fields and loading are unchanged. |
| `AdminList.AdminPanel.RowTotals` | src/app/components/admin-panel.tsx:268-270 | There is one total per listed booking, in order: 99 or 149 by service, plus 50 when rush. |
| `BookingsCalendar.BookingsForDate` | src/app/components/bookings-calendar.tsx:63-66 | A booking is listed for a day exactly when it is in the list and its date string equals the day's text. |
| `BookingsCalendar.BookingsForDateConcat` | src/app/components/bookings-calendar.tsx:65 | Filtering by day works piece by piece, so the day's bookings keep their original order. |
| `BookingsCalendar.BookingsForDateCount` | src/app/components/bookings-calendar.tsx:65 | Each booking of that day appears as often as in the full list. Bookings of other days do not appear. |
| `BookingsCalendar.Preview` | src/app/components/bookings-calendar.tsx:132 | A day cell lists the first min(3, count) bookings of the day, in order. |
| `BookingsCalendar.MoreCount` | src/app/components/bookings-calendar.tsx:143-145 | "+N more" appears exactly when the day has more than 3 bookings, and N is the count minus 3. |
| `BookingsCalendar.PreviewAccountsForDay` | src/app/components/bookings-calendar.tsx:130-145 | The preview length plus N equals the day's count, and N is at least 1 when shown. |
| `BookingsCalendar.SelectedDateBookings` | src/app/components/bookings-calendar.tsx:68 | With no selected day the detail list is empty. Otherwise it is exactly that day's bookings, in list order and with their counts. |
| `BookingsCalendar.SelectedDayTotals` | src/app/components/bookings-calendar.tsx:163-165 | There is one total per detail card, in order: 99 or 149 by service, plus 50 when rush. |
| `AdminGate.JsOr` | supabase/functions/server/index.tsx:6-10 | `a \|\| b` yields one of its operands. |
| `AdminGate.JsOrTruthy` | supabase/functions/server/index.tsx:6-10 | `a \|\| b` is truthy exactly when either operand is. |
| `AdminGate.RoleFromUser` | supabase/functions/server/index.tsx:3-12 | The role is admin exactly when one of the four `admin` flags is truthy (user, app, raw user, raw app metadata). A missing object counts as an undefined flag. |
| `AdminGate.MissingMetadataIsRegular` | supabase/functions/server/index.tsx:4-10 | A user with no metadata objects is a regular user, without failing. |
| `AdminGate.RoleMonotone` | supabase/functions/server/index.tsx:6-11 | Adding truthy flags never turns an admin into a regular user. |
| `AdminGate.AnyOneFlagSuffices` | supabase/functions/server/index.tsx:6-11 | A truthy flag in any single location makes the user an admin, whatever the other three hold. |
| `AdminGate.RequireAdmin` | supabase/functions/server/index.tsx:14-22 | `next` is called exactly for admins. Every other user gets exactly one response, 403 "Access denied: Admins only.". An undefined `req.user` throws. |
| `LoginForm.LoginModal.constructor` | src/app/components/login-modal.tsx:15-20 | The modal starts in login mode, with empty fields, not loading and no error. |
| `LoginForm.LoginModal.SyncMode` | src/app/components/login-modal.tsx:23-25 | `isSignup` becomes `loginMode == "signup"`. Nothing else changes. |
| `LoginForm.LoginModal.HandleSubmit` | src/app/components/login-modal.tsx:27-54 | Signup without a name sets "Please enter your name" and calls nothing. Login calls only `onLogin`, and signup with a name calls only `onSignup`. Success clears the three fields and calls `onClose`. Failure shows the thrown message (else "Authentication failed") and keeps the fields. Loading ends on every path. |
| `LoginForm.LoginModal.ToggleMode` | src/app/components/login-modal.tsx:171-176 | The link flips `isSignup`, reports the new mode to the parent and clears the error. The reported mode matches the one shown. |

## Left out

- Rendering, animation and styling are not modelled, including the animated
  backgrounds, the notification bar, `App.tsx` and `main.tsx` routing. None of
  them holds booking logic.
- `src/utils/auth.ts` is not part of this model. It wraps the identity
  provider's HTTP calls, and `LoginModal.HandleSubmit` takes their settled
  outcome as an input.
- The Stripe redirect is not modelled. `ProceedToPayment` yields the record
  it stores, not the checkout URL chosen by service and rush.
- Session storage is modelled as a field holding the record. The JSON
  round-trip is taken as lossless. A stored string that `JSON.parse` rejects
  is not modelled, and neither is a record without a timestamp, which would
  compare as `NaN`.
- Dates are simplified. Instants are whole milliseconds, and ISO strings are
  represented by their instant. The `yyyy-MM-dd` formatting is a function
  parameter (`formatDay`) or a `DayKey` string. Calendar days are 86 400 000 ms
  apart, so daylight-saving shifts that `setDate` absorbs are not modelled.
  Month navigation in the admin calendar is not modelled.
- `Math.random`, the two-second delay and `setInterval` are inputs or explicit
  steps: `declined`, `FinishPayment` and `Tick`.
- `BookingFlow.BookingModal.Tick`: React's scheduling is not modelled. Whether
  the expiring updater runs eagerly or during render is the input
  `eagerUpdate`. The model does not decide which one React takes on a given
  tick.
- `BookingFlow.BookingModal.FinishPayment`: the body of the modal's own booking
  request is not modelled, and its result is an input. For a rush booking
  without a date, the source's `format(selectedDate!, ...)` call throws before
  any request is sent. The model does not rule out a `Created` outcome in that
  state, which would move the modal to the success step.
- `LoginForm.LoginModal.HandleSubmit` and
  `PaymentCompletion.PaymentSuccessPage.ProcessPayment` each run as one step.
  The loading or processing flag that is true while the request is pending is
  seen only before the step and after it.
- `AdminList.AdminPanel.FetchBookings` sorts by an abstract integer key that
  stands for the instant of `${date} ${time}`. Unparsable pairs such as an
  "ASAP" time give `NaN` in the source and make the order
  implementation-defined; that case is not modelled. Stability of the sort is
  not stated. The `isLoading` flag is true only while the request is pending,
  which a one-step method cannot show.
- Service types other than the two known ones are not modelled. The source
  would fail reading the price of an unknown type.
- JavaScript `NaN`, `-0` and `BigInt` values are not modelled among the
  `admin` flag values.
- Slot uniqueness, the bookings store, conflict detection and the outbound
  notification are not modelled. None of the modelled files implements them:
  the only server file is the admin middleware.
- The admin panel's test-booking button (`createTestBooking`) is not
  modelled. It only posts a fixed request and shows its status.
