/** The booking modal: choosing a date, a time or rush service, entering
    contact details, leaving for checkout, and the in-modal card form with its
    ten-minute countdown. */
module BookingFlow {
  import opened Records
  import opened Decimal

  datatype Step = Selection | Payment | Success

  // ----- Price list of the modal -----

  const RushFee: nat := 20

  function ServicePrice(s: ServiceType): nat {
    match s
    case Optimization => 30
    case Repair => 20
  }

  /** `service.price + (isRush ? rushFee : 0)`. */
  function TotalPrice(s: ServiceType, isRush: bool): nat {
    ServicePrice(s) + if isRush then RushFee else 0
  }

  /** The four totals the modal can show on its pay button. */
  lemma TotalPriceTable()
    ensures TotalPrice(Optimization, false) == 30
    ensures TotalPrice(Optimization, true) == 50
    ensures TotalPrice(Repair, false) == 20
    ensures TotalPrice(Repair, true) == 40
  {
  }

  /** The modal charges less than the confirmation and admin screens display,
      for every service and rush choice: the two price lists are not the same. */
  lemma PriceListsDisagree(s: ServiceType, isRush: bool)
    ensures TotalPrice(s, isRush) < DisplayTotal(s, isRush)
    ensures TotalPrice(s, isRush) - ServicePrice(s) == (if isRush then 20 else 0)
    ensures DisplayTotal(s, isRush) - DisplayPrice(s) == (if isRush then 50 else 0)
  {
  }

  // ----- Countdown display -----

  /** Length of the payment window in seconds. */
  const SessionSeconds: nat := 600

  function Zeros(n: nat): (z: string)
    ensures |z| == n && forall i :: 0 <= i < n ==> z[i] == '0'
  {
    seq(n, _ => '0')
  }

  /** `t.padStart(2, "0")`. */
  function PadStart2(t: string): (r: string)
    ensures |t| >= 2 ==> r == t
    ensures |t| < 2 ==> |r| == 2 && r[2 - |t|..] == t && r[..2 - |t|] == Zeros(2 - |t|)
  {
    if |t| >= 2 then t else Zeros(2 - |t|) + t
  }

  /** `formatTime`: whole minutes, a colon, seconds padded to two digits. */
  function FormatTime(seconds: nat): (shown: string)
    ensures |shown| >= 4 && shown[|shown| - 3] == ':'
    ensures AllDigits(shown[..|shown| - 3]) && AllDigits(shown[|shown| - 2..])
    ensures ParseNat(shown[|shown| - 2..]) == seconds % 60
    ensures seconds < 600 <==> |shown| == 4
  {
    var m, p := NatToString(seconds / 60), PadStart2(NatToString(seconds % 60));
    PaddedSeconds(seconds % 60);
    var shown := m + ":" + p;
    assert shown[..|shown| - 3] == m && shown[|shown| - 2..] == p;
    shown
  }

  /** Reads a countdown label back: digits, a colon, exactly two digits
      below 60. An independent reading of what `FormatTime` writes. */
  function ParseClock(s: string): Option<nat> {
    if |s| < 4 || s[|s| - 3] != ':' then None
    else
      var mins, secs := s[..|s| - 3], s[|s| - 2..];
      if mins != [] && AllDigits(mins) && AllDigits(secs) && ParseNat(secs) < 60
      then Some(ParseNat(mins) * 60 + ParseNat(secs))
      else None
  }

  /** The seconds part of the label is two digits that read back as
      `seconds % 60`. */
  lemma PaddedSeconds(k: nat)
    requires k < 60
    ensures |PadStart2(NatToString(k))| == 2
    ensures AllDigits(PadStart2(NatToString(k)))
    ensures ParseNat(PadStart2(NatToString(k))) == k
  {
    var t := NatToString(k);
    ParseNatToString(k);
    if |t| < 2 {
      assert PadStart2(t) == "0" + t;
      ParseNatLeadingZero(t);
    }
  }

  /** Every countdown label reads back as the number of seconds it shows, so
      no two values share a label. */
  lemma FormatTimeRoundTrip(seconds: nat)
    ensures ParseClock(FormatTime(seconds)) == Some(seconds)
  {
    var m, p := NatToString(seconds / 60), PadStart2(NatToString(seconds % 60));
    var s := FormatTime(seconds);
    PaddedSeconds(seconds % 60);
    ParseNatToString(seconds / 60);
    assert s == m + ":" + p;
    assert s[..|s| - 3] == m;
    assert s[|s| - 2..] == p;
  }

  /** The label at the start of the window, and two padded ones. */
  lemma FormatTimeExamples()
    ensures FormatTime(600) == "10:00"
    ensures FormatTime(65) == "1:05"
    ensures FormatTime(9) == "0:09"
  {
    assert NatToString(10) == "10";
    assert NatToString(0) == "0";
    assert NatToString(5) == "5";
    assert NatToString(1) == "1";
    assert NatToString(9) == "9";
  }

  // ----- Card inputs -----

  const CardNumberLength: nat := 16
  const CvcLength: nat := 3

  /** The card-number and CVC `onChange` filters:
      `value.replace(/\D/g, "").slice(0, cap)`. */
  function DigitInput(raw: string, cap: nat): (r: string)
    ensures AllDigits(r) && |r| <= cap
    ensures r <= DigitsOnly(raw)
    ensures |r| == if |DigitsOnly(raw)| <= cap then |DigitsOnly(raw)| else cap
  {
    Take(DigitsOnly(raw), cap)
  }

  /** Filtering a value the filter produced changes nothing, and a value of at
      most `cap` digits passes unchanged. */
  lemma DigitInputStable(raw: string, cap: nat)
    ensures DigitInput(DigitInput(raw, cap), cap) == DigitInput(raw, cap)
    ensures AllDigits(raw) && |raw| <= cap ==> DigitInput(raw, cap) == raw
  {
    DigitsOnlyOfDigits(DigitInput(raw, cap));
    if AllDigits(raw) {
      DigitsOnlyOfDigits(raw);
    }
  }

  // ----- Card validation -----

  /** The current date as the card check reads it: `getFullYear()` and
      `getMonth() + 1`. */
  datatype YearMonth = YearMonth(fullYear: nat, month: nat)

  datatype PaymentError = MissingDetails | BadCardNumber | BadExpiryFormat | CardExpired | BadCvc

  function ErrorMessage(e: PaymentError): string {
    match e
    case MissingDetails => "Please fill in all payment details"
    case BadCardNumber => "Please enter a valid 16-digit card number"
    case BadExpiryFormat => "Please enter expiry in MM/YY format"
    case CardExpired => "Card has expired"
    case BadCvc => "Please enter a valid 3-digit CVC"
  }

  /** `/^(0[1-9]|1[0-2])\/\d{2}$/`: the pattern accepts exactly five
      characters, two digits reading as a month from 1 to 12, a slash, and
      two more digits. */
  predicate ExpiryFormatOk(e: string): (ok: bool)
    ensures ok <==>
      && |e| == 5 && e[2] == '/'
      && AllDigits(e[..2]) && AllDigits(e[3..])
      && 1 <= ParseNat(e[..2]) <= 12
  {
    var ok :=
      && |e| == 5
      && ((e[0] == '0' && '1' <= e[1] <= '9') || (e[0] == '1' && '0' <= e[1] <= '2'))
      && e[2] == '/'
      && IsDigit(e[3]) && IsDigit(e[4]);
    if |e| == 5 && AllDigits(e[..2]) then
      ParseTwoDigits(e[..2]);
      ok
    else
      ok
  }

  function ExpiryMonth(e: string): (m: nat)
    requires ExpiryFormatOk(e)
    ensures m == DigitValue(e[0]) * 10 + DigitValue(e[1])
    ensures 1 <= m <= 12
  {
    ParseTwoDigits(e[..2]);
    ParseNat(e[..2])
  }

  function ExpiryYear(e: string): (y: nat)
    requires ExpiryFormatOk(e)
    ensures y == DigitValue(e[3]) * 10 + DigitValue(e[4])
    ensures y < 100
  {
    ParseTwoDigits(e[3..]);
    ParseNat(e[3..])
  }

  /** The expiry is not before the current month; the current month itself
      passes. Years are compared by their last two digits. */
  predicate NotExpired(e: string, today: YearMonth): (ok: bool)
    requires ExpiryFormatOk(e)
    ensures 1 <= today.month <= 12 ==>
      (ok <==> ExpiryYear(e) * 12 + ExpiryMonth(e) >= (today.fullYear % 100) * 12 + today.month)
  {
    var currentYear := today.fullYear % 100;
    !(ExpiryYear(e) < currentYear || (ExpiryYear(e) == currentYear && ExpiryMonth(e) < today.month))
  }

  /** The checks of `handlePayment`, in order; the first that fails decides
      the error. */
  function CheckCard(number: string, expiry: string, cvc: string, today: YearMonth): (r: Option<PaymentError>)
    ensures r == None <==>
      && number != "" && expiry != "" && cvc != ""
      && |number| == CardNumberLength
      && ExpiryFormatOk(expiry) && NotExpired(expiry, today)
      && |cvc| == CvcLength
    ensures r == Some(MissingDetails) <==> number == "" || expiry == "" || cvc == ""
    ensures r == Some(BadCardNumber) <==>
      number != "" && expiry != "" && cvc != "" && |number| != CardNumberLength
    ensures r == Some(BadExpiryFormat) <==>
      number != "" && expiry != "" && cvc != "" && |number| == CardNumberLength && !ExpiryFormatOk(expiry)
    ensures r == Some(CardExpired) <==>
      && number != "" && expiry != "" && cvc != "" && |number| == CardNumberLength
      && ExpiryFormatOk(expiry) && !NotExpired(expiry, today)
    ensures r == Some(BadCvc) <==>
      && number != "" && expiry != "" && cvc != "" && |number| == CardNumberLength
      && ExpiryFormatOk(expiry) && NotExpired(expiry, today) && |cvc| != CvcLength
  {
    if number == "" || expiry == "" || cvc == "" then Some(MissingDetails)
    else if |number| != CardNumberLength then Some(BadCardNumber)
    else if !ExpiryFormatOk(expiry) then Some(BadExpiryFormat)
    else if !NotExpired(expiry, today) then Some(CardExpired)
    else if |cvc| != CvcLength then Some(BadCvc)
    else None
  }

  /** A 15-digit number, a past expiry and a 2-digit CVC are each refused
      with their own error; an expiry in the current month is accepted. */
  lemma CheckCardExamples()
    ensures CheckCard("123456789012345", "12/30", "123", YearMonth(2025, 3)) == Some(BadCardNumber)
    ensures CheckCard("1111111111111111", "12/20", "123", YearMonth(2025, 3)) == Some(CardExpired)
    ensures CheckCard("1111111111111111", "12/30", "12", YearMonth(2025, 3)) == Some(BadCvc)
    ensures CheckCard("1111111111111111", "13/30", "123", YearMonth(2025, 3)) == Some(BadExpiryFormat)
    ensures CheckCard("1111111111111111", "03/25", "123", YearMonth(2025, 3)) == None
    ensures CheckCard("1111111111111111", "02/25", "123", YearMonth(2025, 3)) == Some(CardExpired)
  {
    assert ParseNat("30") == 30 && ParseNat("25") == 25 && ParseNat("20") == 20;
    assert ParseNat("12") == 12 && ParseNat("03") == 3 && ParseNat("02") == 2;
    assert "12/20"[..2] == "12" && "12/20"[3..] == "20";
    assert "12/30"[..2] == "12" && "12/30"[3..] == "30";
    assert "03/25"[..2] == "03" && "03/25"[3..] == "25";
    assert "02/25"[..2] == "02" && "02/25"[3..] == "25";
  }

  // ----- Calendar strip -----

  const MsPerDay: int := 24 * 60 * 60 * 1000
  const CalendarLength: nat := 14

  /** `generateCalendarDays`: today and the thirteen days after it. */
  method GenerateCalendarDays(today: Instant) returns (days: seq<Instant>)
    ensures |days| == CalendarLength
    ensures forall i :: 0 <= i < |days| ==> days[i] == today + i * MsPerDay
    ensures forall i, j :: 0 <= i < j < |days| ==> days[i] < days[j]
  {
    days := [];
    var i := 0;
    while i < CalendarLength
      invariant 0 <= i <= CalendarLength
      invariant |days| == i
      invariant forall k :: 0 <= k < i ==> days[k] == today + k * MsPerDay
    {
      days := days + [today + i * MsPerDay];
      i := i + 1;
    }
  }

  const TimeSlots: seq<string> := [
    "09:00 AM", "10:00 AM", "11:00 AM", "12:00 PM",
    "01:00 PM", "02:00 PM", "03:00 PM", "04:00 PM",
    "05:00 PM", "06:00 PM", "07:00 PM", "08:00 PM", "09:00 PM"
  ]

  // ----- The modal -----

  /** What `handleProceedToPayment` does: show an alert and stay, or store
      the pending record and leave for checkout. */
  datatype ProceedOutcome = Alerted(message: string) | Redirected(record: PendingBooking)

  const DeclineMessage := "Payment declined. Please check your card details and try again."
  const PaymentFallbackMessage := "Payment failed. Please try again."

  class BookingModal {
    const serviceType: ServiceType
    var selectedDate: Option<Instant>
    var selectedTime: string
    var isRush: bool
    var customerDiscord: string
    var customerEmail: string
    var step: Step
    var timeRemaining: nat
    var isProcessing: bool
    var error: string
    var cardNumber: string
    var cardExpiry: string
    var cardCvc: string
    /** How many times the modal has called its `onClose` prop. */
    var closeRequests: nat

    /** Every field `handleClose` resets, except the countdown, holds its
        initial value. `isProcessing` is not among them. */
    predicate FormCleared()
      reads this
    {
      && selectedDate == None && selectedTime == "" && !isRush
      && customerDiscord == "" && customerEmail == ""
      && step == Selection && error == ""
      && cardNumber == "" && cardExpiry == "" && cardCvc == ""
    }

    /** The state `handleClose` restores. */
    predicate Cleared()
      reads this
    {
      FormCleared() && timeRemaining == SessionSeconds
    }

    /** The choices and the card fields are as they were. */
    twostate predicate InputsUnchanged()
      reads this
    {
      && selectedDate == old(selectedDate) && selectedTime == old(selectedTime)
      && isRush == old(isRush)
      && customerDiscord == old(customerDiscord) && customerEmail == old(customerEmail)
      && cardNumber == old(cardNumber) && cardExpiry == old(cardExpiry) && cardCvc == old(cardCvc)
    }

    constructor (serviceType: ServiceType)
      ensures this.serviceType == serviceType
      ensures Cleared() && !isProcessing && closeRequests == 0
    {
      this.serviceType := serviceType;
      selectedDate, selectedTime, isRush := None, "", false;
      customerDiscord, customerEmail := "", "";
      step, timeRemaining, isProcessing, error := Selection, SessionSeconds, false, "";
      cardNumber, cardExpiry, cardCvc := "", "", "";
      closeRequests := 0;
    }

    /** Clicking a day of the strip; nothing else changes. */
    method SelectDate(d: Instant)
      modifies this`selectedDate
      ensures selectedDate == Some(d)
    {
      selectedDate := Some(d);
    }

    /** Clicking one of the listed slots; nothing else changes. */
    method SelectTime(t: string)
      requires t in TimeSlots
      modifies this`selectedTime
      ensures selectedTime == t
    {
      selectedTime := t;
    }

    /** Clicking the rush panel flips the flag and keeps any chosen slot;
        nothing else changes. */
    method ToggleRush()
      modifies this`isRush
      ensures isRush == !old(isRush)
    {
      isRush := !isRush;
    }

    /** The Discord and email inputs take what was typed; nothing else
        changes. */
    method SetContact(discord: string, email: string)
      modifies this`customerDiscord, this`customerEmail
      ensures customerDiscord == discord && customerEmail == email
    {
      customerDiscord, customerEmail := discord, email;
    }

    /** The card-number field keeps the typed digits, at most sixteen;
        nothing else changes. */
    method SetCardNumber(raw: string)
      modifies this`cardNumber
      ensures cardNumber == DigitInput(raw, CardNumberLength)
    {
      cardNumber := DigitInput(raw, CardNumberLength);
    }

    /** The expiry field keeps what was typed; nothing else changes. */
    method SetCardExpiry(raw: string)
      modifies this`cardExpiry
      ensures cardExpiry == raw
    {
      cardExpiry := raw;
    }

    /** The CVC field keeps the typed digits, at most three; nothing else
        changes. */
    method SetCardCvc(raw: string)
      modifies this`cardCvc
      ensures cardCvc == DigitInput(raw, CvcLength)
    {
      cardCvc := DigitInput(raw, CvcLength);
    }

    /** `handleClose`: every field back to its initial value, except that an
        in-flight payment's `isProcessing` is left alone; then `onClose`. */
    method HandleClose()
      modifies this
      ensures Cleared()
      ensures isProcessing == old(isProcessing) && closeRequests == old(closeRequests) + 1
    {
      selectedDate, selectedTime, isRush := None, "", false;
      customerDiscord, customerEmail := "", "";
      step, timeRemaining, error := Selection, SessionSeconds, "";
      cardNumber, cardExpiry, cardCvc := "", "", "";
      closeRequests := closeRequests + 1;
    }

    /** `handleProceedToPayment` at instant `now`. It refuses, with the alert
        of the first failing guard, unless a slot is chosen or rush is on, and
        both contact fields are filled in. Otherwise it yields the pending
        record it stores before redirecting; the modal's state is untouched. */
    method ProceedToPayment(now: Instant) returns (outcome: ProceedOutcome)
      ensures outcome.Redirected? <==>
        (isRush || (selectedDate.Some? && selectedTime != "")) && customerDiscord != "" && customerEmail != ""
      ensures !isRush && (selectedDate.None? || selectedTime == "") ==>
        outcome == Alerted("Please select both date and time")
      ensures (isRush || (selectedDate.Some? && selectedTime != "")) && (customerDiscord == "" || customerEmail == "") ==>
        outcome == Alerted("Please enter your Discord and email")
      ensures outcome.Redirected? ==>
        && outcome.record.selectedDate == (if isRush then now else selectedDate.value)
        && outcome.record.selectedTime == (if isRush then "ASAP" else selectedTime)
        && outcome.record.isRush == isRush
        && outcome.record.customerDiscord == customerDiscord
        && outcome.record.customerEmail == customerEmail
        && outcome.record.serviceType == serviceType
        && outcome.record.timestamp == now
    {
      if !isRush && (selectedDate.None? || selectedTime == "") {
        return Alerted("Please select both date and time");
      }
      if customerDiscord == "" || customerEmail == "" {
        return Alerted("Please enter your Discord and email");
      }
      var date := if isRush then now else selectedDate.value;
      var time := if isRush then "ASAP" else selectedTime;
      outcome := Redirected(PendingBooking(date, time, isRush, customerDiscord, customerEmail, serviceType, now));
    }

    /** The synchronous part of `handlePayment`: the card checks in order.
        A failing check sets its message and changes nothing else; when all
        pass, the error is cleared and processing starts. */
    method BeginPayment(today: YearMonth) returns (submitted: bool)
      requires step == Payment && !isProcessing
      modifies this
      ensures submitted <==> CheckCard(cardNumber, cardExpiry, cardCvc, today) == None
      ensures !submitted ==>
        error == ErrorMessage(CheckCard(cardNumber, cardExpiry, cardCvc, today).value) && !isProcessing
      ensures submitted ==> isProcessing && error == ""
      ensures step == Payment && timeRemaining == old(timeRemaining) && closeRequests == old(closeRequests)
      ensures InputsUnchanged()
    {
      var check := CheckCard(cardNumber, cardExpiry, cardCvc, today);
      if check.Some? {
        error := ErrorMessage(check.value);
        return false;
      }
      isProcessing, error := true, "";
      submitted := true;
    }

    /** The awaited part of `handlePayment`. `declined` is the simulated
        random decline; `post` is what the booking request produced. Success
        moves to the success step; any failure sets its message and stays.
        Processing ends on every path, and the countdown is not reset. */
    method FinishPayment(declined: bool, post: PostOutcome)
      requires isProcessing
      modifies this
      ensures !isProcessing
      ensures !declined && post.Created? ==> step == Success && error == old(error)
      ensures declined ==> step == old(step) && error == DeclineMessage
      ensures !declined && !post.Created? ==>
        step == old(step) && error == PostErrorMessage(post, PaymentFallbackMessage)
      ensures timeRemaining == old(timeRemaining) && closeRequests == old(closeRequests)
      ensures InputsUnchanged()
    {
      if declined {
        error := DeclineMessage;
      } else if post.Created? {
        step := Success;
      } else {
        error := PostErrorMessage(post, PaymentFallbackMessage);
      }
      isProcessing := false;
    }

    /** One second of the countdown. Above one it counts down. At one the
        updater calls `handleTimeExpired` (alert, then `handleClose`) and
        yields 0. Whether that 0 or the reset's 600 is applied last depends
        on when React runs the updater, which `eagerUpdate` chooses: run at
        the `setTimeRemaining` call, the 600 is queued first and the 0 wins;
        run during the next render, the 600 is a render-phase update applied
        after it. Either way the rest of the form is cleared. */
    method Tick(eagerUpdate: bool) returns (expired: bool)
      requires step == Payment && timeRemaining > 0
      modifies this
      ensures expired <==> old(timeRemaining) <= 1
      ensures !expired ==>
        && timeRemaining == old(timeRemaining) - 1 && step == Payment
        && error == old(error) && closeRequests == old(closeRequests)
        && InputsUnchanged()
      ensures expired ==> FormCleared() && closeRequests == old(closeRequests) + 1
      ensures expired ==> timeRemaining == if eagerUpdate then 0 else SessionSeconds
      ensures isProcessing == old(isProcessing)
    {
      expired := timeRemaining <= 1;
      if expired {
        if eagerUpdate {
          HandleClose();
          timeRemaining := 0;
        } else {
          timeRemaining := 0;
          HandleClose();
        }
      } else {
        timeRemaining := timeRemaining - 1;
      }
    }

    /** The Back button of the payment step (disabled while processing):
        returns to selection; nothing else changes, not even the
        countdown. */
    method BackToSelection()
      requires !isProcessing
      modifies this`step
      ensures step == Selection
    {
      step := Selection;
    }

    /** The amount on the pay button. */
    function Total(): (t: nat)
      reads this
      ensures t == (match serviceType case Optimization => 30 case Repair => 20) + (if isRush then 20 else 0)
    {
      TotalPrice(serviceType, isRush)
    }
  }
}
