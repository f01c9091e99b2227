/** The page the checkout returns to: it reads the pending booking back from
    the browser session, enforces the ten-minute window, and creates the
    booking. */
module PaymentCompletion {
  import opened Records

  /** The window, in milliseconds, between storing the pending booking and
      creating it. */
  const SessionWindowMs: int := 10 * 60 * 1000

  /** `Date.now() - timestamp > tenMinutesInMs` does not hold. */
  predicate WithinWindow(timestamp: Instant, now: Instant): (ok: bool)
    ensures ok <==> now <= timestamp + SessionWindowMs
  {
    !(now - timestamp > SessionWindowMs)
  }

  /** The boundary is inclusive: 599 s and exactly 600 s are accepted, one
      millisecond more is not. */
  lemma WindowBoundary(t: Instant)
    ensures WithinWindow(t, t + 599_000)
    ensures WithinWindow(t, t + 600_000)
    ensures !WithinWindow(t, t + 600_001)
    ensures !WithinWindow(t, t + 601_000)
  {
  }

  /** An accepted session was accepted at every earlier instant, and an
      expired one stays expired. */
  lemma WindowOnlyCloses(t: Instant, earlier: Instant, later: Instant)
    requires earlier <= later
    ensures WithinWindow(t, later) ==> WithinWindow(t, earlier)
    ensures !WithinWindow(t, earlier) ==> !WithinWindow(t, later)
  {
  }

  /** The body of `POST /bookings` as this page sends it. */
  datatype BookingRequest = BookingRequest(
    date: DayKey,
    time: string,
    serviceType: ServiceType,
    isRush: bool,
    customerDiscord: string,
    customerEmail: string)

  const NoPendingMessage := "No pending booking found"
  const ExpiredMessage := "Booking session expired. Please try again."
  const CreateFallbackMessage := "Failed to create booking"

  class PaymentSuccessPage {
    /** The `pendingBooking` entry of the browser session. */
    var stored: Option<PendingBooking>
    var isProcessing: bool
    var error: string
    var bookingDetails: Option<PendingBooking>

    constructor (stored: Option<PendingBooking>)
      ensures this.stored == stored
      ensures isProcessing && error == "" && bookingDetails == None
    {
      this.stored := stored;
      isProcessing, error, bookingDetails := true, "", None;
    }

    /** `processPayment`, run once when the page mounts, at instant `now`.
        `formatDay` is date-fns `format(…, "yyyy-MM-dd")`; `response` is what
        the booking request produced, and is only read when a request is
        made. The stored record is removed on success and on expiry, and kept
        when the request fails. */
    method ProcessPayment(now: Instant, formatDay: Instant -> DayKey, response: PostOutcome)
      returns (request: Option<BookingRequest>)
      requires isProcessing && error == "" && bookingDetails == None
      modifies this
      ensures !isProcessing
      ensures old(stored).None? ==>
        request == None && error == NoPendingMessage && stored == None && bookingDetails == None
      ensures old(stored).Some? && !WithinWindow(old(stored).value.timestamp, now) ==>
        request == None && error == ExpiredMessage && stored == None && bookingDetails == None
      ensures old(stored).Some? && WithinWindow(old(stored).value.timestamp, now) ==>
        var r := old(stored).value;
        && request.Some?
        && request.value.date == formatDay(r.selectedDate)
        && request.value.time == r.selectedTime
        && request.value.serviceType == r.serviceType
        && request.value.isRush == r.isRush
        && request.value.customerDiscord == r.customerDiscord
        && request.value.customerEmail == r.customerEmail
      ensures request.Some? && response.Created? ==>
        stored == None && bookingDetails == old(stored) && error == ""
      ensures request.Some? && !response.Created? ==>
        stored == old(stored) && bookingDetails == None && error == PostErrorMessage(response, CreateFallbackMessage)
    {
      if stored.None? {
        error, isProcessing := NoPendingMessage, false;
        return None;
      }
      var record := stored.value;
      if !WithinWindow(record.timestamp, now) {
        error := ExpiredMessage;
        stored := None;
        isProcessing := false;
        return None;
      }
      request := Some(BookingRequest(formatDay(record.selectedDate), record.selectedTime,
                                     record.serviceType, record.isRush,
                                     record.customerDiscord, record.customerEmail));
      if response.Created? {
        stored := None;
        bookingDetails := Some(record);
        isProcessing := false;
      } else {
        error := PostErrorMessage(response, CreateFallbackMessage);
        isProcessing := false;
      }
    }

    /** The total shown beside the confirmed booking. */
    function DisplayedTotal(): (t: nat)
      reads this
      requires bookingDetails.Some?
      ensures t == (match bookingDetails.value.serviceType case Optimization => 99 case Repair => 149)
                   + (if bookingDetails.value.isRush then 50 else 0)
    {
      DisplayTotal(bookingDetails.value.serviceType, bookingDetails.value.isRush)
    }
  }
}
