/** Values shared by the booking components: the service catalogue, the
    pending booking kept in the browser session, the stored booking the
    admin screens list, and the outcomes of the HTTP calls they make. */
module Records {

  datatype Option<T> = None | Some(value: T)

  /** Milliseconds since the epoch, as `Date.now()` and `getTime()` give them. */
  type Instant = int

  /** A calendar day written `yyyy-MM-dd`, as date-fns `format` writes it. */
  type DayKey = string

  datatype ServiceType = Optimization | Repair

  /** The record the booking modal writes under the `pendingBooking` session
      key before leaving for checkout, and the completion page reads back.
      `selectedDate` is the ISO string of a `Date`, kept here as its instant. */
  datatype PendingBooking = PendingBooking(
    selectedDate: Instant,
    selectedTime: string,
    isRush: bool,
    customerDiscord: string,
    customerEmail: string,
    serviceType: ServiceType,
    timestamp: Instant)

  /** A booking as the admin endpoint returns it. */
  datatype Booking = Booking(
    id: string,
    serviceType: ServiceType,
    date: DayKey,
    time: string,
    isRush: bool,
    customerDiscord: string,
    customerEmail: string,
    createdAt: string)

  /** What a `GET /admin/bookings` call produced: a failure (a non-ok status
      or a thrown error), or a JSON body whose `bookings` member is an array
      (`Some`) or anything else (`None`). */
  datatype FetchResult = FetchFailed | Fetched(bookings: Option<seq<Booking>>)

  /** What a `POST /bookings` call produced: an ok response, a non-ok
      response whose body's `error` member is `errorField` ("" when absent or
      falsy), or a thrown value (`Some(message)` for an `Error`). */
  datatype PostOutcome = Created | Refused(errorField: string) | Threw(message: Option<string>)

  /** `Array.isArray(data.bookings) ? data.bookings : []`, with a failed
      fetch also leaving the list empty. */
  function BookingsFromPayload(r: FetchResult): (list: seq<Booking>)
    ensures r.Fetched? && r.bookings.Some? ==> list == r.bookings.value
    ensures list != [] ==> r.Fetched? && r.bookings.Some?
  {
    match r
    case FetchFailed => []
    case Fetched(None) => []
    case Fetched(Some(list)) => list
  }

  /** The message a failed `POST /bookings` leaves: the body's `error`, else
      "Failed to create booking" for a non-ok response; the thrown error's
      message, else `fallback`, for a thrown value. */
  function PostErrorMessage(o: PostOutcome, fallback: string): (msg: string)
    requires !o.Created?
    ensures o.Refused? && o.errorField != "" ==> msg == o.errorField
    ensures o.Refused? && o.errorField == "" ==> msg == "Failed to create booking"
    ensures o.Threw? ==> msg == (if o.message.Some? then o.message.value else fallback)
  {
    match o
    case Refused(e) => if e != "" then e else "Failed to create booking"
    case Threw(m) => if m.Some? then m.value else fallback
  }

  // The price list of the three display screens (payment confirmation,
  // admin list, admin calendar). It is not the booking modal's price list.

  const DisplayRushSurcharge: nat := 50

  function DisplayPrice(s: ServiceType): nat {
    match s
    case Optimization => 99
    case Repair => 149
  }

  /** `service.price + (booking.isRush ? 50 : 0)`. */
  function DisplayTotal(s: ServiceType, isRush: bool): nat {
    DisplayPrice(s) + if isRush then DisplayRushSurcharge else 0
  }

  /** The four totals the display screens can show. */
  lemma DisplayTotalTable()
    ensures DisplayTotal(Optimization, false) == 99
    ensures DisplayTotal(Optimization, true) == 149
    ensures DisplayTotal(Repair, false) == 149
    ensures DisplayTotal(Repair, true) == 199
  {
  }

  /** The totals of a list of bookings, one per booking, in list order. */
  function DisplayTotals(bookings: seq<Booking>): (totals: seq<nat>)
    ensures |totals| == |bookings|
    ensures forall i :: 0 <= i < |bookings| ==>
              totals[i] == DisplayPrice(bookings[i].serviceType) + (if bookings[i].isRush then 50 else 0)
  {
    seq(|bookings|, i requires 0 <= i < |bookings| => DisplayTotal(bookings[i].serviceType, bookings[i].isRush))
  }
}
