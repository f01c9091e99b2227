/** The admin calendar: the bookings of one day, the three-line preview in a
    day cell with its "+N more" count, and the details of the selected day.
    The list itself is the normalised payload (`BookingsFromPayload`). */
module BookingsCalendar {
  import opened Records

  /** How many bookings a day cell lists before "+N more". */
  const PreviewSize: nat := 3

  /** `getBookingsForDate`: the bookings whose `date` equals the day's
      `yyyy-MM-dd` text, in list order. */
  function BookingsForDate(bookings: seq<Booking>, day: DayKey): (r: seq<Booking>)
    ensures forall b :: b in r <==> b in bookings && b.date == day
    ensures |r| <= |bookings|
  {
    if bookings == [] then []
    else (if bookings[0].date == day then [bookings[0]] else []) + BookingsForDate(bookings[1..], day)
  }

  /** Filtering works piece by piece, so the day's bookings keep their
      relative order. */
  lemma {:induction false} BookingsForDateConcat(a: seq<Booking>, b: seq<Booking>, day: DayKey)
    ensures BookingsForDate(a + b, day) == BookingsForDate(a, day) + BookingsForDate(b, day)
  {
    if a == [] {
      assert a + b == b;
    } else {
      var head := if a[0].date == day then [a[0]] else [];
      assert (a + b)[0] == a[0] && (a + b)[1..] == a[1..] + b;
      calc {
        BookingsForDate(a + b, day);
        head + BookingsForDate(a[1..] + b, day);
        { BookingsForDateConcat(a[1..], b, day); }
        head + (BookingsForDate(a[1..], day) + BookingsForDate(b, day));
        (head + BookingsForDate(a[1..], day)) + BookingsForDate(b, day);
        BookingsForDate(a, day) + BookingsForDate(b, day);
      }
    }
  }

  /** Each booking is counted on its own day as often as it is listed. */
  lemma {:induction false} BookingsForDateCount(bookings: seq<Booking>, day: DayKey, x: Booking)
    ensures multiset(BookingsForDate(bookings, day))[x] == if x.date == day then multiset(bookings)[x] else 0
  {
    if bookings != [] {
      BookingsForDateCount(bookings[1..], day, x);
      assert bookings == [bookings[0]] + bookings[1..];
    }
  }

  /** `dayBookings.slice(0, 3)`: the first three, or all when fewer. */
  function Preview(dayBookings: seq<Booking>): (shown: seq<Booking>)
    ensures shown <= dayBookings
    ensures |shown| == if |dayBookings| <= PreviewSize then |dayBookings| else PreviewSize
  {
    if |dayBookings| <= PreviewSize then dayBookings else dayBookings[..PreviewSize]
  }

  /** The N of "+N more", present only when the day has more than three. */
  function MoreCount(dayBookings: seq<Booking>): (more: Option<nat>)
    ensures more.Some? <==> |dayBookings| > PreviewSize
    ensures more.Some? ==> more.value == |dayBookings| - PreviewSize
  {
    if |dayBookings| > PreviewSize then Some(|dayBookings| - PreviewSize) else None
  }

  /** The preview and the "+N more" count together account for every
      booking of the day, and a count is never zero. */
  lemma PreviewAccountsForDay(dayBookings: seq<Booking>)
    ensures |Preview(dayBookings)| + (if MoreCount(dayBookings).Some? then MoreCount(dayBookings).value else 0)
            == |dayBookings|
    ensures MoreCount(dayBookings).Some? ==> MoreCount(dayBookings).value >= 1
  {
  }

  /** `selectedDateBookings`: nothing while no day is selected, else that
      day's bookings. */
  function SelectedDateBookings(bookings: seq<Booking>, selected: Option<DayKey>): (r: seq<Booking>)
    ensures selected.None? ==> r == []
    ensures selected.Some? ==> forall b :: b in r <==> b in bookings && b.date == selected.value
    ensures selected.Some? ==> r == BookingsForDate(bookings, selected.value)
  {
    if selected.None? then [] else BookingsForDate(bookings, selected.value)
  }

  /** The total on each detail card of the selected day, in order. */
  function SelectedDayTotals(bookings: seq<Booking>, selected: Option<DayKey>): (totals: seq<nat>)
    ensures selected.None? ==> totals == []
    ensures |totals| == |SelectedDateBookings(bookings, selected)|
    ensures forall i :: 0 <= i < |totals| ==>
      var b := SelectedDateBookings(bookings, selected)[i];
      totals[i] == (match b.serviceType case Optimization => 99 case Repair => 149) + (if b.isRush then 50 else 0)
  {
    DisplayTotals(SelectedDateBookings(bookings, selected))
  }
}
