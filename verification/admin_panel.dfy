/** The admin panel's booking list: loading it (normalised and sorted by
    date and time), deleting one booking, and the create-admin form. */
module AdminList {
  import opened Records

  /** Ascending by `key`, the instant of `${date} ${time}`. */
  predicate SortedBy(s: seq<Booking>, key: Booking -> int) {
    forall i, j :: 0 <= i < j < |s| ==> key(s[i]) <= key(s[j])
  }

  /** Puts `b` before the first element whose key is not smaller. The
      result is one longer, holds exactly the old bookings and `b`, and
      starts with `b` or with the former first element. */
  function Insert(b: Booking, s: seq<Booking>, key: Booking -> int): (r: seq<Booking>)
    ensures |r| == |s| + 1
    ensures multiset(r) == multiset(s) + multiset{b}
    ensures r[0] == b || (s != [] && r[0] == s[0])
  {
    if s == [] || key(b) <= key(s[0]) then [b] + s
    else
      assert s == [s[0]] + s[1..];
      [s[0]] + Insert(b, s[1..], key)
  }

  /** The list sorted ascending by `key` (insertion sort); it holds exactly
      the bookings of the input, each as often as there. */
  function SortByKey(s: seq<Booking>, key: Booking -> int): (r: seq<Booking>)
    ensures |r| == |s|
    ensures multiset(r) == multiset(s)
  {
    if s == [] then []
    else
      assert s == [s[0]] + s[1..];
      Insert(s[0], SortByKey(s[1..], key), key)
  }

  /** Inserting into a sorted list keeps it sorted. */
  lemma {:induction false} InsertSorted(b: Booking, s: seq<Booking>, key: Booking -> int)
    requires SortedBy(s, key)
    ensures SortedBy(Insert(b, s, key), key)
  {
    if s == [] || key(b) <= key(s[0]) {
      var r := [b] + s;
      forall i, j | 0 <= i < j < |r| ensures key(r[i]) <= key(r[j]) {
        if i == 0 && j > 1 {
          assert r[j] == s[j - 1];
        }
      }
    } else {
      var rest := Insert(b, s[1..], key);
      assert SortedBy(s[1..], key);
      InsertSorted(b, s[1..], key);
      assert key(s[0]) <= key(rest[0]) by {
        if rest[0] != b {
          assert rest[0] == s[1];
        }
      }
      var r := [s[0]] + rest;
      forall i, j | 0 <= i < j < |r| ensures key(r[i]) <= key(r[j]) {
        if i == 0 {
          assert r[j] == rest[j - 1];
          if j > 1 {
            assert key(rest[0]) <= key(rest[j - 1]);
          }
        } else {
          assert r[i] == rest[i - 1] && r[j] == rest[j - 1];
        }
      }
    }
  }

  /** The sorted list is ordered ascending and holds exactly the bookings of
      the input, each as often as there. */
  lemma {:induction false} SortByKeySorted(s: seq<Booking>, key: Booking -> int)
    ensures SortedBy(SortByKey(s, key), key)
    ensures multiset(SortByKey(s, key)) == multiset(s)
  {
    if s != [] {
      SortByKeySorted(s[1..], key);
      InsertSorted(s[0], SortByKey(s[1..], key), key);
    }
  }

  /** `bookings.filter((b) => b.id !== id)`. */
  function WithoutId(s: seq<Booking>, id: string): (r: seq<Booking>)
    ensures forall b :: b in r <==> b in s && b.id != id
  {
    if s == [] then []
    else (if s[0].id != id then [s[0]] else []) + WithoutId(s[1..], id)
  }

  /** Exactly the bookings with the id go: every other booking stays as
      often as it was there. */
  lemma {:induction false} WithoutIdCount(s: seq<Booking>, id: string, x: Booking)
    ensures multiset(WithoutId(s, id))[x] == if x.id == id then 0 else multiset(s)[x]
  {
    if s != [] {
      WithoutIdCount(s[1..], id, x);
      assert s == [s[0]] + s[1..];
    }
  }

  /** Removing by id keeps the order of what remains: it works piece by
      piece on a concatenation. */
  lemma {:induction false} WithoutIdConcat(a: seq<Booking>, b: seq<Booking>, id: string)
    ensures WithoutId(a + b, id) == WithoutId(a, id) + WithoutId(b, id)
  {
    if a != [] {
      var head := if a[0].id != id then [a[0]] else [];
      assert (a + b)[0] == a[0] && (a + b)[1..] == a[1..] + b;
      calc {
        WithoutId(a + b, id);
        head + WithoutId(a[1..] + b, id);
        { WithoutIdConcat(a[1..], b, id); }
        head + (WithoutId(a[1..], id) + WithoutId(b, id));
        (head + WithoutId(a[1..], id)) + WithoutId(b, id);
        WithoutId(a, id) + WithoutId(b, id);
      }
    } else {
      assert a + b == b;
    }
  }

  /** When no booking has the id, the list is unchanged. */
  lemma {:induction false} WithoutIdAbsent(s: seq<Booking>, id: string)
    requires forall b :: b in s ==> b.id != id
    ensures WithoutId(s, id) == s
  {
    if s != [] {
      WithoutIdAbsent(s[1..], id);
    }
  }

  /** The outcome of `DELETE /admin/bookings/{id}`. */
  datatype DeleteResponse = DeleteOk | DeleteNotOk | DeleteThrew

  /** The outcome of `POST /admin/users`: a non-ok status or a thrown error,
      or a JSON body. `CreateAdminBody(Some(m))` stands for a truthy
      `data.error` whose `message` is `m`; a `data.error` without a string
      `message` (a plain string, say) shows nothing, which is `Some("")`.
      `CreateAdminBody(None)` is a body whose `error` is falsy. */
  datatype CreateAdminResponse = CreateAdminFailed | CreateAdminBody(error: Option<string>)

  const CreateAdminFallbackMessage := "An error occurred while creating the admin."

  class AdminPanel {
    var bookings: seq<Booking>
    var isLoading: bool
    var showCreateAdmin: bool
    var newAdminEmail: string
    var newAdminPassword: string
    var newAdminName: string
    var createAdminError: string

    twostate predicate FormUnchanged()
      reads this
    {
      && showCreateAdmin == old(showCreateAdmin)
      && newAdminEmail == old(newAdminEmail) && newAdminPassword == old(newAdminPassword)
      && newAdminName == old(newAdminName) && createAdminError == old(createAdminError)
    }

    constructor ()
      ensures bookings == [] && !isLoading && !showCreateAdmin
      ensures newAdminEmail == "" && newAdminPassword == "" && newAdminName == "" && createAdminError == ""
    {
      bookings, isLoading, showCreateAdmin := [], false, false;
      newAdminEmail, newAdminPassword, newAdminName, createAdminError := "", "", "", "";
    }

    /** `fetchBookings`: a failed fetch or a non-array payload leaves an empty
        list; otherwise the list is the payload sorted ascending by the
        instant of each booking's date and time. Loading ends either way. */
    method FetchBookings(result: FetchResult, instantOf: Booking -> int)
      modifies this
      ensures !isLoading
      ensures SortedBy(bookings, instantOf)
      ensures multiset(bookings) == multiset(BookingsFromPayload(result))
      ensures bookings == SortByKey(BookingsFromPayload(result), instantOf)
      ensures FormUnchanged()
    {
      isLoading := true;
      var list := BookingsFromPayload(result);
      if |list| > 0 {
        bookings := SortByKey(list, instantOf);
        SortByKeySorted(list, instantOf);
      } else {
        bookings := [];
      }
      isLoading := false;
    }

    /** `deleteBooking(id)`: asks for confirmation, then sends the request;
        only an ok response removes, from the local list, exactly the
        bookings with that id. `requested` says whether a request was sent. */
    method DeleteBooking(id: string, confirmed: bool, response: DeleteResponse) returns (requested: bool)
      modifies this
      ensures requested == confirmed
      ensures confirmed && response == DeleteOk ==> bookings == WithoutId(old(bookings), id)
      ensures !(confirmed && response == DeleteOk) ==> bookings == old(bookings)
      ensures isLoading == old(isLoading) && FormUnchanged()
    {
      if !confirmed {
        return false;
      }
      requested := true;
      if response == DeleteOk {
        bookings := WithoutId(bookings, id);
      }
    }

    /** `createAdmin`: a clean body closes and clears the form; an error body
        shows its message and keeps the form; a failed request shows a fixed
        message. */
    method CreateAdmin(response: CreateAdminResponse)
      modifies this
      ensures response == CreateAdminBody(None) ==>
        && createAdminError == "" && !showCreateAdmin
        && newAdminEmail == "" && newAdminPassword == "" && newAdminName == ""
      ensures response.CreateAdminBody? && response.error.Some? ==>
        && createAdminError == response.error.value && showCreateAdmin == old(showCreateAdmin)
        && newAdminEmail == old(newAdminEmail) && newAdminPassword == old(newAdminPassword)
        && newAdminName == old(newAdminName)
      ensures response == CreateAdminFailed ==>
        && createAdminError == CreateAdminFallbackMessage && showCreateAdmin == old(showCreateAdmin)
        && newAdminEmail == old(newAdminEmail) && newAdminPassword == old(newAdminPassword)
        && newAdminName == old(newAdminName)
      ensures bookings == old(bookings) && isLoading == old(isLoading)
    {
      match response
      case CreateAdminFailed =>
        createAdminError := CreateAdminFallbackMessage;
      case CreateAdminBody(Some(message)) =>
        createAdminError := message;
      case CreateAdminBody(None) =>
        createAdminError, showCreateAdmin := "", false;
        newAdminEmail, newAdminPassword, newAdminName := "", "", "";
    }

    /** The "Create Admin" button shows or hides the form; nothing else
        changes. */
    method ToggleCreateAdminForm()
      modifies this`showCreateAdmin
      ensures showCreateAdmin == !old(showCreateAdmin)
    {
      showCreateAdmin := !showCreateAdmin;
    }

    /** The total on each row of the list, in list order. */
    function RowTotals(): (totals: seq<nat>)
      reads this
      ensures |totals| == |bookings|
      ensures forall i :: 0 <= i < |bookings| ==>
        totals[i] == (match bookings[i].serviceType case Optimization => 99 case Repair => 149)
                     + (if bookings[i].isRush then 50 else 0)
    {
      DisplayTotals(bookings)
    }
  }
}
