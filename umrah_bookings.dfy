/**
 * The Umrah booking handler: `GET` filters the stored bookings by status and
 * package and sorts newest first, in place on the stored list when no filter
 * applies; `POST` gives a body an id and a `UMH-` reference and appends it.
 */
module UmrahBookings {
  import opened Http
  import opened Json
  import opened Records
  import opened Seqs
  import opened Sorting
  import opened Text

  /** The `status` and `package_id` query parameters. */
  datatype BookingQuery = BookingQuery(status: Option<string>, packageId: Option<string>)

  /** The booking passes the filters the query turns on. */
  predicate Matches(b: Object, q: BookingQuery)
  {
    && (Selects(q.status) ==> FieldIs(b, "status", Str(q.status.value)))
    && (Given(q.packageId) ==> FieldIs(b, "package_id", Str(q.packageId.value)))
  }

  /** No filter applies, so the handler's list is the stored array itself. */
  predicate Unfiltered(q: BookingQuery)
  {
    !Selects(q.status) && !Given(q.packageId)
  }

  function FilterBookings(bookings: seq<Object>, q: BookingQuery): seq<Object>
  {
    var byStatus := FilterIf(bookings, Selects(q.status), FieldTest("status", q.status.GetOr("")));
    FilterIf(byStatus, Given(q.packageId), FieldTest("package_id", q.packageId.GetOr("")))
  }

  /** The filters keep exactly the matching bookings, each as often as it is stored. */
  lemma FilterBookingsKeepsMatches(bookings: seq<Object>, q: BookingQuery)
    ensures multiset(FilterBookings(bookings, q)) <= multiset(bookings)
    ensures forall x <- FilterBookings(bookings, q) :: Matches(x, q)
    ensures forall x <- bookings :: Matches(x, q) ==> multiset(FilterBookings(bookings, q))[x] == multiset(bookings)[x]
  {
    FilterIfTwice(bookings, Selects(q.status), FieldTest("status", q.status.GetOr("")),
      Given(q.packageId), FieldTest("package_id", q.packageId.GetOr("")));
  }

  /** The list `GET` answers with: the matching bookings, newest first. */
  function Search(bookings: seq<Object>, q: BookingQuery): (r: seq<Object>)
    ensures multiset(r) <= multiset(bookings)
    ensures forall x <- r :: Matches(x, q)
    ensures forall x <- bookings :: Matches(x, q) ==> multiset(r)[x] == multiset(bookings)[x]
    ensures forall i, j :: 0 <= i < j < |r| ==> DateOf(r[i], "created_at") >= DateOf(r[j], "created_at")
  {
    var filtered := FilterBookings(bookings, q);
    FilterBookingsKeepsMatches(bookings, q);
    var r := NewestFirst(filtered, "created_at");
    assert forall x <- r :: x in multiset(filtered);
    r
  }

  /** With no filter, `GET` answers every stored booking, newest first. */
  lemma UnfilteredSearchSortsAll(bookings: seq<Object>, q: BookingQuery)
    requires Unfiltered(q)
    ensures Search(bookings, q) == NewestFirst(bookings, "created_at")
  {
  }

  /**
   * The new booking `{ id, booking_reference, ...body, created_at }`, which is
   * the stamped record of the body laid over the generated reference.
   */
  function NewBooking(body: Object, now: nat): (r: Object)
    ensures r.Keys == body.Keys + {"id", "booking_reference", "created_at"}
    ensures r["created_at"] == Date(now)
    ensures r["id"] == if "id" in body then body["id"] else Str("ub-" + Decimal(now))
    ensures r["booking_reference"] ==
      if "booking_reference" in body then body["booking_reference"] else Str(Reference(now))
    ensures forall k <- body :: k != "created_at" ==> r[k] == body[k]
  {
    var withReference := map["booking_reference" := Str(Reference(now))] + body;
    assert withReference["booking_reference"] ==
      if "booking_reference" in body then body["booking_reference"] else Str(Reference(now));
    Stamped("ub-", withReference, now)
  }

  /** `UMH-${Date.now().toString().slice(-6)}` */
  function Reference(now: nat): (s: string)
    ensures 5 <= |s| <= 10 && s[..4] == "UMH-"
    ensures s[4..] == TakeLast(Decimal(now), 6)
  {
    "UMH-" + TakeLast(Decimal(now), 6)
  }

  /** From the millisecond 100000 on, the reference ends in exactly six digits of the clock. */
  lemma ReferenceHasSixDigits(now: nat)
    requires now >= 100000
    ensures |Reference(now)| == 10
    ensures AllDigits(Reference(now)[4..])
  {
    assert Power10(5) == 100000;
    DecimalLengthAtLeast(now, 6);
  }

  /** The module-level Umrah booking list. */
  class UmrahBookingStore {
    var bookings: seq<Object>

    constructor (seed: seq<Object>)
      ensures bookings == seed
    {
      bookings := seed;
    }

    /** `GET`: answers the filtered list newest first; sorts the store itself when unfiltered. */
    method Get(q: BookingQuery) returns (r: Response<seq<Object>>)
      modifies this
      ensures r == Ok(200, Search(old(bookings), q))
      ensures bookings == if Unfiltered(q) then r.body else old(bookings)
      ensures multiset(bookings) == multiset(old(bookings))
    {
      var answer := Search(bookings, q);
      if Unfiltered(q) {
        bookings := answer;
      }
      r := Ok(200, answer);
    }

    /** `POST`: appends the new booking and answers it. */
    method Post(body: Object, now: nat) returns (r: Response<Object>)
      modifies this
      ensures r == Ok(200, NewBooking(body, now))
      ensures bookings == old(bookings) + [r.body]
    {
      var booking := NewBooking(body, now);
      bookings := bookings + [booking];
      r := Ok(200, booking);
    }
  }
}
