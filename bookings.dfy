/**
 * The booking handler: a module-level list of bookings that `GET` returns
 * whole and `POST` appends to, naming each new booking `BK` followed by the
 * list's new length padded to three digits.
 */
module Bookings {
  import opened Http
  import opened Json
  import opened Text

  /** `BK${String(n).padStart(3, "0")}` */
  function BookingId(n: nat): string
  {
    "BK" + PadStart(Decimal(n), 3, '0')
  }

  /** A booking id is `BK` and at least three digits that read back as the number. */
  lemma BookingIdFormat(n: nat)
    ensures |BookingId(n)| >= 5 && BookingId(n)[..2] == "BK"
    ensures AllDigits(BookingId(n)[2..]) && NumeralValue(BookingId(n)[2..]) == n
  {
    var digits := PadStart(Decimal(n), 3, '0');
    PaddedDecimalValue(n, 3);
    assert BookingId(n)[2..] == digits;
  }

  /** The numbers behind two booking ids are equal when the ids are. */
  lemma BookingIdInjective(m: nat, n: nat)
    requires BookingId(m) == BookingId(n)
    ensures m == n
  {
    BookingIdFormat(m);
    BookingIdFormat(n);
  }

  /** Different numbers give different booking ids. */
  lemma BookingIdsDiffer(m: nat, n: nat)
    requires m != n
    ensures BookingId(m) != BookingId(n)
  {
    if BookingId(m) == BookingId(n) {
      BookingIdInjective(m, n);
    }
  }

  /** Below 10 the id is `BK00` and one digit. */
  lemma OneDigitBookingId(n: nat)
    requires n < 10
    ensures BookingId(n) == "BK00" + [DigitChar(n)]
  {
    assert Decimal(n) == [DigitChar(n)];
    assert Repeat('0', 2) == "00";
  }

  /**
   * `{ id, ...body, createdAt, status: "pending" }` for a given generated id:
   * a body id replaces the generated one, while the timestamp and the status
   * are always the handler's.
   */
  function Pending(id: Json, body: Object, now: nat): (r: Object)
    ensures r.Keys == body.Keys + {"id", "createdAt", "status"}
    ensures r["status"] == Str("pending")
    ensures r["createdAt"] == Date(now)
    ensures r["id"] == if "id" in body then body["id"] else id
    ensures forall k <- body :: k != "createdAt" && k != "status" ==> r[k] == body[k]
  {
    Spread(map["id" := id], body, map["createdAt" := Date(now), "status" := Str("pending")])
  }

  /** The new booking when the list holds `n` bookings: its generated id is `BookingId(n + 1)`. */
  function NewBooking(n: nat, body: Object, now: nat): (r: Object)
    ensures r.Keys == body.Keys + {"id", "createdAt", "status"}
    ensures r["status"] == Str("pending")
    ensures r["createdAt"] == Date(now)
    ensures r["id"] == if "id" in body then body["id"] else Str(BookingId(n + 1))
    ensures forall k <- body :: k != "createdAt" && k != "status" ==> r[k] == body[k]
  {
    Pending(Str(BookingId(n + 1)), body, now)
  }

  /** The `i`-th booking (from 0) is named `BK` and `i + 1`, padded. */
  predicate SequentialIds(bookings: seq<Object>)
  {
    forall i :: 0 <= i < |bookings| ==> FieldIs(bookings[i], "id", Str(BookingId(i + 1)))
  }

  /** Two sequentially named bookings at different positions have different ids. */
  lemma TwoIdsDiffer(bookings: seq<Object>, i: nat, j: nat)
    requires SequentialIds(bookings)
    requires i < j < |bookings|
    ensures bookings[i]["id"] != bookings[j]["id"]
  {
    assert bookings[i]["id"] == Str(BookingId(i + 1));
    assert bookings[j]["id"] == Str(BookingId(j + 1));
    BookingIdsDiffer(i + 1, j + 1);
  }

  /** Sequentially named bookings have pairwise distinct ids. */
  lemma SequentialIdsAreDistinct(bookings: seq<Object>)
    requires SequentialIds(bookings)
    ensures forall i, j :: 0 <= i < j < |bookings| ==> bookings[i]["id"] != bookings[j]["id"]
  {
    forall i, j | 0 <= i < j < |bookings|
      ensures bookings[i]["id"] != bookings[j]["id"]
    {
      TwoIdsDiffer(bookings, i, j);
    }
  }

  /** Appending a booking whose body names no id keeps the naming sequential. */
  lemma PostKeepsSequentialIds(bookings: seq<Object>, body: Object, now: nat)
    requires SequentialIds(bookings)
    requires "id" !in body
    ensures SequentialIds(bookings + [NewBooking(|bookings|, body, now)])
  {
    var after := bookings + [NewBooking(|bookings|, body, now)];
    forall i | 0 <= i < |after|
      ensures FieldIs(after[i], "id", Str(BookingId(i + 1)))
    {
      if i < |bookings| {
        assert after[i] == bookings[i];
      }
    }
  }

  /** A body that names an existing booking's id makes two bookings share it. */
  lemma BodyIdCanDuplicate(bookings: seq<Object>, body: Object, now: nat, i: nat)
    requires i < |bookings| && "id" in bookings[i]
    requires "id" in body && body["id"] == bookings[i]["id"]
    ensures var after := bookings + [NewBooking(|bookings|, body, now)];
      after[i]["id"] == after[|bookings|]["id"]
  {
  }

  /** The top-level fields of a seed booking; the nested ticket, agent and passenger details are not kept. */
  datatype SeedRow = SeedRow(
    id: string, status: string, createdAt: nat, sellingPrice: int,
    paymentType: string, paymentMethod: string, partialAmount: Option<int>)

  /** A seed row as the stored JSON record. */
  function SeedBooking(row: SeedRow): (r: Object)
    ensures "id" in r && r["id"] == Str(row.id)
  {
    var partial := if row.partialAmount.Some? then map["partialAmount" := Num(row.partialAmount.value)] else map[];
    partial + map[
      "sellingPrice" := Num(row.sellingPrice),
      "paymentType" := Str(row.paymentType),
      "paymentMethod" := Str(row.paymentMethod),
      "status" := Str(row.status),
      "createdAt" := Date(row.createdAt),
      "createdBy" := Str("staff"),
      "id" := Str(row.id)]
  }

  /** Midnight UTC on 15 January 2024, in milliseconds. */
  const Jan15: nat := 1705276800000
  const Day: nat := 86400000

  /** The five bookings the list starts with. */
  const SeedRows: seq<SeedRow> := [
    SeedRow("BK001", "confirmed", Jan15, 45000, "full", "cash", None),
    SeedRow("BK002", "pending", Jan15 + Day, 52000, "partial", "bank_transfer", Some(30000)),
    SeedRow("BK003", "confirmed", Jan15 + 2 * Day, 48000, "full", "cash", None),
    SeedRow("BK004", "locked", Jan15 + 3 * Day, 42000, "partial", "mobile_banking", Some(25000)),
    SeedRow("BK005", "pending", Jan15 + 4 * Day, 65000, "full", "bank_transfer", None)]

  function Seed(): (s: seq<Object>)
    ensures |s| == |SeedRows| && forall i :: 0 <= i < |s| ==> s[i] == SeedBooking(SeedRows[i])
  {
    seq(|SeedRows|, i requires 0 <= i < |SeedRows| => SeedBooking(SeedRows[i]))
  }

  /** The first five booking ids. */
  lemma FirstBookingIds()
    ensures BookingId(1) == "BK001" && BookingId(2) == "BK002" && BookingId(3) == "BK003"
    ensures BookingId(4) == "BK004" && BookingId(5) == "BK005"
  {
    OneDigitBookingId(1);
    OneDigitBookingId(2);
    OneDigitBookingId(3);
    OneDigitBookingId(4);
    OneDigitBookingId(5);
  }

  /** The seed is named BK001 to BK005 in order. */
  lemma SeedIdsAreSequential()
    ensures SequentialIds(Seed())
  {
    FirstBookingIds();
    assert forall i :: 0 <= i < |SeedRows| ==> SeedRows[i].id == BookingId(i + 1);
  }

  /** The reply `{ success, booking }`. */
  datatype Created = Created(success: bool, booking: Object)

  /** The module-level booking list. */
  class BookingStore {
    var bookings: seq<Object>

    constructor ()
      ensures bookings == Seed()
      ensures SequentialIds(bookings)
    {
      bookings := Seed();
      SeedIdsAreSequential();
    }

    /** `GET`: `{ bookings }`, the whole list. */
    function Get(): (r: Response<seq<Object>>)
      reads this
      ensures r.Ok? && r.status == 200 && r.body == bookings
    {
      Ok(200, bookings)
    }

    /** `POST`: names, stamps and appends one booking and answers 201 with it. */
    method Post(body: Object, now: nat) returns (r: Response<Created>)
      modifies this
      ensures r == Ok(201, Created(true, NewBooking(|old(bookings)|, body, now)))
      ensures bookings == old(bookings) + [r.body.booking]
      ensures SequentialIds(old(bookings)) && "id" !in body ==> SequentialIds(bookings)
    {
      var booking := NewBooking(|bookings|, body, now);
      if SequentialIds(bookings) && "id" !in body {
        PostKeepsSequentialIds(bookings, body, now);
      }
      bookings := bookings + [booking];
      r := Ok(201, Created(true, booking));
    }
  }
}
