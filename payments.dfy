/**
 * The payment handler: `GET` filters the stored payments by booking and sorts
 * them newest first on the payment date, in place on the stored list when no
 * filter applies; `POST` marks a body completed, stamps it and appends it.
 */
module Payments {
  import opened Http
  import opened Json
  import opened Records
  import opened Seqs
  import opened Text

  /** The payment belongs to the booking the `booking_id` parameter names, if it names one. */
  predicate Matches(p: Object, bookingId: Option<string>)
  {
    Given(bookingId) ==> FieldIs(p, "booking_id", Str(bookingId.value))
  }

  function FilterPayments(payments: seq<Object>, bookingId: Option<string>): seq<Object>
  {
    FilterIf(payments, Given(bookingId), FieldTest("booking_id", bookingId.GetOr("")))
  }

  /** The list `GET` answers with: the booking's payments, newest first. */
  function Search(payments: seq<Object>, bookingId: Option<string>): (r: seq<Object>)
    ensures multiset(r) <= multiset(payments)
    ensures forall x <- r :: Matches(x, bookingId)
    ensures forall x <- payments :: Matches(x, bookingId) ==> multiset(r)[x] == multiset(payments)[x]
    ensures forall i, j :: 0 <= i < j < |r| ==> DateOf(r[i], "payment_date") >= DateOf(r[j], "payment_date")
  {
    var filtered := FilterPayments(payments, bookingId);
    assert forall x <- filtered :: Matches(x, bookingId) by {
      forall x <- filtered
        ensures Matches(x, bookingId)
      {
        assert x in multiset(filtered);
      }
    }
    var r := NewestFirst(filtered, "payment_date");
    assert forall x <- r :: x in multiset(filtered);
    r
  }

  /** `{ id: "pay-<now>", ...body, payment_date: now, status: "completed" }` */
  function NewPayment(body: Object, now: nat): (r: Object)
    ensures r.Keys == body.Keys + {"id", "payment_date", "status"}
    ensures r["payment_date"] == Date(now) && r["status"] == Str("completed")
    ensures r["id"] == if "id" in body then body["id"] else Str("pay-" + Decimal(now))
    ensures forall k <- body :: k != "payment_date" && k != "status" ==> r[k] == body[k]
  {
    Spread(
      map["id" := Str("pay-" + Decimal(now))],
      body,
      map["payment_date" := Date(now), "status" := Str("completed")])
  }

  /** Every payment a `POST` creates is completed and dated now, so it heads a later unfiltered `GET`. */
  lemma NewPaymentIsNewest(payments: seq<Object>, body: Object, now: nat)
    requires forall p <- payments :: DateOf(p, "payment_date") <= now
    ensures var r := Search(payments + [NewPayment(body, now)], None);
      DateOf(r[0], "payment_date") == now
  {
    var p := NewPayment(body, now);
    var all := payments + [p];
    assert DateOf(p, "payment_date") == now;
    forall x <- all
      ensures DateOf(x, "payment_date") <= now
    {
      if x != p {
        assert x in payments;
      }
    }
    assert all[|payments|] == p;
    NewestHeadsSorted(all, Search(all, None), p, now);
  }

  /**
   * A list sorted newest first, drawn from payments none of which is later
   * than `now`, that holds one dated `now` starts with one dated `now`.
   */
  lemma NewestHeadsSorted(all: seq<Object>, r: seq<Object>, p: Object, now: nat)
    requires multiset(r) <= multiset(all) && p in multiset(r) && DateOf(p, "payment_date") == now
    requires forall x <- all :: DateOf(x, "payment_date") <= now
    requires forall i, j :: 0 <= i < j < |r| ==> DateOf(r[i], "payment_date") >= DateOf(r[j], "payment_date")
    ensures DateOf(r[0], "payment_date") == now
  {
    var k :| 0 <= k < |r| && r[k] == p;
    assert r[0] in multiset(all);
  }

  /** The module-level payment list. */
  class PaymentStore {
    var payments: seq<Object>

    constructor (seed: seq<Object>)
      ensures payments == seed
    {
      payments := seed;
    }

    /** `GET`: answers the list newest first; sorts the store itself when no booking is named. */
    method Get(bookingId: Option<string>) returns (r: Response<seq<Object>>)
      modifies this
      ensures r == Ok(200, Search(old(payments), bookingId))
      ensures payments == if Given(bookingId) then old(payments) else r.body
      ensures multiset(payments) == multiset(old(payments))
    {
      var answer := Search(payments, bookingId);
      if !Given(bookingId) {
        payments := answer;
      }
      r := Ok(200, answer);
    }

    /** `POST`: appends the new payment and answers it. */
    method Post(body: Object, now: nat) returns (r: Response<Object>)
      modifies this
      ensures r == Ok(200, NewPayment(body, now))
      ensures payments == old(payments) + [r.body]
    {
      var payment := NewPayment(body, now);
      payments := payments + [payment];
      r := Ok(200, payment);
    }
  }
}
