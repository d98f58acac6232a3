/**
 * The ticket list handler: a chain of optional filters over the stored
 * tickets followed by a sort on the departure date, and the ticket POST that
 * stamps a body without storing it.
 *
 * When no filter applies, the handler sorts the stored array itself (the
 * filtered list is still an alias of it), so the store is left reordered.
 */
module Tickets {
  import opened Http
  import opened Json
  import opened Seqs
  import opened Sorting
  import opened Text
  import opened Types

  datatype Country = Country(name: string, code: string, flag: string)

  datatype Airline = Airline(name: string, code: string, logoUrl: string)

  datatype FlightTicket = FlightTicket(
    id: string,
    flightNumber: string,
    airlineName: string,
    origin: string,
    destination: string,
    departureDate: nat,
    departureTime: string,
    arrivalTime: string,
    sellingPrice: int,
    buyingPrice: int,
    availableSeats: int,
    totalSeats: int,
    status: TicketStatus,
    destinationCountry: Country,
    originCountry: Country,
    airline: Airline)

  /** The `search`, `status` and `destination` query parameters. */
  datatype TicketQuery = TicketQuery(search: Option<string>, status: Option<string>, destination: Option<string>)

  /** The lowercased search text occurs in the flight number, destination or origin. */
  predicate MatchesSearch(t: FlightTicket, search: string)
  {
    var needle := ToLower(search);
    Includes(ToLower(t.flightNumber), needle)
    || Includes(ToLower(t.destination), needle)
    || Includes(ToLower(t.origin), needle)
  }

  predicate MatchesStatus(t: FlightTicket, status: string)
  {
    TicketStatusName(t.status) == status
  }

  predicate MatchesDestination(t: FlightTicket, code: string)
  {
    t.destinationCountry.code == code
  }

  /** `t` passes every filter the query turns on. */
  predicate Matches(t: FlightTicket, q: TicketQuery)
  {
    && (Given(q.search) ==> MatchesSearch(t, q.search.GetOr("")))
    && (Selects(q.status) ==> MatchesStatus(t, q.status.GetOr("")))
    && (Given(q.destination) ==> MatchesDestination(t, q.destination.GetOr("")))
  }

  /** No filter applies, so the handler's list is the stored array itself. */
  predicate Unfiltered(q: TicketQuery)
  {
    !Given(q.search) && !Selects(q.status) && !Given(q.destination)
  }

  function SearchTest(q: TicketQuery): FlightTicket -> bool
  {
    t => MatchesSearch(t, q.search.GetOr(""))
  }

  function StatusTest(q: TicketQuery): FlightTicket -> bool
  {
    t => MatchesStatus(t, q.status.GetOr(""))
  }

  function DestinationTest(q: TicketQuery): FlightTicket -> bool
  {
    t => MatchesDestination(t, q.destination.GetOr(""))
  }

  /** The filter chain, each step applied only when its parameter asks for it. */
  function FilterChain(tickets: seq<FlightTicket>, q: TicketQuery): seq<FlightTicket>
  {
    var bySearch := FilterIf(tickets, Given(q.search), SearchTest(q));
    var byStatus := FilterIf(bySearch, Selects(q.status), StatusTest(q));
    FilterIf(byStatus, Given(q.destination), DestinationTest(q))
  }

  function DepartureKey(t: FlightTicket): int
  {
    t.departureDate
  }

  /** The list `GET` answers with. */
  function Search(tickets: seq<FlightTicket>, q: TicketQuery): (r: seq<FlightTicket>)
    ensures multiset(r) <= multiset(tickets)
    ensures forall t <- r :: Matches(t, q)
    ensures forall t <- tickets :: Matches(t, q) ==> multiset(r)[t] == multiset(tickets)[t]
    ensures forall i, j :: 0 <= i < j < |r| ==> r[i].departureDate <= r[j].departureDate
  {
    var chained := FilterChain(tickets, q);
    ChainMatches(tickets, q);
    ChainComplete(tickets, q);
    var sorted := SortBy(chained, DepartureKey);
    assert forall t <- sorted :: t in multiset(chained);
    sorted
  }

  /** Every ticket the chain lets through passes every active filter. */
  lemma ChainMatches(tickets: seq<FlightTicket>, q: TicketQuery)
    ensures forall t <- FilterChain(tickets, q) :: Matches(t, q)
  {
    var bySearch := FilterIf(tickets, Given(q.search), SearchTest(q));
    var byStatus := FilterIf(bySearch, Selects(q.status), StatusTest(q));
    var chained := FilterIf(byStatus, Given(q.destination), DestinationTest(q));
    forall t <- chained
      ensures Matches(t, q)
    {
      assert Given(q.destination) ==> DestinationTest(q)(t);
      assert t in multiset(byStatus);
      assert Selects(q.status) ==> StatusTest(q)(t);
      assert t in multiset(bySearch);
      assert Given(q.search) ==> SearchTest(q)(t);
    }
  }

  /** Every stored ticket that passes every active filter survives the chain, with its multiplicity. */
  lemma ChainComplete(tickets: seq<FlightTicket>, q: TicketQuery)
    ensures forall t <- tickets :: Matches(t, q) ==>
      multiset(FilterChain(tickets, q))[t] == multiset(tickets)[t]
  {
    var bySearch := FilterIf(tickets, Given(q.search), SearchTest(q));
    var byStatus := FilterIf(bySearch, Selects(q.status), StatusTest(q));
    forall t <- tickets | Matches(t, q)
      ensures multiset(FilterChain(tickets, q))[t] == multiset(tickets)[t]
    {
      assert t in bySearch;
      assert t in byStatus;
    }
  }

  /** With no filter every stored ticket is answered, in departure order. */
  lemma UnfilteredSearchSortsAll(tickets: seq<FlightTicket>, q: TicketQuery)
    requires Unfiltered(q)
    ensures Search(tickets, q) == SortBy(tickets, DepartureKey)
  {
  }

  /** Tickets departing at the same moment keep their stored order. */
  lemma SearchIsStable(tickets: seq<FlightTicket>, q: TicketQuery, departure: nat)
    ensures KeyClass(Search(tickets, q), DepartureKey, departure)
         == KeyClass(FilterChain(tickets, q), DepartureKey, departure)
  {
    SortByIsStable(FilterChain(tickets, q), DepartureKey, departure);
  }

  /** The in-memory ticket table the handler reads. */
  class TicketStore {
    var tickets: seq<FlightTicket>

    constructor (seed: seq<FlightTicket>)
      ensures tickets == seed
    {
      tickets := seed;
    }

    /** `GET`: answers the filtered, sorted list; sorts the table itself when unfiltered. */
    method Get(q: TicketQuery) returns (r: Response<seq<FlightTicket>>)
      modifies this
      ensures r == Ok(200, Search(old(tickets), q))
      ensures tickets == if Unfiltered(q) then r.body else old(tickets)
      ensures multiset(tickets) == multiset(old(tickets))
    {
      var answer := Search(tickets, q);
      if Unfiltered(q) {
        tickets := answer;
      }
      r := Ok(200, answer);
    }
  }

  /** A second unfiltered `GET` finds the table already sorted and answers it unchanged. */
  lemma UnfilteredGetIsIdempotent(tickets: seq<FlightTicket>, q: TicketQuery)
    requires Unfiltered(q)
    ensures Search(Search(tickets, q), q) == Search(tickets, q)
  {
    SortByIdempotent(tickets, DepartureKey);
  }

  /** `POST`: `{ id: "ticket-<now>", ...body, created_at: now }`, answered and stored nowhere. */
  function Post(body: Object, now: nat): (r: Response<Object>)
    ensures r.Ok? && r.status == 200
    ensures r.body.Keys == body.Keys + {"id", "created_at"}
    ensures r.body["created_at"] == Date(now)
    ensures r.body["id"] == if "id" in body then body["id"] else Str("ticket-" + Decimal(now))
    ensures forall k <- body :: k != "created_at" ==> r.body[k] == body[k]
  {
    Ok(200, Stamped("ticket-", body, now))
  }
}
