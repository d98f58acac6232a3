/**
 * The bulk ticket handler: one request naming a flight, its prices and a
 * quantity becomes `quantity` single-seat tickets, after a check that every
 * required field is present and truthy.
 */
module BulkTickets {
  import opened Http
  import opened Json
  import opened Text

  /** The fields the handler rejects a request without. */
  const RequiredFields: set<string> := {
    "airline_id", "country_id", "flight_number", "origin", "destination",
    "departure_date", "departure_time", "buying_price", "selling_price", "quantity"}

  /** The fields every generated ticket copies from the request as they are. */
  const CopiedFields: set<string> := {
    "airline_id", "country_id", "flight_number", "origin", "destination",
    "departure_date", "departure_time"}

  /** JavaScript truthiness: `null`, `false`, `0` and `""` are falsy. */
  predicate Truthy(v: Json)
    ensures Truthy(v) <==> v != Null && v != Bool(false) && v != Num(0) && v != Str("")
  {
    match v
    case Null => false
    case Bool(b) => b
    case Num(n) => n != 0
    case Str(s) => s != ""
    case Date(_) => true
    case Arr(_) => true
    case Obj(_) => true
  }

  /** `body.key` is present and truthy; a missing key reads as `undefined`. */
  predicate Supplied(body: Object, key: string)
  {
    key in body && Truthy(body[key])
  }

  /** `body.key || fallback` */
  function OrElse(body: Object, key: string, fallback: Json): Json
  {
    if Supplied(body, key) then body[key] else fallback
  }

  /**
   * `Number(v)` on integers, booleans, `null` and plain digit strings; any
   * other value is `NaN`, which JSON writes as `null`.
   */
  function ToNumber(v: Json): (r: Json)
    ensures r.Null? || r.Num?
    ensures v.Num? ==> r == v
  {
    match v
    case Null => Num(0)
    case Bool(b) => Num(if b then 1 else 0)
    case Num(n) => Num(n)
    case Str(s) => if AllDigits(s) then Num(NumeralValue(s)) else Null
    case Date(_) => Null
    case Arr(_) => Null
    case Obj(_) => Null
  }

  /** The `length` that `Array.from({ length: v })` builds: `NaN` and negatives give 0. */
  function ArrayLength(v: Json): (n: nat)
    ensures v.Num? && v.n > 0 ==> n == v.n
    ensures v.Num? && v.n <= 0 ==> n == 0
  {
    var num := ToNumber(v);
    if num.Num? && num.n > 0 then num.n else 0
  }

  /** `ticket-<stamp>-<i>` */
  function TicketId(stamp: nat, i: nat): string
  {
    "ticket-" + Decimal(stamp) + "-" + Decimal(i)
  }

  /**
   * One generated ticket. The values copied from the request keep whatever
   * JSON type the request gave them.
   */
  datatype BulkTicket = BulkTicket(
    id: string,
    airlineId: Json,
    countryId: Json,
    flightNumber: Json,
    origin: Json,
    destination: Json,
    departureDate: Json,
    departureTime: Json,
    arrivalTime: Json,
    buyingPrice: Json,
    sellingPrice: Json,
    totalSeats: int,
    availableSeats: int,
    batchNumber: Json,
    status: string,
    notes: Json,
    createdBy: Json,
    createdAt: nat)

  /** The `i`-th ticket, built while the clock reads `stamp`. */
  function NewTicket(body: Object, stamp: nat, i: nat): (t: BulkTicket)
    requires forall k <- RequiredFields :: k in body
    ensures t.id == TicketId(stamp, i) && t.createdAt == stamp
    ensures t.totalSeats == 1 && t.availableSeats == 1 && t.status == "available"
    ensures && t.airlineId == body["airline_id"] && t.countryId == body["country_id"]
      && t.flightNumber == body["flight_number"]
      && t.origin == body["origin"] && t.destination == body["destination"]
      && t.departureDate == body["departure_date"] && t.departureTime == body["departure_time"]
    ensures t.buyingPrice == ToNumber(body["buying_price"]) && t.sellingPrice == ToNumber(body["selling_price"])
    ensures && t.arrivalTime == (if Supplied(body, "arrival_time") then body["arrival_time"] else Null)
      && t.notes == (if Supplied(body, "notes") then body["notes"] else Str(""))
      && t.createdBy == (if Supplied(body, "created_by") then body["created_by"] else Str("admin"))
      && t.batchNumber == (if Supplied(body, "batch_number") then body["batch_number"] else Str("BATCH-" + Decimal(stamp)))
  {
    BulkTicket(
      TicketId(stamp, i),
      body["airline_id"],
      body["country_id"],
      body["flight_number"],
      body["origin"],
      body["destination"],
      body["departure_date"],
      body["departure_time"],
      OrElse(body, "arrival_time", Null),
      ToNumber(body["buying_price"]),
      ToNumber(body["selling_price"]),
      1,
      1,
      OrElse(body, "batch_number", Str("BATCH-" + Decimal(stamp))),
      "available",
      OrElse(body, "notes", Str("")),
      OrElse(body, "created_by", Str("admin")),
      stamp)
  }

  /** The reply `{ success, count, tickets }`. */
  datatype BulkReply = BulkReply(success: bool, count: nat, tickets: seq<BulkTicket>)

  /**
   * `POST /api/tickets/bulk`. The clock is read anew for every ticket, so
   * `clock(i)` is its reading while the `i`-th ticket is built.
   */
  function Post(body: Object, clock: nat -> nat): (r: Response<BulkReply>)
    ensures r.Error? <==> exists k <- RequiredFields :: !Supplied(body, k)
    ensures r.Error? ==> r.status == 400 && r.message == "Missing required fields"
    ensures r.Ok? ==>
      && r.status == 200 && r.body.success
      && r.body.count == |r.body.tickets| == ArrayLength(body["quantity"])
    ensures r.Ok? ==> forall i :: 0 <= i < |r.body.tickets| ==> r.body.tickets[i] == NewTicket(body, clock(i), i)
  {
    if exists k <- RequiredFields :: !Supplied(body, k) then
      Error(400, "Missing required fields")
    else
      var n := ArrayLength(body["quantity"]);
      var tickets := seq(n, i requires 0 <= i < n => NewTicket(body, clock(i), i));
      assert forall i :: 0 <= i < n ==> tickets[i] == NewTicket(body, clock(i), i);
      Ok(200, BulkReply(true, |tickets|, tickets))
  }

  /** A positive integer quantity yields exactly that many tickets. */
  lemma PositiveQuantityCount(body: Object, clock: nat -> nat)
    requires forall k <- RequiredFields :: Supplied(body, k)
    requires "quantity" in body && body["quantity"].Num? && body["quantity"].n > 0
    ensures Post(body, clock).Ok?
    ensures Post(body, clock).body.count == body["quantity"].n
  {
  }

  /** A negative quantity is truthy, so it passes the check and yields no tickets. */
  lemma NegativeQuantityYieldsNothing(body: Object, clock: nat -> nat)
    requires forall k <- RequiredFields :: Supplied(body, k)
    requires "quantity" in body && body["quantity"].Num? && body["quantity"].n < 0
    ensures Post(body, clock).Ok?
    ensures Post(body, clock).body.tickets == []
  {
  }

  /** A zero price or quantity is falsy, so the request is refused. */
  lemma ZeroIsMissing(body: Object, clock: nat -> nat, k: string)
    requires k in RequiredFields
    requires k in body && body[k] == Num(0)
    ensures Post(body, clock) == Error(400, "Missing required fields")
  {
  }

  /** A numeral holds no `-`. */
  lemma NoDashInDecimal(n: nat)
    ensures '-' !in Decimal(n)
  {
    var s := Decimal(n);
    forall k | 0 <= k < |s|
      ensures s[k] != '-'
    {
      assert IsDigit(s[k]);
    }
  }

  /** Two tickets of one request never share an id, whatever the clock reads. */
  lemma TicketIdsDistinct(stamp1: nat, i: nat, stamp2: nat, j: nat)
    requires i != j
    ensures TicketId(stamp1, i) != TicketId(stamp2, j)
  {
    if TicketId(stamp1, i) == TicketId(stamp2, j) {
      NoDashInDecimal(i);
      NoDashInDecimal(j);
      SameTailAfterSeparator("ticket-" + Decimal(stamp1), Decimal(i), "ticket-" + Decimal(stamp2), Decimal(j), '-');
      DecimalInjective(i, j);
    }
  }

  /** The tickets of one successful request have pairwise distinct ids. */
  lemma BulkIdsDistinct(body: Object, clock: nat -> nat)
    requires Post(body, clock).Ok?
    ensures var ts := Post(body, clock).body.tickets;
      forall i, j :: 0 <= i < j < |ts| ==> ts[i].id != ts[j].id
  {
    var ts := Post(body, clock).body.tickets;
    forall i, j | 0 <= i < j < |ts|
      ensures ts[i].id != ts[j].id
    {
      TicketIdsDistinct(clock(i), i, clock(j), j);
    }
  }
}
