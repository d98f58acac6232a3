/**
 * The report handler: a `type` parameter selects a sales, inventory or
 * profit summary over the sales bookings and the inventory, each built from
 * counts and integer sums.
 */
module Reports {
  import opened Http
  import opened Seqs
  import opened Types

  datatype SalesBooking = SalesBooking(
    id: string,
    flightNumber: string,
    airlineName: string,
    totalAmount: int,
    passengerName: string,
    passengerPhone: string,
    status: string,
    createdAt: nat,
    profit: int)

  datatype InventoryItem = InventoryItem(
    id: string,
    flightNumber: string,
    airlineName: string,
    status: TicketStatus,
    availableSeats: int,
    totalSeats: int,
    buyingPrice: int,
    sellingPrice: int)

  /** One row of the profit report: the booking with all its fields. */
  datatype ProfitRow = ProfitRow(booking: SalesBooking)

  datatype Report =
    | SalesReport(
        sales: seq<SalesBooking>,
        totalBookings: nat, totalRevenue: int, totalProfit: int)
    | InventoryReport(
        items: seq<InventoryItem>,
        available: nat, locked: nat, sold: nat, total: nat)
    | ProfitReport(
        rows: seq<ProfitRow>,
        profitTotal: int, totalCost: int, revenueTotal: int)

  function Amount(b: SalesBooking): int { b.totalAmount }

  function Profit(b: SalesBooking): int { b.profit }

  function Cost(t: InventoryItem): int { t.buyingPrice }

  /** `t => t.status === status` */
  function HasStatus(status: TicketStatus): InventoryItem -> bool
  {
    (t: InventoryItem) => t.status == status
  }

  /** `searchParams.get("type") || "sales"` */
  function ReportType(param: Option<string>): (t: string)
    ensures !Given(param) ==> t == "sales"
    ensures Given(param) ==> t == param.value
  {
    if Given(param) then param.value else "sales"
  }

  function SalesSummary(sales: seq<SalesBooking>): Report
  {
    SalesReport(sales, |sales|, Sum(sales, Amount), Sum(sales, Profit))
  }

  function InventorySummary(items: seq<InventoryItem>): Report
  {
    InventoryReport(
      items,
      Count(items, HasStatus(Available)),
      Count(items, HasStatus(Locked)),
      Count(items, HasStatus(Sold)),
      |items|)
  }

  function ProfitRows(sales: seq<SalesBooking>): (rows: seq<ProfitRow>)
    ensures |rows| == |sales|
    ensures forall i :: 0 <= i < |sales| ==> rows[i].booking == sales[i]
  {
    seq(|sales|, i requires 0 <= i < |sales| => ProfitRow(sales[i]))
  }

  function ProfitSummary(sales: seq<SalesBooking>, items: seq<InventoryItem>): Report
  {
    ProfitReport(ProfitRows(sales), Sum(sales, Profit), Sum(items, Cost), Sum(sales, Amount))
  }

  /** `GET /api/reports?type=...` */
  function Get(param: Option<string>, sales: seq<SalesBooking>, items: seq<InventoryItem>): (r: Response<Report>)
    ensures r.Ok? <==> ReportType(param) in {"sales", "inventory", "profit"}
    ensures r.Ok? ==> r.status == 200
    ensures r.Error? ==> r.status == 400 && r.message == "Invalid report type"
    ensures ReportType(param) == "sales" ==>
      && r.Ok? && r.body.SalesReport? && r.body.sales == sales && r.body.totalBookings == |sales|
      && r.body.totalRevenue == Sum(sales, Amount) && r.body.totalProfit == Sum(sales, Profit)
    ensures ReportType(param) == "inventory" ==>
      && r.Ok? && r.body.InventoryReport? && r.body.items == items
      && r.body.available == Count(items, HasStatus(Available))
      && r.body.locked == Count(items, HasStatus(Locked))
      && r.body.sold == Count(items, HasStatus(Sold))
      && r.body.available + r.body.locked + r.body.sold == r.body.total == |items|
    ensures ReportType(param) == "profit" ==>
      && r.Ok? && r.body.ProfitReport? && |r.body.rows| == |sales|
      && (forall i :: 0 <= i < |sales| ==> r.body.rows[i].booking == sales[i])
      && r.body.profitTotal == Sum(sales, Profit)
      && r.body.totalCost == Sum(items, Cost)
      && r.body.revenueTotal == Sum(sales, Amount)
  {
    var t := ReportType(param);
    if t == "sales" then Ok(200, SalesSummary(sales))
    else if t == "inventory" then
      InventoryCountsAddUp(items);
      Ok(200, InventorySummary(items))
    else if t == "profit" then Ok(200, ProfitSummary(sales, items))
    else Error(400, "Invalid report type")
  }

  /** Every inventory item is counted under exactly one status. */
  lemma StatusCountsCoverInventory(items: seq<InventoryItem>)
    ensures Count(items, HasStatus(Available)) + Count(items, HasStatus(Locked))
          + Count(items, HasStatus(Sold)) == |items|
  {
    CountThreeWaySplit(items, HasStatus(Available), HasStatus(Locked), HasStatus(Sold));
  }

  /** The inventory summary's three counts add up to its total. */
  lemma InventoryCountsAddUp(items: seq<InventoryItem>)
    ensures var s := InventorySummary(items);
      s.available + s.locked + s.sold == s.total && s.total == |items|
  {
    StatusCountsCoverInventory(items);
  }

  /** Booking one more sale adds its amount and profit to the sales totals. */
  lemma SalesTotalsGrow(sales: seq<SalesBooking>, b: SalesBooking)
    ensures var before := SalesSummary(sales);
      var after := SalesSummary(sales + [b]);
      && after.totalBookings == before.totalBookings + 1
      && after.totalRevenue == before.totalRevenue + b.totalAmount
      && after.totalProfit == before.totalProfit + b.profit
  {
    SumAppend(sales, [b], Amount);
    SumAppend(sales, [b], Profit);
  }

  /** With no bookings and no inventory every figure of every report is zero. */
  lemma EmptyReportsAreZero()
    ensures SalesSummary([]) == SalesReport([], 0, 0, 0)
    ensures InventorySummary([]) == InventoryReport([], 0, 0, 0, 0)
    ensures ProfitSummary([], []) == ProfitReport([], 0, 0, 0)
  {
  }

  /** One more inventory item adds its buying price to the profit report's cost. */
  lemma CostGrows(sales: seq<SalesBooking>, items: seq<InventoryItem>, t: InventoryItem)
    ensures ProfitSummary(sales, items + [t]).totalCost == ProfitSummary(sales, items).totalCost + t.buyingPrice
  {
    SumAppend(items, [t], Cost);
  }

  /** The profit report repeats the sales report's revenue and profit. */
  lemma ProfitAgreesWithSales(sales: seq<SalesBooking>, items: seq<InventoryItem>)
    ensures var p := ProfitSummary(sales, items);
      var s := SalesSummary(sales);
      p.profitTotal == s.totalProfit && p.revenueTotal == s.totalRevenue
  {
  }
}
