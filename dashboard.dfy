/**
 * `calculateDashboardStats`: today's confirmed sales, pending bookings,
 * locked and available tickets, and the margin on sold tickets, all counted
 * or summed over the mock bookings and tickets.
 */
module Dashboard {
  import opened Seqs
  import opened Types

  const MsPerDay: nat := 24 * 60 * 60 * 1000

  /** The calendar day of a timestamp: what `setHours(0, 0, 0, 0)` keeps. */
  function DayOf(ms: nat): nat
  {
    ms / MsPerDay
  }

  /** A booking confirmed and created on the same day as `now`. */
  predicate SoldOnDayOf(b: Booking, now: nat)
  {
    DayOf(b.createdAt) == DayOf(now) && b.status == Confirmed
  }

  function SoldToday(now: nat): Booking -> bool
  {
    b => SoldOnDayOf(b, now)
  }

  function BookingIs(status: BookingStatus): Booking -> bool
  {
    (b: Booking) => b.status == status
  }

  function TicketIs(status: TicketStatus): Ticket -> bool
  {
    (t: Ticket) => t.status == status
  }

  function BookingAmount(b: Booking): int { b.amount }

  function TicketSelling(t: Ticket): int { t.sellingPrice }

  function TicketBuying(t: Ticket): int { t.buyingPrice }

  function TicketMargin(t: Ticket): int { t.sellingPrice - t.buyingPrice }

  /** Today's confirmed sales: their number and the sum of their amounts. */
  function TodaysSalesOf(bookings: seq<Booking>, now: nat): (r: TodaysSales)
    ensures bookings == [] ==> r == TodaysSales(0, 0)
    ensures r.count == Count(bookings, SoldToday(now))
    ensures r.count <= Count(bookings, BookingIs(Confirmed))
    ensures forall b <- bookings :: SoldOnDayOf(b, now) ==> r.count > 0
  {
    var todays := Filter(bookings, SoldToday(now));
    CountMonotone(bookings, SoldToday(now), BookingIs(Confirmed));
    TodaysSales(Sum(todays, BookingAmount), |todays|)
  }

  /** `calculateDashboardStats()` with the clock reading `now`. */
  function CalculateDashboardStats(bookings: seq<Booking>, tickets: seq<Ticket>, now: nat): (r: DashboardStats)
    ensures r.todaysSales == TodaysSalesOf(bookings, now)
    ensures r.totalBookings == Count(bookings, BookingIs(Pending))
    ensures r.lockedTickets == Count(tickets, TicketIs(Locked))
    ensures r.totalInventory == Count(tickets, TicketIs(Available))
    ensures r.totalBookings + Count(bookings, BookingIs(Confirmed)) + Count(bookings, BookingIs(Cancelled))
         == |bookings|
    ensures r.lockedTickets + r.totalInventory + Count(tickets, TicketIs(Sold)) == |tickets|
    ensures r.lockedTickets + r.totalInventory <= |tickets|
    ensures var sold := Filter(tickets, TicketIs(Sold));
      r.estimatedProfit == Sum(sold, TicketSelling) - Sum(sold, TicketBuying)
  {
    var sold := Filter(tickets, TicketIs(Sold));
    CountThreeWaySplit(bookings, BookingIs(Pending), BookingIs(Confirmed), BookingIs(Cancelled));
    CountThreeWaySplit(tickets, TicketIs(Locked), TicketIs(Available), TicketIs(Sold));
    SumDifference(sold, TicketSelling, TicketBuying, TicketMargin);
    DashboardStats(
      TodaysSalesOf(bookings, now),
      Count(bookings, BookingIs(Pending)),
      Count(tickets, TicketIs(Locked)),
      Count(tickets, TicketIs(Available)),
      Sum(sold, TicketMargin))
  }

  /** A booking made today and confirmed adds one sale and its amount to today's figures. */
  lemma TodaysSalesGrow(bookings: seq<Booking>, b: Booking, now: nat)
    requires SoldOnDayOf(b, now)
    ensures var before := TodaysSalesOf(bookings, now);
      var after := TodaysSalesOf(bookings + [b], now);
      after.count == before.count + 1 && after.amount == before.amount + b.amount
  {
    FilterAppendOne(bookings, b, SoldToday(now));
    SumAppend(Filter(bookings, SoldToday(now)), [b], BookingAmount);
  }

  /** A booking from another day, or not confirmed, leaves today's figures alone. */
  lemma TodaysSalesIgnoreOthers(bookings: seq<Booking>, b: Booking, now: nat)
    requires !SoldOnDayOf(b, now)
    ensures TodaysSalesOf(bookings + [b], now) == TodaysSalesOf(bookings, now)
  {
    var before := Filter(bookings, SoldToday(now));
    var after := Filter(bookings + [b], SoldToday(now));
    FilterAppendOne(bookings, b, SoldToday(now));
    assert after == before + [];
    assert after == before;
  }
}
