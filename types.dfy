/** The record shapes shared by the library code and the handlers. */
module Types {

  datatype UserRole = Admin | Manager | Staff

  /** The string a role is written as. */
  function RoleName(r: UserRole): string
  {
    match r
    case Admin => "admin"
    case Manager => "manager"
    case Staff => "staff"
  }

  datatype User = User(
    id: string,
    username: string,
    name: string,
    email: string,
    role: UserRole,
    createdAt: nat)

  datatype LoginRequest = LoginRequest(username: string, password: string)

  datatype TicketStatus = Available | Locked | Sold

  /** The string a ticket status is written as. */
  function TicketStatusName(s: TicketStatus): string
  {
    match s
    case Available => "available"
    case Locked => "locked"
    case Sold => "sold"
  }

  datatype BookingStatus = Pending | Confirmed | Cancelled

  /** A ticket of the dashboard's inventory. */
  datatype Ticket = Ticket(
    id: string,
    countryId: string,
    batchNumber: string,
    buyingPrice: int,
    sellingPrice: int,
    status: TicketStatus)

  /** A booking as the dashboard counts it. */
  datatype Booking = Booking(
    id: string,
    ticketId: string,
    customerName: string,
    customerPhone: string,
    customerEmail: string,
    status: BookingStatus,
    amount: int,
    createdAt: nat)

  datatype TodaysSales = TodaysSales(amount: int, count: nat)

  datatype DashboardStats = DashboardStats(
    todaysSales: TodaysSales,
    totalBookings: nat,
    lockedTickets: nat,
    totalInventory: nat,
    estimatedProfit: int)
}
