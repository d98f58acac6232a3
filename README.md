# bdticket back office, modelled in Dafny

bdticket is the back office of a Bangladeshi travel agency. Staff sell air tickets, Umrah packages and bookings
through a set of JSON route handlers. Every handler keeps its data in a module-level in-memory list or object. A
role table decides what each user may do. This project models the handlers that hold that logic, along with the
role table and the dashboard statistics helper:

- **Role permissions.** `Auth` covers the permission table, `hasPermission` and `isRole`.
- **Ticket list.** `Tickets` covers the filter chain (case-insensitive search, status, destination country), the
  in-place departure sort and the `POST` stamp.
- **Bulk ticket creation.** `BulkTickets` covers the truthiness check on ten required fields, `Number()` coercion,
  `Array.from({ length: quantity })` and the per-ticket defaults.
- **Bookings.** `Bookings` covers the seed list, the `BK` + zero-padded sequential id, the `id, ...body,
  createdAt, status` spread and the append.
- **Activity logs.** `ActivityLogs` covers the user and action filters, then `slice(0, limit)` before the
  newest-first sort.
- **Umrah bookings and payments.** `UmrahBookings` and `Payments` cover filters, then an in-place newest-first
  sort, then stamped appends.
- **Umrah packages.** `UmrahPackages` covers order-keeping filters.
- **Reports.** `Reports` covers the sales, inventory and profit summaries and the 400 for an unknown type.
- **Dashboard statistics.** `Dashboard` covers today's confirmed sales, pending bookings, locked and available
  tickets, and the estimated profit.
- **Settings.** `Settings` covers the six sections, `GET` of one section or all, and `PUT` as `Object.assign`
  into one section.
- **Login.** `Login` covers the three demo users and the username-equals-password check.

Shared modules:

- **`Http`** holds responses and query parameters. JavaScript's truthiness test on a query parameter is `Given`;
  `Selects` adds the `"all"` exclusion.
- **`Json`** holds request bodies as maps from keys to JSON values. Object spread is `Spread`; the common
  `{ id, ...body, created_at }` shape is `Stamped`.
- **`Seqs`** holds `filter`, `length` and `reduce`.
- **`Sorting`** holds a stable insertion sort. JavaScript's `Array.prototype.sort` is stable.
- **`Records`** holds newest-first by a date field.
- **`Text`** holds `toLowerCase`, `includes`, `String(n)`, `padStart` and `slice(-n)`.

Three kinds of external input become parameters:

- **The clock.** Time is a `now: nat` of milliseconds. Bulk tickets take a `clock: nat -> nat` that gives the
  reading while ticket `i` is built.
- **Stores.** A handler whose list a `POST` appends to, or whose `GET` sorts in place, is a class with a `seq`
  field. A `GET` sorts the store itself exactly when no filter applied, because the unfiltered `filtered`
  variable aliases the store.
- **Seed lists.** Handlers that never change their data are functions of that data.

## Model

| member | source | states |
|---|---|---|
| Auth.HasPermission | lib/auth.ts:20-23 | with no user there is no permission; a permission that no role lists is never granted |
| Auth.HasPermissionByHolders | lib/auth.ts:3-23 | a user has a permission exactly when their role is one of the roles whose list names it |
| Auth.Permissions | lib/auth.ts:3-18 | each role's permission list holds exactly the permissions the by-permission table gives that role |
| Auth.UnknownPermissionRefused | lib/auth.ts:22 | a permission outside every role's list is refused to every user |
| Auth.AdminOnlyPermissions | lib/auth.ts:4-17 | `create_batches` and `view_profit` belong to admins and no one else |
| Auth.AdminLacksFrontDesk | lib/auth.ts:4-17 | `view_tickets` and `create_bookings` belong to managers and staff, and not to admins |
| Auth.SalesAndPaymentsSplit | lib/auth.ts:4-17 | `confirm_sales` is for everyone but staff; `partial_payments` is for staff only |
| Auth.IsRole | lib/auth.ts:25-27 | a role test succeeds only for a present user |
| Auth.IsRoleOfUser | lib/auth.ts:25-27 | a role test succeeds exactly for the user's own role, and never without a user |
| Json.Spread | app/api/bookings/route.ts:163-168 | spread keys are the union of all parts; a later part wins over an earlier one for the same key |
| Json.Stamped | app/api/tickets/route.ts:158-162 | the stamped object has the body's keys plus `id` and `created_at`; `created_at` is now; a body `id` beats the generated one; every other body field survives |
| Tickets.Search | app/api/tickets/route.ts:114-147 | `GET` answers every stored ticket that passes all active filters, with its multiplicity, and no other ticket, in ascending departure order |
| Tickets.ChainMatches | app/api/tickets/route.ts:122-140 | every ticket left after the chain passes each active filter: search text in flight number, destination or origin, ignoring case; status unless `all`; destination country code |
| Tickets.ChainComplete | app/api/tickets/route.ts:122-140 | every stored ticket that passes the active filters survives the chain as often as it is stored |
| Tickets.UnfilteredSearchSortsAll | app/api/tickets/route.ts:122-145 | with no filter the answer is the whole store sorted by departure |
| Tickets.SearchIsStable | app/api/tickets/route.ts:143-145 | tickets departing at the same moment keep their stored relative order |
| Tickets.UnfilteredGetIsIdempotent | app/api/tickets/route.ts:143-145 | sorting an already sorted answer changes nothing, so a second unfiltered `GET` answers the same list |
| Tickets.TicketStore.constructor | app/api/tickets/route.ts:3-112 | the store starts as the seed list |
| Tickets.TicketStore.Get | app/api/tickets/route.ts:114-147 | answers `Search` with 200; reorders the stored list to that answer when no filter applied, and leaves it alone otherwise; never adds or drops a ticket |
| Tickets.Post | app/api/tickets/route.ts:154-164 | answers 200 with the body plus `id` and `created_at` (now); a body `id` wins; all other body fields kept; nothing is stored |
| Reports.ReportType | app/api/reports/route.ts:138 | an absent or empty `type` means `sales`; otherwise the parameter is used as given |
| Reports.Get | app/api/reports/route.ts:135-177 | succeeds exactly for `sales`, `inventory` and `profit`, and otherwise answers 400 `Invalid report type`; sales answers all bookings, their count, the sum of their amounts as revenue and the sum of their profits; inventory answers all items, the count of each of the three statuses under its own name, and a total equal to both the item count and the three counts' sum; profit answers one row per booking in order, the summed profit and revenue of the bookings, and the summed buying price of the inventory as cost |
| Reports.ProfitRows | app/api/reports/route.ts:169-172 | the profit data keeps every sales booking, in order, one row each |
| Reports.StatusCountsCoverInventory | app/api/reports/route.ts:151-155 | the available, locked and sold counts together cover every inventory item exactly once |
| Reports.InventoryCountsAddUp | app/api/reports/route.ts:151-156 | the inventory summary's three counts add up to its total, which is the item count |
| Reports.SalesTotalsGrow | app/api/reports/route.ts:141-144 | one more sales booking adds one to the count and its amount and profit to the totals |
| Reports.EmptyReportsAreZero | app/api/reports/route.ts:141-165 | with no bookings and no inventory every count and total of every report is zero |
| Reports.CostGrows | app/api/reports/route.ts:162 | one more inventory item adds its buying price to the profit report's total cost |
| Reports.ProfitAgreesWithSales | app/api/reports/route.ts:141-163 | the profit report's total profit and revenue equal the sales report's |
| Dashboard.TodaysSalesOf | lib/data.ts:106-115 | no bookings means no sales and a zero amount; the count is the number of bookings confirmed on today's date, never more than the confirmed bookings, and positive when one was confirmed today; with TodaysSalesGrow and TodaysSalesIgnoreOthers this fixes the amount as the sum over today's confirmed bookings |
| Dashboard.CalculateDashboardStats | lib/data.ts:102-134 | today's sales are `TodaysSalesOf`; `totalBookings` counts the pending bookings, `lockedTickets` the locked tickets and `totalInventory` the available ones; pending plus confirmed plus cancelled is every booking; locked plus available plus sold is every ticket; the estimated profit is the sold tickets' selling total minus their buying total |
| Dashboard.TodaysSalesGrow | lib/data.ts:106-115 | a booking confirmed today adds one sale and its amount |
| Dashboard.TodaysSalesIgnoreOthers | lib/data.ts:106-115 | a booking from another day, or one that is not confirmed, leaves today's figures unchanged |
| BulkTickets.ToNumber | app/api/tickets/bulk/route.ts:51-52 | `Number()` gives a number or `NaN`, and leaves a number unchanged |
| BulkTickets.ArrayLength | app/api/tickets/bulk/route.ts:41 | the generated list has `quantity` entries when it is positive and none when it is not |
| BulkTickets.Truthy | app/api/tickets/bulk/route.ts:25-36 | a value is falsy exactly when it is `null`, `false`, `0` or the empty string |
| BulkTickets.NewTicket | app/api/tickets/bulk/route.ts:41-60 | ticket `i` has id `ticket-<time>-<i>` and was created at that clock reading; it has one seat of one and is available; it copies the flight fields and coerces the prices with `Number()`; arrival time, notes, creator and batch number take the request's truthy value or default to `null`, `""`, `admin` and `BATCH-<time>` |
| BulkTickets.Post | app/api/tickets/bulk/route.ts:3-66 | rejects with 400 `Missing required fields` exactly when a required field is missing or falsy; otherwise answers success with one ticket per unit of `quantity` and a count equal to the ticket list's length; ticket `i` is `NewTicket` built at its own clock reading |
| BulkTickets.PositiveQuantityCount | app/api/tickets/bulk/route.ts:41-64 | with all fields supplied and a positive quantity, the count is the quantity |
| BulkTickets.NegativeQuantityYieldsNothing | app/api/tickets/bulk/route.ts:35-65 | a negative quantity passes validation and yields a successful reply with no tickets |
| BulkTickets.ZeroIsMissing | app/api/tickets/bulk/route.ts:25-37 | a required field given as 0 counts as missing |
| BulkTickets.NoDashInDecimal | app/api/tickets/bulk/route.ts:42 | a decimal timestamp or index holds no `-`, so the id separators can be found |
| BulkTickets.TicketIdsDistinct | app/api/tickets/bulk/route.ts:42 | ids for different indices differ whatever the clock readings |
| BulkTickets.BulkIdsDistinct | app/api/tickets/bulk/route.ts:41-60 | the tickets of one bulk request all have different ids |
| Text.DecimalRoundTrip | app/api/bookings/route.ts:161 | reading back the decimal digits of a number gives the number |
| Text.DecimalInjective | app/api/bookings/route.ts:161 | different numbers have different decimal strings |
| Text.PadStart | app/api/bookings/route.ts:161 | padding reaches the width, keeps the string as its tail and fills only with the pad character |
| Text.PaddedDecimalValue | app/api/bookings/route.ts:161 | zero-padding a decimal keeps its numeric value |
| Text.TakeLast | app/api/umrah/bookings/route.ts:74 | `slice(-n)` keeps the last `n` characters, or all of a shorter string |
| Text.ToLower | app/api/tickets/route.ts:125-130 | lower-casing keeps the length and leaves no upper-case letter |
| Bookings.BookingIdFormat | app/api/bookings/route.ts:161 | a booking id is `BK` and at least three digits whose value is the number it was made from |
| Bookings.BookingIdInjective | app/api/bookings/route.ts:161 | different counts give different `BK` ids |
| Bookings.OneDigitBookingId | app/api/bookings/route.ts:161 | a count below ten is padded to three digits, e.g. `BK003` |
| Bookings.Pending | app/api/bookings/route.ts:163-168 | for any generated id: the body's keys plus `id`, `createdAt` and `status`; always pending and created now; a body `id` beats the generated one; other body fields kept |
| Bookings.NewBooking | app/api/bookings/route.ts:160-168 | the new booking has the body's keys plus `id`, `createdAt` and `status`; it is always pending and created now; a body `id` beats `BK<n+1>`; other body fields kept |
| Bookings.TwoIdsDiffer | app/api/bookings/route.ts:161-171 | in a sequentially named list, two bookings at different positions have different ids |
| Bookings.SequentialIdsAreDistinct | app/api/bookings/route.ts:161-171 | a list whose ids are `BK001`, `BK002`, … in order has no duplicate ids |
| Bookings.PostKeepsSequentialIds | app/api/bookings/route.ts:161-171 | appending a booking whose body has no id keeps the ids sequential |
| Bookings.BodyIdCanDuplicate | app/api/bookings/route.ts:163-171 | a body that carries an existing id is stored as a second booking with that id |
| Bookings.SeedBooking | app/api/bookings/route.ts:4-142 | each seed booking carries its row's id |
| Bookings.Seed | app/api/bookings/route.ts:4-142 | the seed list has one booking per seed row, in order |
| Bookings.FirstBookingIds | app/api/bookings/route.ts:161 | counts 1 to 5 give `BK001` to `BK005` |
| Bookings.SeedIdsAreSequential | app/api/bookings/route.ts:4-142 | the seed ids are `BK001` to `BK005` in order, so the first `POST` issues `BK006` |
| Bookings.BookingStore.constructor | app/api/bookings/route.ts:4-142 | the store starts as the seed list, with sequential ids |
| Bookings.BookingStore.Get | app/api/bookings/route.ts:145-148 | answers the stored list with 200 |
| Bookings.BookingStore.Post | app/api/bookings/route.ts:156-173 | answers 201 with `success` and the new booking built from the current count; appends it; keeps ids sequential when the body brings no id |
| Records.NewestFirst | app/api/umrah/bookings/route.ts:59 | the newest-first order is a permutation in which dates never increase |
| Records.NewestFirstIdempotent | app/api/umrah/bookings/route.ts:59 | sorting newest first twice is sorting once |
| Sorting.SortBy | app/api/tickets/route.ts:143-145 | the sort result is ordered by the key and is a permutation of its input |
| Sorting.SortByIsStable | app/api/tickets/route.ts:143-145 | elements with equal keys keep their relative order |
| Sorting.SortBySorted | app/api/tickets/route.ts:143-145 | an already ordered list is left as it is |
| Sorting.SortByIdempotent | app/api/tickets/route.ts:143-145 | sorting twice is sorting once |
| Seqs.Filter | app/api/tickets/route.ts:126-139 | `filter` keeps only elements passing the test, and keeps every passing element as often as it occurs |
| Seqs.FilterIf | app/api/tickets/route.ts:134-136 | an optional filter step drops only elements failing an active test |
| Seqs.Take | app/api/activity-logs/route.ts:62 | `slice(0, n)` is a prefix of length `n`, or the whole list when shorter |
| Seqs.TakeIsSubMultiset | app/api/activity-logs/route.ts:62 | the first `n` elements are among the elements, each at most as often as stored |
| Text.Decimal | app/api/bookings/route.ts:161 | `String(n)` is a non-empty run of digits with no leading zero |
| Seqs.FilterIsSubsequence | app/api/umrah/packages/route.ts:77-83 | a filter keeps its survivors in their original order |
| Seqs.FilterFilter | app/api/umrah/packages/route.ts:77-83 | two filters in a row are one filter by both tests |
| Seqs.FilterAppendOne | lib/data.ts:106-110 | filtering a list with one more element adds that element exactly when it passes |
| Seqs.SumAppend | lib/data.ts:113 | the sum over a joined list is the sum of the two sums |
| Seqs.CountThreeWaySplit | lib/data.ts:117-121 | three disjoint tests covering everything count every element exactly once |
| ActivityLogs.Limit | app/api/activity-logs/route.ts:50 | the limit is 50 unless one is given |
| ActivityLogs.FilterLogsKeepsMatches | app/api/activity-logs/route.ts:52-60 | the user and action filters keep exactly the matching logs, each as often as it is stored |
| ActivityLogs.Select | app/api/activity-logs/route.ts:48-62 | the answer has at most `limit` logs: the first `limit` matches in stored order, re-sorted newest first; all of them match and come from the store |
| ActivityLogs.PageMatches | app/api/activity-logs/route.ts:62 | the page cut before the sort holds only matching stored logs |
| ActivityLogs.FewMatchesAllAnswered | app/api/activity-logs/route.ts:62 | when no more logs match than the limit, every matching log is answered |
| ActivityLogs.LimitPicksStoredOrder | app/api/activity-logs/route.ts:62 | the limit applies before the sort: of two matching logs stored oldest first, `limit=1` answers the older one |
| ActivityLogs.LogStore.constructor | app/api/activity-logs/route.ts:3-42 | the store starts as the seed list |
| ActivityLogs.LogStore.Get | app/api/activity-logs/route.ts:44-64 | answers `Select` with 200, and the store's order is untouched because the sort runs on a slice |
| ActivityLogs.LogStore.Post | app/api/activity-logs/route.ts:71-83 | appends the stamped log (`log-` id, created now) and answers it |
| UmrahBookings.FilterBookingsKeepsMatches | app/api/umrah/bookings/route.ts:49-57 | the status (unless `all`) and package filters keep exactly the matching bookings, with their multiplicity |
| UmrahBookings.Search | app/api/umrah/bookings/route.ts:42-61 | `GET` answers every matching booking, with its multiplicity, and nothing else, newest first |
| UmrahBookings.UnfilteredSearchSortsAll | app/api/umrah/bookings/route.ts:49-59 | with no filter the answer is the whole store newest first |
| UmrahBookings.NewBooking | app/api/umrah/bookings/route.ts:72-77 | the new booking has the body's keys plus `id`, `booking_reference` and `created_at`; body values beat the generated id and reference; `created_at` is always now |
| UmrahBookings.Reference | app/api/umrah/bookings/route.ts:74 | the reference is `UMH-` followed by the last six digits of the timestamp |
| UmrahBookings.ReferenceHasSixDigits | app/api/umrah/bookings/route.ts:74 | from a six-digit timestamp on, the reference is `UMH-` and exactly six digits |
| UmrahBookings.UmrahBookingStore.constructor | app/api/umrah/bookings/route.ts:3-40 | the store starts as the seed list |
| UmrahBookings.UmrahBookingStore.Get | app/api/umrah/bookings/route.ts:42-61 | answers `Search` with 200; the store is re-sorted in place exactly when no filter applied, and never gains or loses a booking |
| UmrahBookings.UmrahBookingStore.Post | app/api/umrah/bookings/route.ts:68-81 | appends the new booking and answers it |
| Payments.Search | app/api/payments/route.ts:39-52 | `GET` answers every payment of the named booking, or all when none is named, and nothing else, with the latest payment date first |
| Payments.NewPayment | app/api/payments/route.ts:63-68 | the new payment has the body's keys plus `id`, `payment_date` and `status`; it is always completed and dated now; a body `id` beats `pay-<now>` |
| Payments.NewPaymentIsNewest | app/api/payments/route.ts:50-70 | when no stored payment is dated in the future, a payment just posted is dated at the head of the next unfiltered `GET` |
| Payments.PaymentStore.constructor | app/api/payments/route.ts:3-37 | the store starts as the seed list |
| Payments.PaymentStore.Get | app/api/payments/route.ts:39-52 | answers `Search` with 200; the store is re-sorted in place exactly when no booking is named, and never gains or loses a payment |
| Payments.PaymentStore.Post | app/api/payments/route.ts:59-72 | appends the new payment and answers it |
| Seqs.FilterIfTwice | app/api/umrah/packages/route.ts:75-83 | two optional filter steps keep exactly what passes both active tests, with multiplicity |
| UmrahPackages.Search | app/api/umrah/packages/route.ts:69-85 | `GET` answers exactly the packages with the given status and type (each ignored when absent or `all`), with their multiplicity; SearchKeepsOrder adds that they stay in stored order |
| UmrahPackages.SearchKeepsOrder | app/api/umrah/packages/route.ts:75-85 | the answer is the stored list with some packages left out, in stored order |
| UmrahPackages.UnfilteredSearchIsIdentity | app/api/umrah/packages/route.ts:75-85 | with no active filter the whole list is answered as stored |
| UmrahPackages.Post | app/api/umrah/packages/route.ts:92-102 | answers 200 with the body stamped with a `pkg-` id and created now; nothing is stored |
| Settings.Assign | app/api/settings/route.ts:103 | `Object.assign` keeps every old key, adds the new ones, and the data's values win |
| Settings.AssignIdempotent | app/api/settings/route.ts:103 | assigning the same data twice is assigning it once |
| Settings.Update | app/api/settings/route.ts:101-103 | a `PUT` keeps the six sections, changes only the named known section, and merges the data into it |
| Settings.UpdateIdempotent | app/api/settings/route.ts:101-103 | repeating a `PUT` changes nothing further |
| Settings.UpdatesOfDifferentSectionsCommute | app/api/settings/route.ts:101-103 | `PUT`s to two different sections give the same settings in either order |
| Settings.SettingsStore.constructor | app/api/settings/route.ts:4-77 | the store starts as the seed settings, with exactly the six sections |
| Settings.SettingsStore.Get | app/api/settings/route.ts:79-89 | a known section is answered alone under its own name; anything else answers all settings |
| Settings.SettingsStore.Put | app/api/settings/route.ts:96-111 | a known section is merged and echoed with 200, `success` and the message; an unknown or missing section answers 400 `Invalid section` and changes nothing; the six sections always remain |
| Login.DemoUsers | app/api/auth/login/route.ts:5-30 | there are three demo users; each user's username is the name of their role, and each was created when the module loaded |
| Login.Find | app/api/auth/login/route.ts:37-39 | finds a user exactly when some user is accepted, and then the first accepted user |
| Login.AcceptedExactlyDemoCredentials | app/api/auth/login/route.ts:5-39 | some demo user accepts the credentials exactly when the username is `admin`, `manager` or `staff` and the password equals it |
| Login.Post | app/api/auth/login/route.ts:32-45 | logs in exactly the three demo usernames with the username as password, answering that demo user; anything else gets 401 `Invalid credentials` |
| Login.DemoUsernamesDistinct | app/api/auth/login/route.ts:5-30 | no two demo users share a username |
| Login.LoginAnswersTheNamedUser | app/api/auth/login/route.ts:5-45 | a successful login answers the one demo user with that username |

## Left out

- **`catch` branches.** The 500 reply for a body that is not JSON, and other runtime errors, are not modelled.
  This includes the 500 from a huge bulk `quantity`; see BulkTickets.ArrayLength below.
- **Floating-point figures.** `averageTicketPrice`, the profit margins and `toFixed(2)` in the reports are left
  out. The reports keep only their integer counts and totals.
- **The clock.** Every record takes one `now` for its id, reference and creation time. The source reads the
  clock two or three times while building one object, and those readings may differ by a millisecond.
- BulkTickets.Post: the tickets' id, batch default and `created_at` share one clock reading per ticket.
- **Dates as strings.** Timestamps are millisecond counts. ISO strings and time zones are left out.
- Dashboard.TodaysSalesOf: "today" is the UTC day of `now`. The source uses the server's local midnight via
  `setHours(0, 0, 0, 0)`.
- Records.NewestFirst: a date field that is missing or not a timestamp sorts as 0. The source would compare
  `NaN`.
- **Seed data.** The seed lists of the tickets, reports, activity logs, Umrah bookings, payments, packages,
  settings and `lib/data.ts` stores are not modelled. They are constructor arguments or function parameters. The
  settings seed also holds a fractional profit margin percentage (18.5). The bookings seed keeps only its top-level fields
  (id, status, creation time, creator, selling price, payment type and method, partial amount). Its nested ticket,
  agent and passenger objects are left out.
- ActivityLogs.Limit: a `limit` that is not a non-negative integer is taken as absent. The source's `parseInt`
  could yield `NaN`, and `slice(0, NaN)` is empty; a negative limit slices from the end.
- BulkTickets.ToNumber: only integers, booleans, `null` and plain digit strings convert. Strings with signs,
  spaces, decimals or exponents, and arrays, are treated as `NaN`.
- BulkTickets.ArrayLength: a `quantity` above 2^32 − 1 makes `Array.from` throw, which the handler answers with
  500. The model builds that many tickets.
- Settings.SettingsStore.Put: `section in DEMO_SETTINGS` also accepts inherited names such as `toString`. The
  model accepts the six sections only. A non-object `data` is not modelled, and an absent one leaves the section
  unchanged.
- Json.Num: JSON numbers are integers only. A fractional number in a request body cannot be represented. Examples
  are a bulk `quantity` of 2.5, which `Array.from` floors to 2 tickets; a fractional price, which `Number()`
  keeps; and a fractional percentage sent in a settings `PUT`.
- Settings.SettingsStore.Put: every section is typed as an object. The `users` section of the seed settings is
  an array of user records. `Object.assign` onto that array treats its indices and `length` as keys, so a `data`
  with a `length` key truncates it. `GET` and `PUT` also echo that section as an array, not an object. The model
  does not capture this.
- **Body types.** Request bodies are JSON objects. Arrays or scalars posted as bodies are not modelled.
- Text.ToLower: `toLowerCase` is modelled for ASCII letters only.
- **Outside the core.** The other routes (airlines, countries, single ticket or booking by id, dashboard stats),
  the React pages, the auth context and the layout are not part of this model.
