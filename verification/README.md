# Verification of the inventory service

A Dafny model of the stock, reservation and movement accounting of the inventory service, in two
layers over the same tables, and of the aggregated pricing of the order service.

* **Tables and effects** (`Stock`, `Tables`, `Plans`).  The three tables are maps and a log.  Every
  use case is a sequence of effects on them (`Event`): receive, dispatch, arrive, hold, settle, set a
  safety level.  `Sound` and `Books` are the invariants: rows are in bounds, a reserved counter is the
  sum of the live reservations of its cell, live reservations have a row and are pairwise distinct,
  and the log replays to every total and every live quantity.
* **Use cases one at a time** (`Calls`, `Skus`, `Placement`).  `Does` says which effects a successful call has
  on which tables; the results are about every run of calls.
* **Use cases as written** (`Service`, `Loops`, `Orders`).  A class with the tables, the Redis key set
  and the published alerts as fields.  Its methods take keys, load rows into objects, mutate them in
  `int64` arithmetic, write them back under the CHECK constraints, append to the log, fail at any
  statement, roll back and delete their keys.  Each is proved against `Does`; and while Redis and the
  database are healthy, each is proved to succeed exactly when its arguments, the keys and the tables
  allow it.
* **Use cases interleaved** (`Protocol`).  Each use case is a process whose steps are: take a Redis key,
  list reservations without a lock, read a row under its row lock, write privately, commit, delete a
  key.  Transactions run at READ COMMITTED, the default of PostgreSQL, which is what a transaction
  begun with default options gets.  Leases expire, any transaction may abort at any point, and any
  process may crash.  `Accounting`, `Serialisability`, `RowSafety`, `LockDiscipline` and `Hazards`
  prove what follows, and `Pricing` is independent of all of it.

Which guarantee rests on which lock:

| guarantee | needs |
|---|---|
| rows in bounds, no lost update of a row that was read, no `int64` wrap | PostgreSQL row locks alone (`RowSafety`) |
| every order is settled once, counters equal sums, serialisability | the order keys and the stock keys, with no lease running out mid-call (`Accounting`, `Serialisability`) |
| first insert of a stock row | the stock key in time: `Hazards.ExpiredLeaseLosesReceipt` shows a receipt lost without it |
| nothing in this model | the wildcard key: `Hazards.WildcardDoesNotExclude` shows one automatic reserve deleting another's |

Some properties one might expect are false of the code.  Each is stated with the exact condition
under which it holds, and with an input on which it fails:

* Aggregated pricing equals item-by-item pricing exactly when no SKU with a price other than zero adds
  up to more than an `int64` holds (`Pricing.AggregationIsExactUnlessItOverflows`, `Pricing.AggregationCanOverflow`).
* GetStockBySKU reports the sums over warehouses exactly when they fit an `int64`
  (`Skus.ReportIsExactWhenItFits`, `Skus.ReportCanWrap`).
* ReleaseStock and ConfirmStock return the quantity settled exactly when an `int64` holds it
  (`Calls.CountIsExactWhenItFits`, `Calls.CountCanWrap`).
* Without the Redis keys a commit keeps the totals in step with the movement log exactly when it does not
  insert its row blind over one with stock and does not confirm more than there is
  (`RowSafety.LedgerStaysInStep`, `Hazards.ExpiredLeaseLosesReceipt`).
* The second deletion of a wildcard stock key hits another automatic reserve exactly when the key is set
  at that moment (`LockDiscipline.LateDeletionIsForeign`, `Hazards.WildcardDoesNotExclude`), which cannot
  happen while automatic reserves of the SKU do not overlap (`LockDiscipline.SoloWildcardsAreOwn`).

`dafny verify dfyconfig.toml` checks the project.

## Model

| member | source | states |
|---|---|---|
| Stock.WrapIsCongruent | services/inventory/internal/domain/entities/product_stock.go:16-40 | the wrapped result fits an `int64` and differs from the exact one by a multiple of 2^64, which determines it |
| Stock.AddTotalIsExactOrRefused | services/inventory/internal/application/usecases/receipt.go:48-55 | the CHECKs refuse exactly the additions an `int64` cannot hold, and an accepted addition is exact |
| Stock.ReserveIsExactOrRefused | services/inventory/internal/application/usecases/reserve.go:132-139 | on a stored row the CHECKs refuse exactly the reservations that are not available, wrapped ones included |
| Stock.ProductStock.AvailableQuantity | services/inventory/internal/domain/entities/product_stock.go:16-18 | on a stored row the exact difference, never negative and never wrapped |
| Stock.ProductStock.Reserve | services/inventory/internal/domain/entities/product_stock.go:20-22 | on a stored row the CHECKs accept the result if and only if the quantity was available, and it is then exact |
| Stock.ProductStock.Deduct | services/inventory/internal/domain/entities/product_stock.go:24-33 | a stored row stays one; both counters drop exactly, or to zero; availability is unchanged if and only if the reserved counter covered the quantity or nothing was available |
| Stock.ProductStock.Release | services/inventory/internal/domain/entities/product_stock.go:35-40 | a stored row stays one, and availability grows by the quantity, or by all that was reserved |
| Stock.ProductStock.Add | services/inventory/internal/application/usecases/receipt.go:51 | the CHECKs accept the result if and only if an `int64` holds the sum, and it is then exact |
| Stock.ProductStock.Take | services/inventory/internal/application/usecases/transfer.go:82-85 | the exact difference, or zero; the CHECKs accept it if and only if the quantity was available or nothing was reserved, so they cannot replace the guard |
| Tables.CounterCoversReservation | services/inventory/internal/application/usecases/confirm.go:55-63 | while the invariants hold, a live reservation has a stock row, and its reserved counter covers the quantity: neither the missing-row exit nor a clamp can fire |
| Tables.LegalKeepsSound | services/inventory/migrations/002_schema.sql:11-36 | every effect keeps bounds, counter = sum of live reservations, no orphan and no duplicate live reservation |
| Tables.LegalKeepsBooks | services/inventory/migrations/002_schema.sql:38-47 | every effect together with the movements it logs keeps the replay equations for all cells and scopes |
| Tables.LegalRunKeepsInvariants | services/inventory/internal/application/usecases/cleanup.go:67-111 | so does every sequence of effects, such as a settlement loop over one cell |
| Tables.CommuteBlocks | services/inventory/internal/infra/postgres/repo_full.go:35-46 | blocks of independent effects commute on stock and reservations |
| Plans.PlanRewrites | services/inventory/internal/infra/postgres/repo_full.go:120-134 | what a settlement loop leaves in the reservation table: exactly the listed rows end, and the others are untouched |
| Plans.PlanOnStocks | services/inventory/internal/application/usecases/release.go:54-92 | a loop lowers each cell's counters by the quantities it settles there, whatever the order of the listing |
| Plans.NextOfPlan | services/inventory/internal/application/usecases/cleanup.go:73-87 | at each turn of the loop the next row is still as listed, its stock row exists and its counter covers it |
| Calls.DoesIsLegal | services/inventory/internal/application/usecases/reserve.go:106-168 | what a successful call does is legal, so it keeps all invariants |
| Calls.SettlementMeaning | services/inventory/internal/application/usecases/confirm.go:48-101 | a settlement call lowers each cell by the live quantity it had to clear there, ends exactly those reservations and changes nothing else; release and confirm settle the order's whole live quantity |
| Calls.NothingToSettle | services/inventory/internal/application/usecases/cleanup.go:73-76 | a settlement call that finds nothing alive to pick has no effect |
| Calls.RunsKeepTheBooks | services/inventory/internal/application/usecases/transfer.go:82-103 | every run of calls keeps both invariants |
| Calls.RunsFromEmptyKeepTheBooks | services/inventory/internal/application/usecases/confirm.go:63-72 | ledger replay: after any run from empty tables total = IN + TRANSFER_IN - OUT - TRANSFER_OUT, reserved = RESERVE - RELEASE - OUT, for every cell, and per order and cell the latter is what is still live |
| Calls.LiveWasHeld | services/inventory/internal/application/usecases/reserve.go:144-156 | a live reservation has the content it was created with and nothing happened to it since |
| Calls.SettlesOnce | services/inventory/internal/application/usecases/release.go:54-94 | in every run each settlement ends a reservation created earlier with the same order, cell, quantity and expiry, with no other settlement in between |
| Calls.FirstSettlementWins | services/inventory/internal/application/usecases/confirm.go:51-54 | once an order is settled, no confirm, release or cleanup in any order of calls changes a row of it, and confirm and release of it have no effect, until something is reserved for it |
| Calls.SettlementSettles | services/inventory/internal/application/usecases/release.go:54-94 | after a successful release or confirm no reservation of the order is alive |
| Calls.RetryIsIdempotent | services/inventory/internal/application/usecases/reserve.go:106-121 | repeating a reserve after any run that did not settle it has no effect, and only one reservation matches it |
| Calls.ReserveAllThenRelease | services/inventory/internal/application/usecases/release.go:50-118 | reserving any list of items for a settled order and releasing the order is the identity on the stock table, the release settles exactly what was newly reserved, and the returned `int64` is that sum if and only if it fits |
| Calls.CountIsExactWhenItFits | services/inventory/internal/application/usecases/release.go:94 | the count that release or confirm returns is the order's live quantity if and only if an `int64` holds it |
| Calls.CountCanWrap | services/inventory/internal/application/usecases/confirm.go:75 | a run from empty tables after which releasing or confirming one order returns -2 |
| Skus.ReservedOfSku | services/inventory/internal/delivery/grpc/server_full.go:77-80 | the reserved sum over the warehouses of a SKU is the sum of its live reservations over all orders |
| Skus.TotalOfSku | services/inventory/internal/delivery/grpc/server_full.go:77-80 | the total over the warehouses of a SKU is what all its movements add up to |
| Skus.TransfersCancel | services/inventory/internal/application/usecases/transfer.go:81-107 | over every run transfers add nothing to a SKU |
| Skus.SkuConservation | services/inventory/internal/delivery/grpc/server_full.go:71-82 | after any run from empty tables the stock of a SKU is what was received less what was confirmed, and its reserved part is the sum of its live reservations |
| Skus.ReportIsExactWhenItFits | services/inventory/internal/delivery/grpc/server_full.go:78-79 | the `int64` sums are exact if and only if they fit |
| Skus.ReportCanWrap | services/inventory/internal/delivery/grpc/server_full.go:78-79 | two full warehouses are reported as a negative stock |
| Placement.AnswerIsCall | services/inventory/internal/application/usecases/reserve.go:106-195 | a successful attempt is a serial reserve of the chosen cell |
| Placement.AutomaticChoiceIsComplete | services/inventory/internal/application/usecases/reserve.go:83-135 | with no warehouse given, and unless Redis, the database or a busy key stops it, a reserve succeeds exactly when some single warehouse has the quantity available, the chosen cell has maximal availability, and the two later failure branches are unreachable |
| Placement.ExplicitReserveIsComplete | services/inventory/internal/application/usecases/reserve.go:106-135 | with the warehouse given, and unless Redis, the database or a busy key stops it, a reserve succeeds exactly when it has been made already or the cell has the quantity available |
| Placement.RetryReturnsTheSame | services/inventory/internal/application/usecases/reserve.go:106-121 | a retry with the same warehouse returns the first reservation's id, and only a busy key, Redis or the database can fail it |
| Placement.BatchIsSerial | services/inventory/internal/delivery/grpc/server_full.go:34-41 | a batch is the serial run of its successful items; failed items leave no trace |
| Placement.SuccessesCount | services/inventory/internal/delivery/grpc/server_full.go:43-52 | the count equals the number of items exactly when none failed, and zero exactly when all did |
| Placement.TallyReports | services/inventory/internal/delivery/grpc/server_full.go:43-52 | an error is there wherever its text is needed, and each of the three replies is given exactly in the case it describes, with the last error |
| Orders.Sort | services/inventory/internal/application/usecases/cleanup.go:32 | an ascending permutation |
| Orders.OrdersOf | services/inventory/internal/application/usecases/cleanup.go:23-32 | exactly the orders of the listing, each once, ascending |
| Loops.DeductionKeepsLow | services/inventory/internal/application/usecases/confirm.go:62-89 | the safety check after a deduction has the outcome it would have had before the call |
| Loops.ListingIsPlanned | services/inventory/internal/application/usecases/cleanup.go:73-105 | a loop over a listing in any order settles what the call picks of that order, and no more |
| Loops.ListingIsOriginal | services/inventory/internal/application/usecases/cleanup.go:68-72 | re-listing a later order in the middle of a cleanup lists what was there at the start |
| Loops.SweepDone | services/inventory/internal/application/usecases/cleanup.go:67-111 | after the last order exactly the live reservations due at `now` are gone, each cell is lowered by their sum, and the count is their number |
| Loops.SweptOnce | services/inventory/internal/application/usecases/cleanup.go:13-21 | a second cleanup at the same `now` has nothing to remove |
| Service.Inventory.constructor | services/inventory/migrations/002_schema.sql:11-47 | empty tables satisfy the invariant |
| Service.Inventory.Lock | services/inventory/internal/infra/redis/cache.go:34-36 | sets a key that was not set, or changes nothing; it fails for a set key or because Redis does |
| Service.Inventory.Unlock | services/inventory/internal/infra/redis/cache.go:37-40 | deletes the key whoever set it |
| Service.Inventory.Fetch | services/inventory/internal/infra/postgres/repo_full.go:22-33 | the row as a new object, or null exactly when there is none |
| Service.Inventory.Upsert | services/inventory/internal/infra/postgres/repo_full.go:35-46 | replaces the row; a refusal by a CHECK, and a failed statement, are told apart, and each has its cause |
| Service.Inventory.ListByOrder | services/inventory/internal/infra/postgres/repo_full.go:58-84 | all rows of the order, in any order |
| Service.Inventory.FindExpired | services/inventory/internal/infra/postgres/repo_full.go:86-118 | exactly the orders with an expired live reservation, each once, sorted |
| Service.Inventory.FindWarehouse | services/inventory/internal/infra/postgres/repo_full.go:264-277 | a cell of maximal availability that has the quantity, or blank exactly when there is none |
| Service.Inventory.SettleRow | services/inventory/internal/application/usecases/release.go:60-92 | the statements of one turn of a settlement loop, and whether the row is below its safety level |
| Service.Inventory.SettleNext | services/inventory/internal/application/usecases/cleanup.go:77-104 | in the middle of a loop the row is never missing and no CHECK ever refuses it: only the database can fail; what is written back is the exact effect |
| Service.Inventory.ReleaseStock | services/inventory/internal/application/usecases/release.go:26-119 | success: the order's live reservations end, each cell's reserved drops by their sum, the wrapped sum is returned; failure: nothing changes; on every exit the keys are as before and the invariant holds; with Redis and database healthy it succeeds if and only if the order's key is free |
| Service.Inventory.ConfirmStock | services/inventory/internal/application/usecases/confirm.go:25-102 | the same with total lowered too, every cell's availability unchanged, and one alert for each reservation whose cell was below its safety level before the call; the same success condition |
| Service.Inventory.LockAll | services/inventory/internal/application/usecases/cleanup.go:34-51 | all keys or none: a failure at the k-th key restores the key set |
| Service.Inventory.CleanupExpiredReservations | services/inventory/internal/application/usecases/cleanup.go:13-112 | success: exactly the reservations due at `now` are removed, each cell's reserved drops by their sum, their number is returned; failure: nothing changes; the keys are as before; healthy, it succeeds if and only if no order with an expired reservation has its key set |
| Service.Inventory.AddStockReceipt | services/inventory/internal/application/usecases/receipt.go:14-72 | success: the row is inserted or incremented exactly and one IN is logged; failure: nothing changes; healthy, with good arguments and the key free, it succeeds if and only if an `int64` holds the new total, and a CHECK refuses it otherwise |
| Service.Inventory.TransferStock | services/inventory/internal/application/usecases/transfer.go:15-117 | success: the quantity leaves one cell and reaches the other exactly, two movements are logged; failure: nothing changes; healthy, with good arguments and the keys free, it succeeds if and only if the source has it available and the destination can hold it; each refusal has its cause |
| Service.Inventory.UpdateSafetyStockLevel | services/inventory/internal/application/usecases/safety.go:8-34 | the level of an existing row, nothing for a missing one, and an alert exactly when the new level exceeds what is available; healthy, it succeeds |
| Service.Inventory.FindReservation | services/inventory/internal/application/usecases/reserve.go:106-121 | finds a live reservation with the same order, cell and quantity exactly when there is one |
| Service.Inventory.HoldCell | services/inventory/internal/application/usecases/reserve.go:123-174 | guards, the exact hold under a fresh id with the 30-minute expiry, the meaning of the two refusals, and no failure of any other kind but the database's |
| Service.Inventory.ReserveStock | services/inventory/internal/application/usecases/reserve.go:49-196 | the answer fits the tables, the tables change by exactly its effect, the invariant holds and the keys are as before; healthy and with the keys free, it succeeds if and only if it was made already or the quantity is available: in the named warehouse, or in some single one |
| Service.Inventory.ReserveBatch | services/inventory/internal/delivery/grpc/server_full.go:23-53 | the final state is the left fold of single reserves over the items, the reply reports them, and healthy with no key set every failed item has its cause in the arguments or the tables |
| Service.Inventory.GetStockBySKU | services/inventory/internal/delivery/grpc/server_full.go:71-82 | the wrapped sums of availability and reserved over the SKU's rows |
| Accounting.CommitIsApply | services/inventory/internal/infra/postgres/repo_full.go:35-46 | publishing the privately prepared rows equals applying the effects |
| Accounting.CommitSpares | services/inventory/internal/application/usecases/release.go:31-36 | a commit disturbs no row, missing row or order another process relies on, by the keys and row locks both hold |
| Accounting.StepKeepsGood | services/inventory/internal/application/usecases/reserve.go:66-174 | the inductive invariant of the interleaved processes survives every step while no lease has run out under its holder |
| Accounting.ConcurrentAccounting | services/inventory/internal/application/usecases/cleanup.go:34-111 | in every state reachable without a lease running out mid-call, the committed tables are sound (counters equal sums, rows exist, live reservations are unique) and the log replays to them |
| Serialisability.PlanShifts | services/inventory/internal/application/usecases/release.go:44-107 | a listed settlement can be moved before everything that committed since its listing |
| Serialisability.DoesAfterPlan | services/inventory/internal/application/usecases/transfer.go:61-75 | a call that does not concern the order succeeds with the same effects after that settlement as before it |
| Serialisability.Serialisable | services/inventory/internal/application/usecases/release.go:31-111 | strict serialisability: some order of exactly the committed calls, run one at a time, has their effects and ends in the committed stock and reservation tables, and respects which call had committed before another started |
| Serialisability.SettlesOnceConcurrently | services/inventory/internal/application/usecases/release.go:31-94 | in the serial order of a schedule without a lease running out mid-call every reservation is held once and settled at most once |
| RowSafety.RowsStayInBounds | services/inventory/internal/domain/entities/product_stock.go:16-40 | under every schedule, leases expiring or deleted at any time, every committed and every proposed row has 0 <= reserved <= total within `int64` |
| RowSafety.NoLostUpdate | services/inventory/internal/infra/postgres/repo_full.go:22-46 | under every schedule a commit leaves each row it had read as the current committed row with its own effects in exact integers, settlements stopping at zero, and every row it did not write alone |
| RowSafety.LedgerStaysInStep | services/inventory/internal/application/usecases/receipt.go:44-60 | under every schedule a commit keeps the total of a cell in step with the movement log if and only if it does not insert its row blind over one with stock and, being a confirmation, takes no more than there is |
| LockDiscipline.FinishedLeavesNoKey | services/inventory/internal/application/usecases/transfer.go:37-53 | a use case that runs to its end leaves no key of its own set, under every schedule |
| LockDiscipline.UnlocksItsOwnKey | services/inventory/internal/application/usecases/cleanup.go:52-59 | while no lease runs out mid-call, a process deletes only its own order and stock keys |
| LockDiscipline.KeysExclude | services/inventory/internal/infra/redis/cache.go:34-40 | and no two processes in flight hold the same order or stock key |
| LockDiscipline.LateDeletionIsForeign | services/inventory/internal/application/usecases/reserve.go:74-98 | under every schedule the deferred deletion of a wildcard key already given back removes another process's lease if and only if the key is set at that moment |
| LockDiscipline.SoloWildcardsAreOwn | services/inventory/internal/application/usecases/reserve.go:66-103 | as long as no two automatic reserves of a SKU are in flight with its wildcard key to delete, no wildcard deletion removes another process's lease, whatever expires |
| Hazards.ExpiredLeaseLosesReceipt | services/inventory/internal/application/usecases/receipt.go:44-55 | a schedule in which a lease runs out mid-call and a receipt is lost |
| Hazards.WildcardDoesNotExclude | services/inventory/internal/application/usecases/reserve.go:74-103 | a schedule with every lease in time in which the deferred deletion of the wildcard key hits another process's lease |
| Pricing.Trim | services/order-service/internal/application/usecases/order.go:114 | no white space at either end, blank exactly for white space |
| Pricing.ExactTotal | services/order-service/internal/application/usecases/order.go:111-143 | grouping by SKU and pricing exactly gives the item-by-item total |
| Pricing.AggregationIsExactUnlessItOverflows | services/order-service/internal/application/usecases/order.go:121-142 | the aggregated total equals the item-by-item total if and only if no SKU with a non-zero price adds up beyond `int64`, and never exceeds it |
| Pricing.AggregationCanOverflow | services/order-service/internal/application/usecases/order.go:121 | two lines of the largest quantity at price 1 total -2 |
| Pricing.AddUp | services/order-service/internal/application/usecases/order.go:135-143 | the total does not depend on the order in which the map is visited, and the missing SKUs are exactly those without a price |
| Pricing.CalculateTotal | services/order-service/internal/application/usecases/order.go:107-144 | the aggregated total over the trimmed items that count and have a price whenever there is a client and the catalog answers; 0 otherwise |
| Pricing.OrdersCalculate | api-gateway/internal/app/server.go:977-1025 | which of its five answers is given exactly when, with the unknown SKUs or the aggregated total |
| Pricing.GatewayAgrees | api-gateway/internal/app/server.go:981-1025 | for lines whose SKUs are already trimmed, a total the gateway answers is the one the order service answers for the same catalog, and it is the item-by-item total if and only if no priced SKU overflows |
| Pricing.AskBoth | services/order-service/internal/application/usecases/order.go:107-144 | the code of both services, asked about the same lines, returns equal totals |

## Left out

- Events on `inventory.stock.reserved`, `.released`, `.confirmed`, `.received` and `.transferred`, and their consumers: only the low-stock alerts are modelled.
- Rows that `FOR UPDATE SKIP LOCKED` passes over in the first listing of a cleanup: in `Protocol` the found orders are any subset of the due ones, and a serial cleanup has them as a parameter; `Service.Inventory.FindExpired` runs alone and finds all.
- Redis key strings: keys are structured values, so no two different keys render alike.
- Warehouse ids as UUID text: they are canonical values, compared as such everywhere, and the case-insensitive warehouse lookup is membership.
- Trimming of arguments in the inventory service: arguments come trimmed, and blank ones are refused as the code does.
- The id that ReleaseStock gives its movements, which is not a UUID while the column is: the release is modelled as intended. Reservation ids are fresh and never reissued, movement ids and timestamps are not modelled.
- Failures of the deferred `DEL`s: they succeed in `Service`; a lost one equals a crash in `Protocol`, after which the key waits for its TTL.
- Deadlocks, statement errors and context cancellation: any transaction may fail at any point, with no claim when.
- Serialisability.Serialisable: the movement log is not compared in order, as release and confirm are placed at their listing and log at their commit; `Accounting.ConcurrentAccounting` covers what the log adds up to.
- Serialisability.Serialisable: a reserve that finds its reservation already there commits nothing and is not part of the order; retries are covered by `Placement.RetryReturnsTheSame`.
- Protocol: the row read and the private write of a settlement, a reserve and a safety update are one step, as the row is locked from the read on; receipts and transfers, which can meet a missing row, take them apart.
- Progress: nothing is said about waiting, fairness or a process getting its keys.
- AdjustOrderItemQuantity, order statuses, the stock snapshot cache, catalog and warehouse maintenance, low-stock listings, authentication, HTTP and gRPC plumbing.
- Rounding of `float64` prices and totals: prices are exact.
