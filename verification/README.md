# Verified model of the manufacturing ERP core

The repository is a multi-tenant ERP: NestJS services over PostgreSQL that move
stock, keep double-entry books, settle invoices and plan production. This
project models the parts of those services in which several functions, several
tables or several concurrent transactions have to agree, and proves what they
keep over every run.

A table is a `seq` of rows (a row's id is its index) or a `map`. Requests carry
amounts with any number of decimals, as the DTOs admit them: reals in units of
10^-4. A `NUMERIC(18,4)` column rounds each value it receives, so stored amounts
are integers in the same unit. Sums over a request are taken before rounding, as
the services take them; what this costs is part of the results. Where the source
works by updating state, a class or a method with loops carries the same steps
and is proved equal to a function or a relation; the properties over all runs
are proved about that function or relation.

## Components

| files | contents |
|---|---|
| `StockLedger`, `StockLock`, `StockWriters`, `StockProtocol`, `StockChecks` | on-hand stock as a signed sum, the lock order, the four outbound writers, all their interleavings, and exactly what the writers let through |
| `Books`, `BooksInvariant`, `LedgerBalance`, `Reversals` | journals, periods, years, what they keep over every run, whether the ledger balances, reversing |
| `RunningBalance`, `BalanceOrder`, `AccountingTables`, `AutoPost`, `Reports` | the running balances and their cache, exactly when they stay right, the tables, idempotent posting, the three reports |
| `MrpRuns`, `MrpTables`, `MrpPasses` | trigger, cancel, reconciler, queue and worker of an MRP run; whole reconciliation passes, as calls and statement by statement |
| `Allocations`, `Payables`, `Receipts`, `PaymentChecks` | payments spread over invoices, on the supplier and on the customer side, and exactly which are accepted |
| `Entries`, `ControlAccounts` | the journals that other services post, and the ledger's control accounts against the documents |
| `Billing`, `BillingInvariant`, `BillingTables`, `OrderProgress` | deliveries and invoices of a sales order, with the stock and the accounts they move, and how far the order is |
| `InvoiceTotals` | rounding in invoice and order totals |
| `BomForest`, `BomTables` | bill-of-material items, the recursive explosion, the tree builder |
| `Common`, `Sums`, `Rounding`, `Sorting` | small types, finite sums, rounding each against rounding the sum, insertion sort |

## Where code, schema and documentation disagree

The model follows the code together with the tenant migrations it runs on.

* `journal_entries.reversal_of` is a `BIGINT` foreign key
  (`src/database/migrations/tenant/009_create_accounting.sql:97-98`), but
  `reverse` writes the journal *number*, a text such as `JE-2026-00001`
  (`src/modules/accounting/services/journal-entry.service.ts:476-480`). On the
  migrated schema no reversal ever commits. The column's type is a parameter of
  the model; what a reversal achieves is proved for a text column.
* `create` admits journals whose totals differ by up to 0.01, but the constraint
  `chk_journal_balanced` lets only those be posted whose stored totals are equal.
  Any other draft can never be posted, nothing deletes it, and its period and year
  can never be closed.
* The constraint compares totals that were rounded once, while the ledger carries
  lines that were rounded one by one. Three debits of 33.33333 against a credit of
  100 post, and the ledger then holds 99.9999 against 100.0000; such a journal can
  never be reversed. The ledger balances exactly when the posted journals' rounded
  debits add up to their rounded credits, as they do at four decimals.
* A material consumption checks the unrounded sum of its lines and stores each line
  rounded. Two lines of 1.00005 pass against 2.0001 on hand and leave -0.0001. For a
  consumption every stock that passes its check stays non-negative exactly when, for
  each key, the rounded quantities do not exceed their sum rounded up.
* A payment stores its total rounded once, its allocations rounded one by one: two
  allocations of 33.33335 make a payment of 66.6667 that pays 66.6668.
* The active period of a date is looked up by days, but `create` compares moments
  with midnight of the period's last day. A posting after midnight of that day finds
  the period and is then refused by it.
* `post` takes an account's previous balance from the row with the greatest
  `created_at`, which defaults to `NOW()`, the start of the transaction. All balances
  of a run and of any one further posting are sure to be right exactly when each
  journal names an account once and journals sharing an account commit in the order
  in which their transactions began. Two lines on one account, or a transaction
  that began earlier and waited for the period's lock, break this; the next posting
  may or must then continue from the wrong row. The ledger's debits and credits are
  not affected.
* `paid_amount <= total_amount`
  (`src/database/migrations/tenant/014_transactional_integrity.sql:37-51`) makes
  the services' 0.01 tolerance without effect.
* `uq_inventory_movement_source_document` allows one movement per document.
  A stock count with both surpluses and shortages writes two and never commits;
  neither does a second consumption of one work order, or a production result
  after a consumption, since both carry the work order's reference.
* `stock_summary` and `getStockOnHand` agree except for a transfer whose source
  and target are the same warehouse, which the first counts as zero and the
  second as an increase; the movement service refuses such a transfer.
* The completeness check of a stock count compares two numbers of items, so a
  submission that repeats an item can leave another uncounted.
* A failed run that may be retried beside an active run makes every
  reconciliation pass end with a unique violation before stuck runs are looked at.
* The state diagram in the repository's `README.md:40-50` has no edge from `running`
  to `failed_permanent`; the reconciler takes it when a stuck run has no retry left.
* `isBalanced` of the balance sheet leaves current earnings out, so on an exactly
  balanced period it holds only while the net income is below 0.01.
* A sales order whose deliveries so far are all invoiced becomes `invoiced` even
  when much of it is still to be delivered; from then on nothing more of it can
  be delivered, invoiced or cancelled.
* A delivery line may name an item of another order; then more of that item can
  be invoiced than was delivered.
* An invoice over goods of no value is never accepted, because its journal lines
  would be zero.
* A delivery whose total cost is positive but rounds to zero at four decimals can
  never be confirmed, because its journal lines would be zero.
* One tenant whose reconciliation pass cannot finish ends the job for every tenant
  after it, since the `try` block encloses the loop over the tenants.
* `deleteItem` says that it removes an item with its children, but fails when a
  child has children, because `parent_item_id` has no cascade.

## Model

| member | source | states |
|---|---|---|
| StockLedger.RowAgreesIff | src/database/migrations/tenant/016_correct_stock_summary_transfers.sql:6-43 | for one movement line, the two-leg view and the CASE of the on-hand query give the same number if and only if the line is not a transfer from the queried warehouse to itself |
| StockLedger.SummaryAgrees | src/database/stock-lock.ts:34-63 | over a ledger of movements that pass validation, the snapshot view and the on-hand query agree on every key |
| StockLedger.TransferConserves | src/database/stock-lock.ts:40-58 | a valid transfer leaves the total of every variant and batch over all warehouses unchanged |
| StockLock.KeyStringInjective | src/database/stock-lock.ts:10-12 | two keys have the same lock string only if they are equal; in particular no batch number collides with "no batch" |
| StockLock.BeforeTotal | src/database/stock-lock.ts:20 | the comparison used for sorting is total on lock strings |
| StockLock.BeforeTransitive | src/database/stock-lock.ts:20 | and transitive |
| StockLock.Dedupe | src/database/stock-lock.ts:18-20 | the deduplicated list has the same keys, each once |
| StockLock.LockOrder | src/database/stock-lock.ts:18-20 | the acquisition order is strictly increasing and has exactly the requested keys |
| StockLock.OrderIsCanonical | src/database/stock-lock.ts:18-22 | a set of keys has only one such order, so all callers acquire common keys in the same order |
| StockLock.LockTable.LockStockKeys | src/database/stock-lock.ts:22-31 | the loop takes a prefix of that order, each key free or its own before, and changes nothing else; if the prefix is proper, the next key belongs to another transaction |
| StockWriters.AggregateDemand | src/modules/sales-order/services/delivery-order.service.ts:305-329 | the map loop yields one requirement per key, for exactly the demanded keys, each with the sum of its lines |
| StockWriters.PlanOutbound | src/modules/inventory/services/inventory-movement.service.ts:411-468 | the plan built for an outbound movement locks its keys in lock order and checks the aggregated demand of each |
| StockWriters.OutboundIsSafe | src/modules/inventory/services/inventory-movement.service.ts:430-468 | such a plan, of stored quantities, locks every key it checks and, once its checks pass, lowers no key below zero |
| StockChecks.DemandsSum | src/modules/inventory/services/inventory-movement.service.ts:430-445 | the demands that are checked for a key add up to exactly what the items take from it |
| StockChecks.OutboundPassesIff | src/modules/inventory/services/inventory-movement.service.ts:445-462 | a movement passes its checks if and only if every key holds what its items take from it, incoming items not counted |
| StockChecks.OutboundPassesIffNonNegative | src/modules/sales-order/services/delivery-order.service.ts:305-339 | an outbound movement passes if and only if it leaves no key below zero |
| StockChecks.OutboundSucceedsIff | src/modules/sales-order/services/delivery-order.service.ts:305-375 | a delivery or outbound movement whose transaction is left alone is committed if and only if it leaves no key below zero and its document has not moved stock before |
| StockChecks.UndisturbedCommits | src/database/stock-lock.ts:18-63 | each of the four writers gets through when its checks pass and its documents are new |
| StockWriters.OpnameIsSafe | src/modules/inventory/services/stock-opname.service.ts:345-371 | the same for a stock count with distinct keys, although it checks every shortage on its own |
| StockChecks.OpnamePassesIff | src/modules/inventory/services/stock-opname.service.ts:345-371 | a stock count locks exactly the keys whose count differs and passes if and only if its adjustments leave no key below zero |
| StockChecks.ConsumptionPassesIff | src/modules/production/services/work-order.service.ts:525-560 | a consumption passes if and only if every key holds the unrounded sum requested of it |
| StockChecks.ConsumptionSucceedsIff | src/modules/production/services/work-order.service.ts:525-600 | a consumption whose transaction is left alone is committed if and only if every key holds that sum and its work order has not moved stock before |
| StockWriters.ConsumptionIsSafeIff | src/modules/production/services/work-order.service.ts:525-600 | a consumption keeps every stock that passes its checks non-negative if and only if on each key its rounded lines do not exceed their sum rounded up |
| StockWriters.UsuallyFits | src/modules/production/services/work-order.service.ts:525-600 | they never do with one line for each key, nor with at most four decimals |
| StockWriters.OvershootBound | src/database/migrations/tenant/003_create_inventory.sql:56 | they exceed it by at most 0.00005 for each line |
| StockWriters.ApplyCounts | src/modules/inventory/services/stock-opname.service.ts:215-252 | the loop stores for each snapshot row the last submitted count with its id |
| StockWriters.AllCountedIff | src/modules/inventory/services/stock-opname.service.ts:202-213 | with as many counts as items, every item ends up counted if and only if the submitted ids are distinct and belong to this count |
| StockWriters.OpnameNet | src/modules/inventory/services/stock-opname.service.ts:373-453 | the adjustment movements change each key by exactly its actual minus system quantity |
| StockWriters.OpnameReaches | src/modules/inventory/services/stock-opname.service.ts:345-453 | after completion a counted key stands at its on-hand before plus the difference, hence at the counted value if nothing moved since the snapshot; other keys are unchanged |
| StockWriters.OpnameCommitsIff | src/database/migrations/tenant/014_transactional_integrity.sql:3-6 | on a ledger without movements of this document, the adjustments satisfy the unique index if and only if not both a surplus and a shortage occur |
| StockProtocol.WriterPlansAreSafe | src/modules/production/services/work-order.service.ts:525-600 | each of the four writers locks what it checks and checks what it lowers; once its checks pass it lowers no key below zero, a consumption by no more than its rounding exceeds the check |
| StockProtocol.StepKeepsInv | src/database/stock-lock.ts:18-63 | every lock, check, commit, abort and lock-free inbound step keeps the locks ascending and every passed check valid until its commit, and documents distinct |
| StockProtocol.StockStaysAbove | src/modules/production/services/work-order.service.ts:525-600 | in every interleaving of any number of delivery confirmations, movement confirmations, stock counts and material consumptions with inbound commits, no key is further below zero than the largest excess of any one consumption; excesses never add up |
| StockProtocol.StockNeverNegative | src/modules/sales-order/services/delivery-order.service.ts:305-355 | hence, if every consumption fits in the sense of StockWriters.ConsumptionIsSafeIff, no key is ever negative in a committed state |
| StockProtocol.StockNearlyNonNegative | src/database/migrations/tenant/003_create_inventory.sql:56 | whatever is requested, no key is further below zero than 0.00005 for each line of the longest consumption |
| StockProtocol.ConsumptionGoesBelowZero | src/modules/production/services/work-order.service.ts:538-600 | for every key there is a run that ends with -0.0001 on hand: two lines of 1.00005 against 2.0001 |
| StockProtocol.DocumentMovesStockOnce | src/database/migrations/tenant/014_transactional_integrity.sql:3-6 | once a document's movement is committed, no later step, outbound or inbound, commits another one for it |
| StockProtocol.CommitEnabledIff | src/database/migrations/tenant/014_transactional_integrity.sql:3-6 | a checked transaction with one movement for its document can commit if and only if the document has none yet |
| StockProtocol.InboundEnabledIff | src/modules/production/services/work-order.service.ts:700-712 | so can an inbound movement |
| StockWriters.MovementCommitsIff | src/database/migrations/tenant/014_transactional_integrity.sql:3-6 | the unique index admits one more movement if and only if no movement carries its document |
| StockProtocol.ChainAscends | src/database/stock-lock.ts:22-31 | along a chain of waiting transactions the awaited keys increase strictly |
| StockProtocol.NoWaitCycle | src/database/stock-lock.ts:18-32 | in no reachable state do waiting transactions form a cycle |
| StockProtocol.SomeTransactionProceeds | src/database/stock-lock.ts:18-32 | in every reachable state with transactions, some transaction is not waiting |
| AccountingTables.CheckLines | src/modules/accounting/services/journal-entry.service.ts:167-197 | the two loops find the first objection to the requested lines: unrounded totals first, then each line in order |
| RunningBalance.AgreeIffReadsLast | src/modules/accounting/services/journal-entry.service.ts:326-342 | all stored balances are right if and only if every read returned the balance of the last inserted row of its account and period, for every ledger, also with several lines on one account |
| RunningBalance.ReadIsRightIff | src/modules/accounting/services/journal-entry.service.ts:327-333 | in a right ledger every row the query may return gives the right balance if and only if the rows inserted after each such row cancel out |
| RunningBalance.PostKeepsOrderIff | src/modules/accounting/services/journal-entry.service.ts:326-354 | whatever rows the query returns, a posting leaves right balances and increasing times if and only if its journal names each account once and its transaction began after every row of these accounts |
| RunningBalance.RunKeepsOrderIff | src/modules/accounting/services/journal-entry.service.ts:268-388 | the same over whole runs: every resolution of every read leaves all balances right and times increasing if and only if journals name each account once and those sharing an account commit in the order in which they began |
| BalanceOrder.RunStaysRightIff | src/modules/accounting/services/journal-entry.service.ts:268-388 | for right balances alone: of journals whose lines move their accounts, all balances of the run and of any one further posting are right under every resolution of every read if and only if journals name each account once and those sharing an account commit in the order in which they began |
| RunningBalance.TieMisreads | src/database/migrations/tenant/009_create_accounting.sql:155 | a journal with two lines on one account, posted correctly, lets any later posting read the first of them and store a wrong balance |
| RunningBalance.LateInsertMisreads | src/modules/accounting/services/journal-entry.service.ts:293-333 | after a transaction that began earlier but inserted later, without any tie, every resolution of the next read stores a wrong balance although the ledger before it was right |
| RunningBalance.UpsertTracks | src/modules/accounting/services/journal-entry.service.ts:361-388 | whatever was read, the cache keeps the debit and credit sums and the balance of the last inserted row |
| RunningBalance.CacheMeaning | src/modules/accounting/services/journal-entry.service.ts:361-388 | a cached row holds the debit sum, the credit sum and the last running balance, and in a right ledger the closing balance is debits minus credits |
| RunningBalance.InsertLines | src/modules/accounting/services/journal-entry.service.ts:326-388 | the line loop, with an arbitrary latest row at each read, produces one of the ledgers of that relation and keeps the cache with it |
| AccountingTables.Tables.CreateJournal | src/modules/accounting/services/journal-entry.service.ts:162-266 | the transaction has exactly the outcome and effect of the specification `Books.Create`, with rounded totals beside separately rounded lines, and keeps the books and the cache valid |
| AccountingTables.Tables.PostJournal | src/modules/accounting/services/journal-entry.service.ts:268-409 | the outcome and effect of `Books.Post`, through any resolution of the balance reads; an orderly ledger stays so if the journal is in time; a refused status update undoes the ledger rows |
| AccountingTables.Tables.CreateAndPostJournal | src/modules/accounting/services/journal-entry.service.ts:490-518 | create and post together, or neither, with the same ledger |
| AccountingTables.Tables.ReverseJournal | src/modules/accounting/services/journal-entry.service.ts:411-484 | the outcome and effect of `Books.Reverse`, undone as a whole when reversal_of does not accept the number |
| AccountingTables.Tables.AddPeriod | src/modules/accounting/services/fiscal-period.service.ts:141-218 | a period is added if and only if it lies inside its open year, has a new number and overlaps no other period of the year |
| AccountingTables.Tables.SetPeriodStatus | src/modules/accounting/services/fiscal-period.service.ts:220-281 | a status changes if and only if it leads from open to closed or locked, or from closed to locked, and no draft is in the period |
| AccountingTables.Tables.CloseFiscalYear | src/modules/accounting/services/fiscal-period.service.ts:76-118 | a year is closed if and only if it is open and no period of it is |
| BooksInvariant.CreateKeepsInv | src/modules/accounting/services/journal-entry.service.ts:162-266 | creating a journal keeps the invariant of the books |
| BooksInvariant.AcceptedLinesIff | src/modules/accounting/services/journal-entry.service.ts:167-197 | lines are accepted if and only if there are any, the totals differ by at most 0.01, and each has one side that does not round to zero and nothing on the other |
| BooksInvariant.SkewBound | src/database/migrations/tenant/009_create_accounting.sql:109-117 | lines whose rounded totals agree are stored with debits and credits at most 0.00005 for each line and 0.0001 apart |
| BooksInvariant.ExactlyPostable | src/modules/accounting/services/journal-entry.service.ts:173-197 | lines that already are stored values can be posted if and only if they balance |
| BooksInvariant.PostingTotals | src/modules/accounting/services/journal-entry.service.ts:339-353 | the ledger rows of a journal carry its debit total and its credit total, in its own period only |
| BooksInvariant.PostKeepsInv | src/modules/accounting/services/journal-entry.service.ts:268-409 | so does posting, which adds to its period exactly the difference between the journal's stored debits and credits |
| BooksInvariant.ReverseKeepsInv | src/modules/accounting/services/journal-entry.service.ts:411-484 | so does reversing |
| BooksInvariant.PeriodOpsKeepInv | src/modules/accounting/services/fiscal-period.service.ts:76-281 | so do the four operations on years and periods |
| BooksInvariant.PeriodStatusIff | src/modules/accounting/services/fiscal-period.service.ts:220-281 | a status changes if and only if it is from open without drafts to closed or locked, or from closed to locked |
| BooksInvariant.RunKeepsInv | src/modules/accounting/services/fiscal-period.service.ts:76-114 | over every run: a period that is not open has no draft, a closed year no open period, periods of a year do not overlap and lie inside it, each journal is dated in its period and owns exactly its ledger rows once posted, and every period's debits and credits differ by exactly what its posted journals' stored lines do |
| LedgerBalance.WholeLedgerBalancesIff | src/database/migrations/tenant/009_create_accounting.sql:109-111 | after any run all debits of the ledger equal all credits if and only if the stored debits of the posted journals add up to their stored credits |
| LedgerBalance.WholeLedgerSkewBound | src/modules/accounting/services/journal-entry.service.ts:173-181 | they differ by at most 0.00005 for each line of a posted journal and 0.0001 for the journal; reversed journals and their reversals add nothing |
| LedgerBalance.FourDecimalsBalance | src/modules/accounting/services/journal-entry.service.ts:173-181 | when every request has at most four decimals, the ledger balances exactly, as a whole and in every period |
| LedgerBalance.ThirdsUnbalanceLedger | src/modules/accounting/services/journal-entry.service.ts:238-255 | a run posts three debits of 33.33333 against a credit of 100; the ledger then differs by 0.0001, and no call ever reverses that journal in that state |
| BooksInvariant.ClosedPeriodIsFrozen | src/modules/accounting/services/journal-entry.service.ts:293-305 | the ledger rows of a closed or locked period never change again, and it never reopens |
| BooksInvariant.PostableIff | src/database/migrations/tenant/009_create_accounting.sql:109-111 | a draft can be posted if and only if its stored totals are equal |
| BooksInvariant.StuckDraftForever | src/modules/accounting/services/journal-entry.service.ts:173-181 | a draft within the tolerance whose stored totals differ stays a draft through every later run, and its period and year can never be closed |
| BooksInvariant.StuckDraftReachable | src/modules/accounting/services/journal-entry.service.ts:173-181 | for any two amounts, of any number of decimals, that differ by at most 0.01 and are stored as different positive ones there is a run from empty books that ends with such a draft |
| BooksInvariant.CreateAndPostIff | src/modules/accounting/services/journal-entry.service.ts:199-222 | a request is created and posted if and only if its lines pass the checks before and after rounding with equal rounded totals, the period is open and covers the moment, and the business reference is new |
| BooksInvariant.ApplyEvolves | src/modules/accounting/services/journal-entry.service.ts:162-484 | no transaction does anything to a journal but post a draft whose totals agree or reverse a posted one |
| BooksInvariant.SwapAccepted | src/modules/accounting/services/journal-entry.service.ts:445-474 | swapped lines are accepted, and balance, if and only if the original lines do; swapping twice gives them back |
| Reversals.ReversalIsInverse | src/modules/accounting/services/journal-entry.service.ts:445-484 | a reversal subtracts from the chosen period, on every account, exactly what the original had posted, and touches no other period |
| Reversals.ReversalRestores | src/modules/accounting/services/journal-entry.service.ts:411-484 | posting and then reversing into the same period restores every balance of every period |
| Reversals.ReverseCommitsIff | src/modules/accounting/services/journal-entry.service.ts:411-484 | a reversal commits if and only if the journal is posted, its stored lines balance and not only its totals, the period takes the day, no reversal of it exists and reversal_of is a text |
| Reversals.ReverseNeverCommitsOnBigint | src/database/migrations/tenant/009_create_accounting.sql:97-98 | with the column type of the migration no reversal ever commits |
| Reversals.ReversedOnce | src/modules/accounting/services/journal-entry.service.ts:417-441 | a reversed journal is never changed or reversed again, whatever runs in between |
| AutoPost.RunKeepsStateInv | src/modules/accounting/services/journal-entry.service.ts:490-548 | in every interleaving of callers, each returned id belongs to the journal with the caller's reference, and it is posted or reversed |
| AutoPost.AutoPostIsIdempotent | src/modules/accounting/services/journal-entry.service.ts:490-548 | all calls that return for one business reference return the same id; it is the only journal with that reference and its lines are in the ledger once |
| AutoPost.ConflictFindsJournal | src/modules/accounting/services/journal-entry.service.ts:519-546 | the lookup after a unique violation always finds a journal |
| AutoPost.AttemptEnds | src/modules/accounting/services/journal-entry.service.ts:490-527 | the first transaction returns the new, posted journal if and only if the lines can be posted, the period takes it and the reference is new; it goes on to the lookup if and only if the lines pass their checks, the period takes it and the reference is in use; otherwise it fails and changes nothing |
| AutoPost.ReadEnds | src/modules/accounting/services/journal-entry.service.ts:529-546 | the lookup answers by the one journal with the reference: posted, its id; reversed, an error; a draft is posted next |
| AutoPost.PostEnds | src/modules/accounting/services/journal-entry.service.ts:537-546 | a draft that was found is posted and returned if and only if it still is a draft and its stored totals agree |
| AutoPost.RepeatReturns | src/modules/accounting/services/journal-entry.service.ts:519-548 | in every interleaving a call whose lookup finds its reference posted has returned that journal's id, for good |
| AutoPost.RepeatIsAnswered | src/modules/accounting/services/journal-entry.service.ts:519-548 | in every interleaving a call that conflicts with a posted journal is still on its way to the lookup, has returned that journal, or has failed because it was reversed meanwhile |
| Reports.TrialBalance | src/modules/accounting/services/general-ledger.service.ts:90-148 | the totals over the grouped rows are the debit and credit sums of the period's ledger rows, balanced if and only if they differ by less than 0.01 |
| Reports.Classify | src/modules/accounting/services/general-ledger.service.ts:185-193 | the loop splits the rows by type so that each list's sum is the sum of that type over all rows |
| Reports.ProfitLoss | src/modules/accounting/services/general-ledger.service.ts:150-225 | revenue, cost, expense and net income are ledger sums by account type |
| Reports.BalanceSheet | src/modules/accounting/services/general-ledger.service.ts:227-301 | assets, liabilities and equity are ledger sums by account type |
| Reports.KindsPartition | src/modules/accounting/services/general-ledger.service.ts:90-297 | the six account types together carry all debits minus all credits |
| Reports.ReportsIdentity | src/modules/accounting/services/general-ledger.service.ts:90-297 | assets - liabilities - equity - net income = total debit - total credit, for every ledger and period |
| Reports.BalanceSheetFlagIff | src/modules/accounting/services/general-ledger.service.ts:276-297 | after any run the sheet's flag holds if and only if net income and the rounding difference of the period's journals together are below 0.01 in size |
| Reports.BalanceSheetFlagExact | src/modules/accounting/services/general-ledger.service.ts:276-297 | with at most four decimals in every request net income alone decides |
| Reports.OneSaleUnbalancesSheet | src/modules/accounting/services/general-ledger.service.ts:271-284 | one posted sale of at least 0.01 turns the flag off although the ledger balances |
| MrpRuns.JobIdInjective | src/modules/production/services/mrp-run.service.ts:276-278 | two job ids are equal only for the same tenant and run |
| MrpRuns.StepKeepsInv | src/modules/production/services/mrp-reconciliation.service.ts:59-154 | every step keeps the invariant, and a run's row stays as it is or takes one of the documented transitions (or from running to failed_permanent), which lowers (3 - retry_count, rank) |
| MrpRuns.OneActiveAlways | src/modules/production/services/mrp-run.service.ts:48-95 | over every interleaving at most one run is pending or running and no retry_count exceeds 3 |
| MrpRuns.TerminalIsFinal | src/modules/production/services/mrp-run.service.ts:239-274 | a completed, cancelled or permanently failed run keeps its row for ever, whatever jobs stay queued |
| MrpRuns.FinitelyManyChanges | src/modules/production/services/mrp-reconciliation.service.ts:71-153 | a run changes status at most 15 times and is put back to pending exactly retry_count times, so at most 3 |
| MrpPasses.TakenIff | src/modules/production/services/mrp-run.service.ts:239-274 | the steps take a run from one status to another if and only if the transition is documented, or is that of a stuck run without retries left |
| MrpTables.Tables.TriggerRun | src/modules/production/services/mrp-run.service.ts:30-155 | creates a pending run exactly when none is active, and queues it if the queue accepts |
| MrpTables.Tables.RetryFailed | src/modules/production/services/mrp-reconciliation.service.ts:71-100 | the retry loop completes if and only if at most one failure waits and no run is active then; completed, it has requeued exactly the retryable failures |
| MrpTables.Tables.Unstick | src/modules/production/services/mrp-reconciliation.service.ts:112-153 | a stale running row without an active job becomes pending with one more retry and a live job if and only if it has had fewer than three, and fails permanently otherwise; all other rows stay |
| MrpTables.Tables.ReconcileTenant | src/modules/production/services/mrp-reconciliation.service.ts:59-154 | what a whole pass makes of every run, row by row, and exactly when it cannot finish; then no row beside an active run changes |
| MrpPasses.AfterPassIs | src/modules/production/services/mrp-reconciliation.service.ts:71-153 | the row that a finished pass leaves, for every status, retry count and job |
| MrpPasses.PassResult | src/modules/production/services/mrp-reconciliation.service.ts:59-154 | every undisturbed sequence of the reconciler's statements from start to end makes of the rows exactly what the call promises, also when a unique violation ends it |
| MrpPasses.ReconcilerProceeds | src/modules/production/services/mrp-reconciliation.service.ts:59-154 | wherever the reconciler is, it has a next statement |
| MrpTables.FailureBesideActiveRun | src/modules/production/services/mrp-reconciliation.service.ts:71-86 | a failure to retry beside an active run is reachable from an empty table |
| MrpTables.ReconcileAll | src/modules/production/services/mrp-reconciliation.service.ts:35-57 | the job reaches every tenant if and only if every pass can finish; the first that cannot ends it, and the tenants after it are untouched |
| Allocations.PaidGrows | src/modules/accounting/services/ap.service.ts:285-342 | when every document grows by what is stored for it, the documents together grow by the stored rows |
| Allocations.PaymentVersusRows | src/modules/accounting/services/ap.service.ts:240-280 | a payment and its rows differ by exactly the drift between rounding the sum and summing the rounded: at most 0.00005 for each row and for the total, nothing at four decimals |
| Payables.PaysKeepsInv | src/modules/accounting/services/ap.service.ts:134-342 | an admitted payment keeps both tables equal to the sum of allocations, within the amounts, and itself within the rounding of its rows |
| Payables.StepKeepsInv | src/modules/purchase-order/services/vendor-invoice.service.ts:297-334 | so do invoicing and both halves of a cancellation that another transaction interleaves with |
| Payables.HistoryKeepsInv | src/modules/accounting/services/ap.service.ts:125-350 | over every history: paid equals the sum of allocations in both tables, never more than the amount, with the status that this sum calls for; a payment and its rows differ by at most 0.00005 for each row and for the total; a cancelled invoice has nothing paid |
| Payables.PaymentsVersusPaid | src/modules/accounting/services/ap.service.ts:240-342 | over every history payments exceed the paid amounts by exactly the sum of these drifts, and by nothing at four decimals |
| Payables.PaymentsMayDiffer | src/modules/accounting/services/ap.service.ts:240-342 | a history of two allocations of 33.33335 ends with 66.6667 in payments and 66.6668 paid |
| Payables.CancelledForever | src/modules/purchase-order/services/vendor-invoice.service.ts:297-334 | a cancelled vendor invoice is never paid or revived |
| PaymentChecks.CancelIff | src/modules/purchase-order/services/vendor-invoice.service.ts:318-334 | a cancellation that was begun leaves the invoice cancelled if and only if nothing is paid by then, and touches nothing else |
| PaymentChecks.CancelBeginsIff | src/modules/purchase-order/services/vendor-invoice.service.ts:297-317 | it can be begun if and only if the invoice is not marked paid and nothing is paid |
| Payables.Objection | src/modules/accounting/services/ap.service.ts:130-239 | the reads before the transaction and the checks on locked rows object if and only if the bank account or the period is missing, the request is empty, repeats a transaction, or one of them sees a row that is missing, of another supplier, paid, exceeded by more than 0.01, or of a cancelled invoice |
| PaymentChecks.LockedPaymentIff | src/modules/accounting/services/ap.service.ts:184-239 | the checks on locked rows and the constraints accept a request if and only if it names no transaction twice and each is of this supplier, of an invoice that is not cancelled, with room for the stored amount, partly paid or not |
| PaymentChecks.EarlierPaymentIff | src/modules/accounting/services/ap.service.ts:146-167 | the earlier reads accept an allocation if and only if its transaction is of this supplier, not fully paid and exceeded by at most 0.01 |
| PaymentChecks.UndisturbedPaymentIff | src/modules/accounting/services/ap.service.ts:130-239 | undisturbed, the whole call accepts exactly the requests of PaymentChecks.LockedPaymentIff |
| Payables.Settle | src/modules/accounting/services/ap.service.ts:285-342 | the allocation loop succeeds if and only if no allocation exceeds what is outstanding, and then every transaction and its invoice have grown by their allocation |
| Payables.Tables.CreatePayment | src/modules/accounting/services/ap.service.ts:125-350 | commits if and only if the bank account and the period were found, the earlier reads and the checks admit the request, nothing exceeds what is outstanding and the period still takes the moment; then it posts payables against the account of that bank over the unrounded total; otherwise nothing changes |
| Receipts.ReceivesKeepsInv | src/modules/sales-order/services/customer-invoice.service.ts:590-702 | a customer payment keeps paid amounts equal to the sum of allocations and within their bound |
| Receipts.HistoryKeepsInv | src/modules/sales-order/services/customer-invoice.service.ts:572-702 | over every history an invoice is exceeded by at most 0.01 over all its receipts together, and by nothing once the constraint is in place; its status says unpaid, partial or paid accordingly; a receipt and its rows differ by at most 0.00005 for each row and for the total |
| Receipts.ReceiptsVersusPaid | src/modules/sales-order/services/customer-invoice.service.ts:627-702 | over every history receipts exceed the paid amounts by exactly the sum of these drifts, and by nothing at four decimals |
| Receipts.UpdatePaidAmounts | src/modules/sales-order/services/customer-invoice.service.ts:688-702 | the loop writes to each allocated invoice its sum of rows and status, unless the constraint refuses one |
| Receipts.UndisturbedAdmits | src/modules/sales-order/services/customer-invoice.service.ts:602-625 | when nothing changes between the earlier reads and the locks, those reads decide alone and admit no excess |
| PaymentChecks.UndisturbedReceiptIff | src/modules/sales-order/services/customer-invoice.service.ts:602-660 | undisturbed, a receipt is accepted if and only if it names no invoice twice, each is this customer's, and none is asked for more than it misses, before rounding |
| PaymentChecks.LockedReceiptIff | src/modules/sales-order/services/customer-invoice.service.ts:627-660 | the locked invoices and, where it has been added, the constraint leave an excess of 0.01 and of nothing, respectively |
| Receipts.Tables.CreateReceipt | src/modules/sales-order/services/customer-invoice.service.ts:572-745 | commits if and only if the customer is active, the earlier reads admit the request without excess, the locked invoices within the tolerance the tables leave, an active period is found and takes the moment, and the receipt has no journal yet; then it posts cash against receivables over the unrounded total |
| Entries.PostInside | src/modules/accounting/services/fiscal-period.service.ts:283-310 | a nested posting without a period succeeds if and only if a period is found, takes the moment, and the reference is new |
| Entries.ActiveTakesIff | src/modules/accounting/services/journal-entry.service.ts:213-222 | a period found by days takes the moment if and only if it is not after midnight of the period's last day |
| Entries.PostsInIff | src/modules/accounting/services/journal-entry.service.ts:213-222 | so such a posting finds a period and passes it if and only if some period is found and this is not the case |
| Entries.LastDayRefuses | src/modules/accounting/services/journal-entry.service.ts:213-222 | on the last day of the only period the period is found and every posting after midnight fails |
| Entries.CreateAndPostMoves | src/modules/accounting/services/journal-entry.service.ts:490-518 | it moves every account by exactly the net of the lines as stored |
| ControlAccounts.ControlAccountsAgree | src/modules/sales-order/services/customer-invoice.service.ts:341-390 | over every run of invoices, receipts, supplier payments from any bank account, cancellations and other accounting, the ledger's receivables equal the outstanding amounts of all customer invoices, and its payables the paid amounts, up to exactly the rounding drift of the receipts and payments and what the other accounting did to these accounts |
| ControlAccounts.FourDecimalsAgree | src/modules/accounting/services/ap.service.ts:240-280 | with at most four decimals that drift is zero |
| BillingInvariant.StepKeepsInv | src/modules/sales-order/services/customer-invoice.service.ts:192-329 | every step of any number of transactions keeps links, counts and statuses consistent |
| BillingInvariant.DeliveryInvoicedOnce | src/modules/sales-order/services/customer-invoice.service.ts:222-238 | in every reachable state a delivery is on at most one invoice, of its own order, and confirmed, also when one order is invoiced concurrently |
| BillingInvariant.InvoicedVersusDelivered | src/modules/sales-order/services/customer-invoice.service.ts:290-319 | invoiced plus open quantity of an item equals delivered plus what other orders' deliveries contributed |
| BillingInvariant.InvoicedWithinDeliveredIff | src/modules/sales-order/services/sales-order.service.ts:406-446 | quantity_delivered is the sum over confirmed deliveries; invoiced stays within it if and only if foreign lines fit into the open quantity, hence always when lines name items of their own order |
| BillingInvariant.FullyInvoicedIff | src/modules/sales-order/services/customer-invoice.service.ts:315-319 | with own lines the comparison of quantities holds if and only if every confirmed delivery is on an invoice |
| BillingInvariant.InvoicedStatusIff | src/modules/sales-order/services/customer-invoice.service.ts:320-329 | an invoice sets 'invoiced' exactly when no confirmed delivery of the order is left without one, and 'partial' otherwise |
| BillingInvariant.InvoicedForever | src/modules/sales-order/services/delivery-order.service.ts:246-260 | an invoiced order keeps its status and its item quantities through every later step |
| OrderProgress.ConfirmedStatusIff | src/modules/sales-order/services/sales-order.service.ts:406-473 | confirming a delivery makes its order delivered if and only if its confirmed deliveries bring every item in full, and else partly delivered if and only if they bring anything of it |
| OrderProgress.StatusMoves | src/modules/sales-order/services/delivery-order.service.ts:246-260 | whatever transaction commits, an order's status changes only in the listed ways, and only confirmed and partly delivered orders have more delivered |
| OrderProgress.CancelledForever | src/modules/sales-order/services/delivery-order.service.ts:246-260 | a cancelled order stays cancelled, and nothing more is delivered of it |
| OrderProgress.DeliveredInParts | src/modules/sales-order/services/delivery-order.service.ts:246-260 | for every split of a quantity there is a run in which the first part leaves the order partly delivered, the second delivers it, and an invoice over both completes it |
| BillingInvariant.RemainderStranded | src/modules/sales-order/services/customer-invoice.service.ts:320-329 | for every ordered quantity there is a run after which part of it is undelivered and stays so whatever follows |
| BillingInvariant.ForeignLineOverInvoices | src/modules/sales-order/services/delivery-order.service.ts:487-516 | without own lines there is a run after which more is invoiced of an item than was delivered |
| BillingTables.Tables.UpdateDeliveredQuantity | src/modules/sales-order/services/sales-order.service.ts:406-473 | the loop recounts every item of the order and no other, then sets the order's status from them |
| BillingTables.CheckStock | src/modules/sales-order/services/delivery-order.service.ts:330-339 | the check passes if and only if every key on hand covers the sum of what all lines take from it |
| BillingTables.ShipsIff | src/modules/sales-order/services/delivery-order.service.ts:305-375 | a delivery is let out if and only if every key holds the sum of the quantities of the lines that come from it, and it has not moved stock before |
| BillingTables.CogsIsSum | src/modules/sales-order/services/delivery-order.service.ts:18-25 | the cost of a delivery is the sum of quantity times unit cost over its lines |
| BillingTables.PostCogs | src/modules/sales-order/services/delivery-order.service.ts:377-432 | without cost there is no journal; with cost it is accepted if and only if the cost does not round to zero, a period is found and takes the moment, and the delivery has no journal yet |
| BillingTables.CogsMoves | src/modules/sales-order/services/delivery-order.service.ts:377-432 | the cost journal moves exactly that sum, at four decimals, from inventory to cost of goods, and nothing else |
| BillingTables.Tables.ConfirmDelivery | src/modules/sales-order/services/delivery-order.service.ts:231-437 | commits if and only if the delivery is a draft, its order confirmed or partial, its stock sufficient and not yet moved, and its cost journal accepted; with exactly the specified effect on order and stock ledger, and on every account |
| BillingTables.UniqueSorted | src/modules/sales-order/services/customer-invoice.service.ts:206 | the requested ids, ascending, each once |
| BillingTables.PricedLinesAt | src/modules/sales-order/services/customer-invoice.service.ts:240-258 | every delivered line is priced with its own quantity and the unit price, discount and tax of its order item, each in its place |
| BillingTables.BilledDue | src/modules/sales-order/services/customer-invoice.service.ts:27-44 | the totals are the sums over all lines of the invoiced deliveries of net charge and tax, written from delivered quantity and price columns |
| BillingTables.PostInvoice | src/modules/sales-order/services/customer-invoice.service.ts:341-390 | the invoice's journal is accepted if and only if something is charged, a period is found and takes the moment, and the invoice has no journal yet |
| BillingTables.InvoiceMoves | src/modules/sales-order/services/customer-invoice.service.ts:341-390 | the invoice's journal adds net and tax to receivables, and gives the net to revenue and the tax to output tax, and moves no other account |
| BillingTables.Tables.CreateInvoice | src/modules/sales-order/services/customer-invoice.service.ts:183-390 | commits if and only if the order may be invoiced, every requested delivery is its own, confirmed and on no invoice, something is charged, and the period takes the journal; then every account moves by what the deliveries are charged; otherwise nothing changes |
| InvoiceTotals.CalculateDeliveryInvoiceTotals | src/modules/sales-order/services/customer-invoice.service.ts:27-44 | the running, repeatedly rounded totals equal the sums of separately rounded lines, and the total is exactly subtotal plus tax |
| InvoiceTotals.TotalsIgnoreOrder | src/modules/sales-order/services/customer-invoice.service.ts:240-258 | the totals do not depend on the order in which the lines are read |
| InvoiceTotals.TotalsError | src/modules/sales-order/services/customer-invoice.service.ts:27-44 | n lines put the subtotal within n * 0.0001 and the tax within n * 0.00015 of the unrounded values |
| InvoiceTotals.ExactAmounts | src/modules/sales-order/services/customer-invoice.service.ts:27-44 | the unrounded net and tax of a line in plain percentages |
| InvoiceTotals.OnePiece | src/modules/sales-order/services/customer-invoice.service.ts:27-44 | one piece at 100.00 less 10 per cent plus 11 per cent: 90.00 and 9.90 |
| InvoiceTotals.InvoiceJournalBalances | src/modules/sales-order/services/customer-invoice.service.ts:341-376 | the generated lines balance with zero difference, and are accepted if and only if something is charged |
| InvoiceTotals.CalculateOrderTotals | src/modules/sales-order/services/sales-order.service.ts:479-505 | the loop's totals are the rounded sums, and the header total is within 0.01 of subtotal plus tax |
| InvoiceTotals.SplitRounding | src/modules/purchase-order/services/purchase-order.service.ts:510-515 | header total and subtotal plus tax are equal if and only if the two rounding residues together stay within half a cent |
| InvoiceTotals.HeaderVersusLines | src/modules/purchase-order/services/purchase-order.service.ts:518-528 | for n items the header total is within 0.005 * (n + 1) of the sum of the stored line subtotals |
| BomForest.Reachable | src/modules/bom/services/bom.service.ts:702-750 | the recursion terminates and finds every row that reaches a root of the version exactly once |
| BomForest.ExplodeBom | src/modules/bom/services/bom.service.ts:669-770 | lists these rows by ascending level and, within one, ascending sequence, each with its own quantity times the ratio of wanted quantity to output |
| Sorting.SortSorted | src/database/stock-lock.ts:20 | sorting by a total order gives an ordered rearrangement |
| BomForest.NextLevel | src/modules/bom/services/bom.service.ts:726-750 | one join with the working table yields exactly the next level, without repetition |
| BomForest.FlattenExactly | src/modules/bom/services/bom.service.ts:840-865 | flattening the trees of siblings gives exactly these rows and their descendants, each once |
| BomForest.ExplosionMatchesTree | src/modules/bom/services/bom.service.ts:702-865 | the explosion and the flattened tree are the same multiset of rows, also when parents are missing |
| BomTables.HistoryKeepsForest | src/modules/bom/services/bom.service.ts:404-543 | after any history of single statements parents are older, in the same version, one level up and of another variant, and no parent is missing |
| BomTables.ExplosionIsComplete | src/modules/bom/services/bom.service.ts:702-752 | after any history the explosion of a version lists exactly its items |
| BomTables.RemovalIsSafeIff | src/database/migrations/tenant/006_create_bom.sql:63 | the foreign key admits the deletion of an item's children if and only if these have none themselves |
| BomTables.Tables.AddItem | src/modules/bom/services/bom.service.ts:404-476 | inserts if and only if the version is not active, the parent is in it with another variant, and the variant is active |
| BomTables.Tables.DeleteItem | src/modules/bom/services/bom.service.ts:521-543 | removes exactly the item and its children, if and only if the version is not active and no child has children |
| BomTables.BuildTree | src/modules/bom/services/bom.service.ts:840-865 | the two loops over mutable nodes build on the heap exactly the trees of the version's forest |

## Left out

- StockProtocol.StockStaysAbove: the hash of the advisory lock is taken as injective and every statement reads the latest committed ledger (READ COMMITTED); REFRESH MATERIALIZED VIEW and its own locks are not part of the model, nor is `available_stock`.
- StockProtocol.NoWaitCycle: covers waits inside lockStockKeys; row locks that callers take before it are not part of the wait graph. Lock strings are compared as the default collation orders digits and colons.
- AR and AP transactions: ar_transactions are not mirrored because the receipt flow does not touch them; system accounts are given.
- ControlAccounts.ControlAccountsAgree: vendor invoices post no journal, so payables show payments only; goods receipts count as other accounting. A supplier payment may come from any bank account whose ledger account is neither the receivable nor the payable account itself, and each entry is posted with its document in one step.
- BillingTables.Tables.ConfirmDelivery: one call under its locks; the interleaving of its stock check with other writers is StockProtocol.
- Books: account existence, document number uniqueness and the approval fields of journals; the row locks that serialize the transactions are represented by treating each transaction as one step.
- AutoPost.AutoPostIsIdempotent: top-level calls only; a call nested in a business transaction rolls that transaction back as a whole.
- MrpRuns.OneActiveAlways: one reconciler per tenant, since retry_count is written from an earlier read. The worker is not part of the repository; its steps are those that README.md:34-50 of the repository promises.
- MrpTables.Tables.ReconcileTenant: one pass without interference and a queue that accepts every job; interference and a failing queue are covered by the step relation of MrpRuns.
- BillingInvariant.DeliveryInvoicedOnce: no service cancels a customer invoice, so the filter on cancelled ones is always true and left out.
- InvoiceTotals.CalculateDeliveryInvoiceTotals: exact reals, not IEEE doubles; the same holds for the sums of requested amounts everywhere. What is lost when decimals are stored is modelled, the error of the additions themselves is not.
- Entries.ActiveTakesIff: moments count seconds, and the database, the driver and the service agree on where a day begins; with different time zones the refused part of the last day would be another one.
- BomTables.Tables.AddItem: the scrap quantity and the other columns that no structural property depends on.
- Purchase side: updateReceivedQuantity and goods receipt repeat the sales side's pattern; a goods receipt appears as an inbound stock step.
- Work orders: lots, results and operations beyond the stock movement they write.
- Inventory movements: creating and cancelling drafts, beyond the validation that `StockLedger.ValidMovement` records.
- Fiscal years: nothing in the source keeps two years from overlapping, so disjointness is stated within a year only.
- Controllers, authentication, pagination, document number formatting, hash ids, quotations, quality control and the other single-guard status changes.
