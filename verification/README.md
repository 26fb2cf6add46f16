# Verified models of the AceMQ example systems

Dafny models of the three applications under `apps/` and of the stream reader in
`basic/06-streams`, with proofs of what their protocols keep in every run. Check
the whole project with `dafny verify dfyconfig.toml`.

Each application is one transition system whose states hold the databases, the
queues, the memory of the services and everything published. A handler is cut at
its atomic actions, so any number of instances interleave between them. Every
service is also a class whose method runs the handler from start to end; its
contract says what the whole handler does, for every reply, with the numbers and
texts written out. `ChargeIsHandling` and `ReserveIsHandling` say that the atomic
actions in turn do exactly that, and `WholeChargeIsARun`, `WholeReserveIsARun`,
`CommandIsARun` and `FundIsARun` that it is a run of the system.

## Layout

| files | what they hold |
|---|---|
| `Collections`, `Messaging`, `Claims` | sums; replies, acknowledgements, phases; the shared idempotency store |
| `Contracts`, `Gateway`, `Payments`, `Inventory`, `Shipping`, `Notifications` | apps/01, service by service |
| `Fulfilment` | the transition system of apps/01 |
| `Causality`, `ChargeBound`, `NoSilentLoss`, `Stock`, `Warehouse`, `Timelines`, `Draining` | one invariant each, step by step |
| `FulfilmentTheorems`, `Counters`, `Refusals` | what holds in every reachable state; the counters against the log; what a refusal says against the shelf |
| `FulfilmentRuns`, `InventoryRuns` | runs that reach the bounds and break the hypotheses |
| `Journal`, `Ledger`, `LedgerInvariants`, `LedgerOrigins`, `LedgerTheorems`, `LedgerRuns`, `LedgerAnswers`, `LedgerWriter`, `Projections` | apps/03 |
| `Underwriting`, `Policies`, `Billing`, `PolicyChain`, `PolicyInvariants`, `PolicyMessages`, `PolicyProgress`, `PolicyTheorems`, `PolicyRuns` | the policy chain of apps/02 |
| `StreamReader` | basic/06 |

## What is assumed of the library and the broker

- A call that leaves the process has three outcomes: it works; it fails and had no
  effect; it is reported as failed and took effect (`Ambiguous`). Which one is
  chosen by the environment at every call. Inside a transaction only the commit can
  be misreported: a statement that fails before it is rolled back.
- A claim is granted when the key is absent or its claim has timed out. A release
  and a confirmation name the key only, so they act on whoever holds it. A
  confirmation changes nothing when there is no row. A held claim may time out at
  any moment; a confirmed one does not. Payments claims the order id. Billing's
  wrapper claims the message id, which a message is given when it is encoded: the
  relay's copies and the broker's redeliveries carry the same one. The wrapper accepts
  a delivery it refuses once the message was handled, and puts it back while the claim
  is merely held.
- Delivery is at least once, to every consumer. An acknowledgement may be lost at any
  time and the message delivered again. A handler of payments, inventory or shipping
  may die between any two of its actions, and its delivery goes to another; what it
  had taken off the shelf is lost with it.
- A retry spends an attempt: four for payments and inventory, any positive number
  for shipping, whose policy is the library's default. After the last the delivery
  is dead-lettered. The death of a handler may spend one or not. The count goes on
  with the message: a copy that is delivered again has no fewer attempts left than the
  delivery it is a copy of and no more than the policy gives, and with none left it is
  dead-lettered before a handler sees it.
- A stage of the underwriting pipeline accepts its message when it has handed on its
  result.
- Notifications is delivered its queue in order, one message at a time, and may at
  any time be delivered again what it has already had.
- Generated ids are fresh; a clash is a failed insert.

## Where the code and its promises part

- A committed order can be lost when its claim is left with nobody behind it: the
  payments instance dies before the publish (`CrashWithClaimLosesOrder`) or after a
  failed publish and before the release (`CrashBeforeReleaseLosesOrder`), the release
  fails (`FailedReleaseLosesOrder`), or the claim is granted and reported as failed
  (`UnsureClaimLosesOrder`). The next delivery is refused as a duplicate and accepted.
  It is lost only if that delivery comes before the claim's timeout
  (`TimeoutRescuesOrder`). `SilencedExactlyByRefusal` says that no other step silences
  an order, and `NoOrderStopsSilently` that nothing else loses one.
- The gateway accepts negative quantities. The shelf can go below zero exactly when
  they are allowed (`ShelfBreaksExactlyBelowZero`): for each of them, and every SKU,
  there is a run of two orders that leaves it on the shelf
  (`NegativeQuantityBreaksTheShelf`).
- The ledger's journal can be overdrawn exactly when a debit's publish is misreported
  as failed or `Fund` is called with a negative amount, however often each
  (`OverdrawnExactlyByTheseFaults`); without them it never is, even if balances overflow
  64 bits (`NeverOverdrawn`).
- `apps/03-ledger/contracts/contracts.go:45` says a command is handled once, and
  nothing in the ledger makes it so. A command's money moves at most as often as the
  command is handled (`MovesFollowTakes`), and can move twice exactly when it is
  handled twice (`MovesTwiceExactlyWhenTakenTwice`). The handler's own retries are not
  the cause: a command that comes back only after a retry has no debit in the journal
  (`RetriedHasNoDebit`) and moves its money at most once (`RetriesMoveMoneyOnce`).
- Billing's claim tells copies of a message apart from other messages, and no more.
  A policy can be charged twice, with nothing failing, exactly when its event has two
  message ids (`ChargedTwiceExactlyWhenSentTwice`), as the fifth scenario of apps/02
  expects. `issue` has no claim, so an application can be charged twice exactly when
  its acceptance is issued twice (`ChargedTwiceExactlyWhenIssuedTwice`).

## Model

| member | source | states |
|---|---|---|
| Contracts.TopologyRoutes | apps/01-order-fulfilment/contracts/contracts.go:121-143 | the bindings send every event to notifications and to exactly one or no working queue, the one the model routes it to |
| Claims.Store.Claim | apps/01-order-fulfilment/payments/payments.go:102-110 | a claim is granted exactly when the key is free and the call is reported as successful, and an unsure call may still take it |
| Claims.Store.Release | apps/01-order-fulfilment/payments/payments.go:129-134 | a release gives up the key whoever holds it, unless it had no effect |
| Claims.Store.Confirm | apps/01-order-fulfilment/payments/payments.go:141-145 | a confirmation marks an existing row whoever holds it, unless it had no effect |
| Payments.Service.Charge | apps/01-order-fulfilment/payments/payments.go:96-146 | for every reply to each of its three calls: refused as a duplicate, or captured for a total of at most 1000.00 and declined above it, with the order's own fields and correlation id; the matching counter moves exactly when the publish is reported; the claim is confirmed after it and released without it; accepted, or retried when the claim or the publish fails |
| Payments.ChargeIsHandling | apps/01-order-fulfilment/payments/payments.go:96-146 | the atomic actions of the transition system, in turn, do what that contract says and nothing else: both directions, for every reply |
| Inventory.Service.Reserve | apps/01-order-fulfilment/inventory/inventory.go:110-150 | for every branch: no answer and a retry; a refusal that carries what the shelf holds of the SKU, nothing when it is not stocked; or the stock taken and reserved, and put back when the publish fails; the counters move exactly when the publish is reported |
| Inventory.ReserveIsHandling | apps/01-order-fulfilment/inventory/inventory.go:110-150 | the atomic actions of the transition system, in turn, do what that contract says and nothing else: both directions, for every reply |
| Shipping.Service.Dispatch | apps/01-order-fulfilment/shipping/shipping.go:67-78 | one publish with the copied correlation id and a tracking number of "TRK-" and, capital by capital, what follows "ord-" in the order id, or the whole id without that prefix; counted only when it succeeds, retried otherwise |
| Shipping.TrackingIsTheOne | apps/01-order-fulfilment/shipping/shipping.go:69 | the tracking number computed is the only one that fits the order id character by character |
| Shipping.TrackingTellsOrdersApart | apps/01-order-fulfilment/gateway/gateway.go:94 | ids of the form the gateway generates never share a tracking number |
| Notifications.Service.Handle | apps/01-order-fulfilment/notifications/notifications.go:62-72 | every timeline is at all times the sequence of message types handled for that correlation id |
| Notifications.Service.Show | apps/01-order-fulfilment/notifications/notifications.go:81-85 | the timeline shown is the word of the handled messages |
| Gateway.Service.PlaceOrder | apps/01-order-fulfilment/gateway/gateway.go:91-134 | the row and the outbox record are both written exactly when every statement works, the id is new and the commit takes effect, and otherwise neither table changes; success is reported exactly when the commit is reported too |
| FulfilmentTheorems.OutcomesAreBounded | apps/01-order-fulfilment/payments/payments.go:84-146 | in every run the outcomes published for an order are at most one, plus its claim expiries, plus its misreported publishes |
| FulfilmentTheorems.ChargedAtMostOnce | apps/01-order-fulfilment/payments/payments.go:15-19 | with no expiry and no misreported publish, any two outcomes of an order in the log are the same one |
| FulfilmentRuns.BoundIsReached | apps/01-order-fulfilment/payments/payments.go:84-87 | for every order and every number of expiries there is a run that reaches the bound |
| ChargeBound.ChargeAccounts | apps/01-order-fulfilment/payments/payments.go:99-145 | what each action of charge does to the potential: only an unsure publish adds to it, also when a release takes another handler's claim |
| FulfilmentTheorems.ConfirmedIsPublished | apps/01-order-fulfilment/payments/payments.go:137-145 | a confirmed claim always has a published outcome behind it |
| FulfilmentTheorems.NeverCapturedAndDeclined | apps/01-order-fulfilment/payments/payments.go:116-128 | no order id has both a captured and a declined event, however often it is handled |
| FulfilmentTheorems.OutcomeFollowsTotal | apps/01-order-fulfilment/payments/payments.go:117-127 | in every run a captured order has a committed total of at most 1000.00 and a declined one more, and the event carries the committed order's own fields |
| Counters.CountersFollowTheLog | apps/01-order-fulfilment/main.go:180-210 | in every run, for each of captured, declined, reserved, rejected and shipped, the counter is at most the number of such events published, and equal to it unless a publish was misreported |
| FulfilmentTheorems.NoOrderStopsSilently | apps/01-order-fulfilment/payments/payments.go:99-145 | unless a claim was abandoned, a committed order is in the outbox, or has a delivery waiting, handled or dead, or has an outcome published |
| FulfilmentRuns.CrashWithClaimLosesOrder | apps/01-order-fulfilment/payments/payments.go:107-110 | for any order, one crash between the claim and the publish reaches a state where it is committed and gone without a trace |
| FulfilmentRuns.FailedReleaseLosesOrder | apps/01-order-fulfilment/payments/payments.go:129-134 | for any order, one failed release reaches such a state too |
| FulfilmentRuns.UnsureClaimLosesOrder | apps/01-order-fulfilment/payments/payments.go:102-106 | and one claim that is granted and reported as failed, with no crash and no release |
| FulfilmentRuns.CrashBeforeReleaseLosesOrder | apps/01-order-fulfilment/payments/payments.go:129-134 | and one crash after a failed publish, before its release |
| FulfilmentRuns.TimeoutRescuesOrder | apps/01-order-fulfilment/payments/payments.go:84-87 | an order whose handler died is decided after all when its claim times out before the redelivery |
| FulfilmentTheorems.SilencedExactlyByRefusal | apps/01-order-fulfilment/payments/payments.go:102-110 | of all steps of the system, exactly the refusal of an undecided order's last delivery silences the order, and only when its claim was left behind |
| FulfilmentTheorems.NothingStopsDownstream | apps/01-order-fulfilment/inventory/inventory.go:110-150 | every published capture and reservation has a delivery that is live or dead, or its answer is published, wherever handlers die |
| FulfilmentRuns.ChargeIsARun | apps/01-order-fulfilment/payments/payments.go:96-146 | an uninterrupted handling of charge is a run of the system, from any state and for any replies, to the same acknowledgement of its delivery |
| FulfilmentRuns.ReserveIsARun | apps/01-order-fulfilment/inventory/inventory.go:110-150 | an uninterrupted handling of reserve is a run of the system, from any state and for any replies, to the same acknowledgement of its delivery |
| FulfilmentRuns.WholeChargeIsARun | apps/01-order-fulfilment/payments/payments.go:96-146 | so is whatever the contract of the charge method allows |
| FulfilmentRuns.WholeReserveIsARun | apps/01-order-fulfilment/inventory/inventory.go:110-150 | so is whatever the contract of the reserve method allows |
| FulfilmentRuns.FourFailedClaimsKillOrder | apps/01-order-fulfilment/payments/payments.go:90-92 | for every order, three failed claims leave it one attempt and the fourth dead-letters it |
| Refusals.RefusalsTellTheTruth | apps/01-order-fulfilment/inventory/inventory.go:121-131 | in every run, however handlers interleave, a published "only n left" says what the shelf held of the SKU at a step of that run, and that was less than the order asked for, or n is zero for a SKU that was not stocked |
| FulfilmentTheorems.StockIsConserved | apps/01-order-fulfilment/inventory/inventory.go:119-149 | for any interleaving: shelf plus taken plus promised plus what died with its handler equals supplied plus what was put back although it was promised |
| FulfilmentTheorems.NoOverselling | apps/01-order-fulfilment/inventory/inventory.go:119-149 | with no negative quantity ordered or stocked the shelf never goes below zero and no more is promised than was supplied and put back although it was promised |
| InventoryRuns.NegativeQuantityBreaksTheShelf | apps/01-order-fulfilment/inventory/inventory.go:121-146 | for every negative quantity and SKU a run from an empty shelf, of an order of it and one of its opposite and a single failed publish, leaves that quantity on the shelf |
| InventoryRuns.ShelfBreaksExactlyBelowZero | apps/01-order-fulfilment/inventory/inventory.go:119-149 | the shelf can go below zero if and only if the least quantity that may be ordered or stocked is negative |
| InventoryRuns.MisreportedReservationPromisesTwice | apps/01-order-fulfilment/inventory/inventory.go:138-146 | for every quantity one misreported reservation reaches a state where twice what was supplied is promised |
| FulfilmentTheorems.FailuresArePaidFor | apps/01-order-fulfilment/inventory/inventory.go:85-117 | what handlers asked for, by retries and by dead letters in place of them, lies between the failed warehouse calls and those plus the failed publishes; four of these, or of the attempts deaths spent and copies came without, pay for each dead letter |
| FulfilmentTheorems.DeadOrdersArePaidFor | apps/01-order-fulfilment/inventory/inventory.go:82-87 | however often anything is redelivered, every dead-lettered order was paid for by four failed calls, failed publishes or deaths of its own |
| InventoryRuns.FifthFailureFilesAgain | intermediate/11-graceful-shutdown/README.md:114-119 | a dead letter filed with its acknowledgement lost is filed again by one more failure: two dead letters of one order for five failures |
| FulfilmentTheorems.EveryFailureIsOneRetry | apps/01-order-fulfilment/inventory/inventory.go:85-117 | when publishes succeed and every dead letter was a handler's last retry, retries plus dead letters equal the lesser of calls and set failures |
| FulfilmentTheorems.FlakyWarehouseIsSurvived | apps/01-order-fulfilment/inventory/inventory.go:103-117 | three failures or fewer, of set calls, publishes and attempts that deaths spent together, kill no order, however often anything is redelivered |
| FulfilmentTheorems.OutboxAgreesWithOrders | apps/01-order-fulfilment/gateway/gateway.go:96-134 | a row is committed exactly when its event waits in the outbox or was published, and what is published is the committed order |
| FulfilmentTheorems.ShippedWasPaidFor | apps/01-order-fulfilment/shipping/shipping.go:67-78 | whatever shipped was reserved, before that captured, before that placed, with the committed order's own fields, a total of at most 1000.00 and the tracking number of its id |
| Timelines.CauseIsInWord | apps/01-order-fulfilment/contracts/contracts.go:121-143 | an event with its cause in the log finds that cause's type in its order's timeline, by the correlation id alone |
| FulfilmentTheorems.TimelineFollowsCauses | apps/01-order-fulfilment/notifications/notifications.go:62-72 | whatever is delivered twice, to any service or to notifications itself, or published twice, no event of a timeline comes before its cause |
| FulfilmentTheorems.TimelineIsExpected | apps/01-order-fulfilment/notifications/notifications.go:62-72 | the timeline of an order nobody duplicated is at all times a beginning of one of the three words |
| FulfilmentTheorems.DrainedTimelineIsWhole | apps/01-order-fulfilment/README.md:142-152 | in a drained system an order that was not duplicated, dead-lettered or abandoned has one of the three whole timelines |
| FulfilmentTheorems.EveryRunDrains | apps/01-order-fulfilment/payments/payments.go:90-92 | the steps all services make in a run are bounded by the orders placed in it, each counted once more for every crash of the relay, and by the crashes of handlers, redeliveries and misreported relays |
| FulfilmentTheorems.ReachableNeverStuck | apps/01-order-fulfilment/inventory/inventory.go:82-87 | until everything is drained some handler, notifications or the relay can act |
| Draining.AnnouncementsAreBounded | apps/01-order-fulfilment/gateway/gateway.go:76-82 | the relay publishes, and knows it, at most once for each order placed and once more for each after each of its crashes |
| Draining.ChargeDrops | apps/01-order-fulfilment/payments/payments.go:96-146 | every action of charge, under any reply, lightens its delivery by more than the weight of what it publishes |
| Draining.ReserveDrops | apps/01-order-fulfilment/inventory/inventory.go:110-150 | the same for every action of reserve |
| Journal.WrapAdd | apps/03-ledger/ledger/balances.go:104-108 | 64-bit additions one by one are the exact sum wrapped once |
| Journal.WrapIsInt64 | apps/03-ledger/ledger/balances.go:104-108 | a balance is held as the one integer of 64 bits that differs from the exact one by a multiple of two to the 64 |
| Journal.RebuiltIsFold | apps/03-ledger/ledger/balances.go:68-100 | reading a journal from the first entry leaves, for exactly its accounts, the sum of their entries in 64 bits |
| Journal.BalancesAddUp | apps/03-ledger/contracts/contracts.go:62-67 | the balances of any journal add up to the amounts in it |
| LedgerWriter.Balances.RebuiltFrom | apps/03-ledger/ledger/balances.go:68-100 | the rebuild applies every entry once and counts it once |
| LedgerWriter.Balances.Apply | apps/03-ledger/ledger/balances.go:104-108 | one account moves by the entry's amount in 64 bits, and no other |
| LedgerWriter.Balances.Snapshot | apps/03-ledger/ledger/balances.go:117-125 | the copy made account by account is the whole map |
| LedgerWriter.Start | apps/03-ledger/ledger/ledger.go:60-80 | there is a module exactly when every step of starting works, and it serves the balances of the whole journal, all of it replayed |
| LedgerWriter.Module.Apply | apps/03-ledger/ledger/ledger.go:82-111 | for every reply: refused with nothing appended and the reason published, or the debit and then the credit appended with the transfer's fields and applied in turn; parked exactly when the money was there and a publish of an entry failed; retried only with the journal and the balances as they were |
| LedgerWriter.Module.PostEntry | apps/03-ledger/ledger/ledger.go:113-122 | an entry is applied and counted exactly when its publish is reported as successful |
| LedgerWriter.Module.Fund | apps/03-ledger/ledger/ledger.go:136-139 | an opening entry is posted, whatever its amount |
| LedgerWriter.CommandIsARun | apps/03-ledger/ledger/ledger.go:82-122 | an uninterrupted command is a run of the transition system to the same journal and balances and the same acknowledgement |
| LedgerAnswers.AnswerSaysWhatMoved | apps/03-ledger/ledger/ledger.go:82-111 | with funding running anywhere in between, a handling answered with a retry has moved nothing and was a refusal, one accepted has moved both halves or refused, and one parked had the money and has moved neither half, one or both |
| LedgerAnswers.DebitsAndRetriesFollowTakes | apps/03-ledger/ledger/ledger.go:103-108 | in every run, across crashes, the debits of a command and its retries together are at most its handlings |
| LedgerAnswers.RetriedHasNoDebit | apps/03-ledger/ledger/ledger.go:103-108 | while a command comes back only after a retry, it is never handled with its own debit in the journal |
| LedgerAnswers.RetriesMoveMoneyOnce | apps/03-ledger/ledger/ledger.go:103-108 | and its money is taken at most once |
| LedgerWriter.FundIsARun | apps/03-ledger/ledger/ledger.go:136-139 | an uninterrupted funding is one too |
| LedgerTheorems.NeverOverdrawn | apps/03-ledger/ledger/ledger.go:82-122 | every prefix of the journal gives every account a non-negative balance, with funding interleaved, transfers parked, crashes and restarts |
| LedgerRuns.UnsureDebitOverdraws | apps/03-ledger/ledger/ledger.go:103-108 | one misreported debit lets any funded amount be spent twice |
| LedgerRuns.NegativeFundOverdraws | apps/03-ledger/ledger/ledger.go:136-139 | one negative funding overdraws its account |
| LedgerRuns.OverdrawnExactlyByTheseFaults | apps/03-ledger/ledger/ledger.go:82-139 | the journal can be overdrawn after m misreported debits and n negative fundings if and only if there is at least one of them |
| LedgerRuns.RedeliveredCommandMovesMoneyTwice | apps/03-ledger/contracts/contracts.go:45-47 | the same command handled twice moves the money twice with no fault at all |
| LedgerTheorems.MoneyIsConserved | apps/03-ledger/ledger/ledger.go:93-110 | in every run all balances add up to the opening balances in the journal less exactly its debits that no credit answers, which are the handlings that stopped between the two and the one that stands there |
| LedgerTheorems.MovesFollowTakes | apps/03-ledger/ledger/ledger.go:82-111 | in every run the journal has at most as many debits, and credits, for a command as the command was handled |
| LedgerRuns.MovesTwiceExactlyWhenTakenTwice | apps/03-ledger/contracts/contracts.go:45-47 | a command handled n times can move its money twice with nothing failing if and only if n is at least two |
| LedgerTheorems.ReportedMoney | apps/03-ledger/ledger/ledger.go:144-145 | at rest the balances the writer reports add up to what was funded less what was stranded |
| LedgerTheorems.CreditFollowsItsDebit | apps/03-ledger/ledger/ledger.go:93-110 | every credit has its debit before it, they sum to zero, and only opening balances are between them |
| LedgerTheorems.AppliedExactlyOnce | apps/03-ledger/ledger/balances.go:49-61 | while rebuilding the balances are those of the prefix read; while serving they lack exactly the entries not yet applied |
| LedgerTheorems.BalancesAreTheJournal | apps/03-ledger/ledger/balances.go:42-47 | at rest the writer's map is, key by key, what a reader of the journal computes |
| LedgerTheorems.RestartChangesNothing | apps/03-ledger/ledger/ledger.go:58-80 | a crash at rest and a whole rebuild give back the identical state, with the journal's length replayed |
| LedgerTheorems.NoOverflow | apps/03-ledger/ledger/balances.go:104-108 | if no more than 64 bits hold was ever funded, every balance the writer holds, rebuilding or serving, is the exact sum |
| LedgerTheorems.ReaderSumsFit | apps/03-ledger/projections/projections.go:80-86 | under the same condition the sum over any slice of the journal fits in 64 bits |
| Projections.FilterKeeps | apps/03-ledger/projections/projections.go:59-65 | every entry of an account is in its statement, at the place given by those before it |
| Projections.StatementPrefix | apps/03-ledger/projections/projections.go:59-65 | every beginning of a statement is the statement of a beginning of what was read |
| Projections.Statements.Read | apps/03-ledger/projections/projections.go:59-65 | reading one entry keeps every statement the order-preserving filter of what was read |
| Projections.Statements.StatementOf | apps/03-ledger/projections/projections.go:73-77 | the entries read for the account, oldest first |
| Projections.Statements.BalanceOf | apps/03-ledger/projections/projections.go:80-86 | the loop's running 64-bit sum is the wrapped sum of the account's entries among those read |
| Projections.Statements.Entries | apps/03-ledger/projections/projections.go:89-97 | the loop over accounts, in any order, counts every entry read once |
| Projections.ReaderAgreesWithLedger | apps/03-ledger/projections/projections.go:51-71 | a reader of a slice holds the ledger's balance at its end less that at its start, and a full reader agrees with the writer at rest |
| Projections.ReaderNeverOverflows | apps/03-ledger/projections/projections.go:80-86 | every partial sum of every reader from any offset is exact under the funding condition |
| Underwriting.Quotient | apps/02-policy-administration/underwriting/underwriting.go:133-138 | Go's integer division truncates toward zero |
| Underwriting.RegisterFinds | apps/02-policy-administration/underwriting/underwriting.go:117-125 | an applicant is on the register exactly when five letters in a row of the name as given spell "known" in small letters or capitals |
| Underwriting.PricedByTheTable | apps/02-policy-administration/underwriting/underwriting.go:127-144 | the premium is the one number that the rating table allows, stated by bounds: the thousandth of the sum cut off toward zero, two for each year above thirty, and half of the base again on the register |
| Underwriting.OneYearOlder | apps/02-policy-administration/underwriting/underwriting.go:134 | a year more costs two from thirty on and nothing before |
| Underwriting.PremiumOfTheYoung | apps/02-policy-administration/underwriting/underwriting.go:133-138 | up to thirty and off the register the premium is the whole thousands of the sum, and on it that and half of it |
| Underwriting.PremiumMonotone | apps/02-policy-administration/underwriting/underwriting.go:127-144 | older applicants and larger sums never make a premium smaller, and for sums above minus two thousand neither does the register |
| Underwriting.RegisterNeverCheaperExactly | apps/02-policy-administration/underwriting/underwriting.go:133-138 | being on the register does not make a premium smaller if and only if the sum is above minus two thousand |
| Underwriting.PremiumNonNegativeExactly | apps/02-policy-administration/underwriting/underwriting.go:127-144 | with y the applicant's years above thirty, a premium is non-negative exactly for sums above -1000 * (1 + 2y), and on the register for sums above -1000 * (1 + (4y + 1) / 3) |
| Underwriting.Module.Decide | apps/02-policy-administration/underwriting/underwriting.go:146-183 | the decision published is the priced application's, a referral declined with its own id, applicant and sum and the rest accepted with the premium, and the matching counter moves exactly when the publish succeeds |
| Policies.Module.Submit | apps/02-policy-administration/policies/policies.go:98-115 | the application and its event are both written exactly when the commit takes effect, and success is reported exactly when the commit is reported too |
| Policies.Module.Issue | apps/02-policy-administration/policies/policies.go:118-137 | the policy and its event are both written exactly when the commit takes effect; the message is accepted and counted exactly when the commit is reported too, and retried otherwise |
| Policies.Module.AddAndCommit | apps/02-policy-administration/policies/policies.go:141-167 | the outbox gains the record, under the message id it was encoded with, exactly when the commit takes effect |
| Policies.Module.Lookup | apps/02-policy-administration/policies/policies.go:175-185 | a query that works finds a policy in force exactly when it is in the table, with the recorded premium; one that fails is no answer |
| Billing.Module.Charge | apps/02-policy-administration/billing/billing.go:73-85 | a charge is recorded exactly when its event's publish succeeds, and retried otherwise |
| PolicyTheorems.OneDecision | apps/02-policy-administration/underwriting/underwriting.go:146-183 | under any redelivery every decision on an application is the same event: accepted exactly for a sum of at most 500000, with its own fields and the one premium the rating table allows, and otherwise declined with its own applicant and sum |
| PolicyTheorems.ChargedIsPriced | apps/02-policy-administration/billing/billing.go:73-85 | every premium charged is the one the rating table allows, for a submitted, then accepted, then issued application of at most 500000 |
| PolicyTheorems.OutboxAgreesWithRows | apps/02-policy-administration/policies/policies.go:139-167 | for both tables a committed row has its event in the outbox or published, the outbox has no other event, and whatever is published about a row tells billing what the row does |
| PolicyProgress.NoApplicationStopsSilently | apps/02-policy-administration/underwriting/underwriting.go:98-111 | every committed application is in the outbox, or with a consumer of underwriting that has not accepted it, or decided, whatever fails |
| PolicyProgress.NoAcceptanceStopsSilently | apps/02-policy-administration/policies/policies.go:118-137 | every published acceptance is still to be accepted by policies, or has a policy |
| PolicyProgress.NoPolicyStopsSilently | intermediate/02-idempotent-consumer/README.md:64-66 | every policy has its event in the outbox, or in a message billing has not accepted, or its premium charged, also when handlers die with the claim and releases fail |
| PolicyProgress.FailedChargeIsTriedAgain | intermediate/02-idempotent-consumer/README.md:43-46 | in every reachable state, once a failed charge is released the next delivery of its message is given the claim and charges for real |
| PolicyProgress.FinishedChargeIsNotRepeated | intermediate/02-idempotent-consumer/README.md:37-41 | once a published charge is confirmed, a further delivery of its message is accepted and changes nothing, and the claim no longer times out |
| PolicyProgress.DrainedChainIsComplete | apps/02-policy-administration/README.md:119-123 | when everything is accepted, every application is decided, every accepted one has a policy, and every policy is charged |
| PolicyTheorems.ChargesAreBounded | apps/02-policy-administration/billing/billing.go:59-67 | a message's premium is taken at most once, plus its claim expiries, plus its misreported publishes, however often it is delivered |
| PolicyTheorems.PolicyChargesAreBounded | intermediate/02-idempotent-consumer/README.md:48-53 | a policy whose event has one message id pays at most once, up to those faults |
| PolicyTheorems.ChargedOnceUnlessResent | apps/02-policy-administration/policies/policies.go:141-148 | the record is encoded once, so that holds of every policy in every run in which only the relay publishes its event |
| PolicyTheorems.ChargesFollowAnnouncements | apps/02-policy-administration/billing/billing.go:73-85 | a policy, or all the policies of an application together, pay at most once for each message id they were announced under, plus the faults on those messages |
| PolicyTheorems.ChargesFollowIssues | apps/02-policy-administration/policies/policies.go:118-137 | in every run an application pays at most as often as its acceptance was issued and its policies' events resent, plus the faults on their messages |
| PolicyRuns.ChargedTwiceExactlyWhenIssuedTwice | apps/02-policy-administration/policies/policies.go:118-137 | an acceptable application issued n times can be charged twice, with no fault and nothing resent, if and only if n is at least two |
| PolicyRuns.RedeliveredAcceptanceChargesTwice | apps/02-policy-administration/policies/policies.go:118-137 | for any acceptable application there is a run with no fault in which it becomes two charged policies |
| PolicyRuns.ChargedTwiceExactlyWhenSentTwice | apps/02-policy-administration/main.go:199-236 | a policy whose event has n message ids can be charged twice with no fault if and only if n is at least two |
| PolicyRuns.EveryMessageIsCharged | apps/02-policy-administration/main.go:209-229 | for every n, and whatever application the copies name, there is one policy, issued once and sent under n message ids, charged n times, and every id refuses further copies |
| StreamReader.Reader.Handle | basic/06-streams/main.go:146-158 | the handler counts until its quota and accepts the overrun uncounted |
| StreamReader.Session | basic/06-streams/main.go:146-166 | a session reads exactly the counted slice and its checkpoint is the offset of the last message counted |
| StreamReader.ReadInSessions | basic/06-streams/main.go:146-185 | sessions in a loop, each resuming one past the checkpoint, handle what the plan says |
| StreamReader.SessionsReadTheStream | basic/06-streams/main.go:170-181 | when every session handles something, together they handle the stream once, with no gap and no repeat |
| StreamReader.ResumesWhereItStoppedExactly | basic/06-streams/main.go:52-65 | a session resumes where the one before stopped if and only if that one was delivered a message or had started at offset one |

## Why a hypothesis is there

`StreamReader.SessionsReadTheStream` asks that every session handles something. The
reader of basic/06 sees to that, because `until` ends the process otherwise
(basic/06-streams/main.go:76-88, 162), and `EmptySessionSkips` shows what one past
the checkpoint would skip if it did not.

## Left out

- The AceMQ library is not part of this repository or this model: codecs, sagas, the scheduler, pipelines, replay, encryption, consumer close and the SQL stores are the assumptions above.
- Wall-clock behaviour: the quiet period and limit of the ledger's rebuild, backoff lengths and timeouts. A rebuild reads the whole journal; expiry happens at any time.
- Stream retention and segment deletion: the journal is complete.
- The counters an inventory process loses when it dies: its calls and its simulated failures go on counting. Its handlers may die at any action and lose what they had taken, and its stock may be set anew at any time.
- A crash of notifications, whose timeline is in memory.
- A `PolicyIssued` with another applicant or premium than its policy's: whoever sends a policy's event again may name any application and product.
- Topic-pattern matching beyond the four bindings, JSON, SQL text, connections, TLS, tracing, metrics and HTTP.
- Integer widths other than the ledger's: quantities, sums assured and premiums are unbounded integers, and an order's total is a real number.
- Upper and lower case beyond ASCII, in tracking numbers and in the register check.
- The text of reasons, which is kept as what it reports.
- A relay whose publishes keep failing: a failed attempt of its own is not counted as work, so a broker that never accepts is not shown to drain.
- Policy documents, claims and the audit queue of apps/02, the transfers gateway of apps/03, and the runners of all applications: they add one-branch facts.
- The other examples under `basic`, `intermediate` and `advanced`, which demonstrate the library.
