# The money-and-goods engine, proved

This project models the part of the Telegram shop that moves money and hands out goods, and proves
what its comments promise over whole runs.

The shop's database is a value (`Schema.Db`): append-only tables of plans, orders, payments, ledger
rows, idempotency records, stock items, promos and subscriptions, the set of transfers flagged for an
operator and the anomaly rows of the payment poll. Every `prisma.$transaction` is an atomic step. It appears twice: as a function `XTx` from
tables to tables (`Err` is a rollback) and as a method `X` that updates the tables of a
`Schema.Database` in the order of the program and is proved to be that function. The whole-run
results are about state machines whose steps are those functions, interleaved by any number of
processes that crash between steps and act on stale copies. Beside these, each main operation has a
theorem that says on the tables alone when it goes through, what it changes, whose balance it moves by
how much, and that it changes nothing else.

| file | what it holds |
|---|---|
| Schema, Sums | the tables; sums over them |
| Money, Pricing | rounding, display and parsing, unique amounts; order totals |
| Ledger | the append-only ledger with idempotency keys |
| Orders, Delivery, Subscriptions | the transactions of the order pipeline |
| Pipeline | the order pipeline as a machine (payment, delivery, refunds, renewals, promos) and the books every step keeps |
| Promises | what the pipeline promises over whole runs |
| StockClaim, Reopening | the stock claim at the grain of row locks; what a late markDelivering does to it |
| TronMatch, TagProtocol | matching a transfer to an invoice; handing out the 99 sub-cent tags |
| ChainScan | the transactions that settle USDT transfers |
| Settlement | overlapping, crashing sweeps: conservation and at-most-once settlement |
| Outcomes | which outcome a bound transfer has, and what it leaves, on the tables alone |
| SoldInFull, ShortSale | no order is sold for less than was asked, and the one run in which it is |
| Remainder | a short payment, then exactly the remainder, buys the order |
| SerialSweep | one uninterrupted sweep, as the loop it is, and that the loop is a run of Settlement |
| Topup, TopupRails | top-ups over four rails, credited exactly once |
| WholeShop | pipeline and wallet on one database |

The proofs of Pipeline and Settlement are each made against everything the other may do
(`Pipeline.RailMoves`, `Settlement.Rely`); WholeShop shows that each really keeps to what the other
relies on, so the promises hold together.

Assumptions. A transaction is atomic and a failed one leaves no trace; only StockClaim looks inside
one. The uniqueness of order keys, ledger keys, `(provider, txHash)`, `StockItem.orderId` and
`Subscription.orderId` is what the tables enforce. Cents and USDT6 are mathematical integers. Clocks
agree. A TRON transaction id carries one transfer (`Settlement.Amounts`), an invoice was created
before the sweep that finds it, and the invoice of an order is issued to its buyer. The provider's answers, the supplier's replies, the clock, the random
draws and the list of transfers are inputs.

Where the code does less than a comment says, the model follows the code, and the exact condition is
proved:

- `markDelivering` and `markDelivered` are called by `deliver()` outside a transaction, so their update may
  come late. The machine lets it, and remembers on which orders it landed and what it found
  (`Pipeline.Past`; `Promises.RememberedIff` ties that to the events of the run). Every promise is proved
  for every run, order by order: refund and charge are exact unless a late write found the order FAILED or
  REFUNDED; a promo's count is exact unless one found an order of it REFUNDED, and never above its limit;
  the payload stays unless one found it stored; periods and renewals do not depend on it, and credentials
  do not while a claim is one atomic transaction.
  Each guard is exact (`Promises.LateWriteMoneyIff`, `Promises.LateWritePromoIff`,
  `Promises.LateDeliveringPayloadIff`, and for the other write `Promises.LateDeliveredPayloadIff`), and
  there is an interleaving for each loss: a second refund (`Promises.RaceRefundsTwice`), goods and money
  and a promo use given away (`Promises.RaceServesRefunded`), a second payload (`Promises.RaceOverwrites`).
- At the grain of row locks credentials depend on it too. The `findFirst` for an order's own RESERVED item
  takes no lock and the update after it goes by id alone, so a claim can go by a read that is overtaken: its
  order was closed and the item released since. If `markDelivering` then lands on that order, the item can be
  handed out a second time (`Reopening.ReopenedHandsOutTwice`). It does no harm if and only if it finds no
  such claim (`Reopening.ReopenIff`), and nothing else endangers an item (`Reopening.OnlyReopeningsExpose`);
  `StockClaim.HandedOutOnce` is proved for every run. It takes RESERVED stock, which no code shown here makes.
- `bindTransfer` falls back on the row a parallel sweep has created for the transfer without comparing
  orders. A sweep that outlives an invoice's hold can then sell another order for its own candidate's
  amount. `SoldInFull.FallbackSellsShortIff` says when, for both branches of the sale, and that the missing
  comparison would rule it out; `ShortSale.FallbackSellsShort` is a run from the empty shop that does it.
  `SoldInFull.NotSoldShort` holds in every run for every order no sweep went astray to
  (`SoldInFull.Strayed`).
- No tag is held twice if and only if twice the longest delay is strictly shorter than the hold
  (`TagProtocol.TagsUniqueIff`). The header of tron.ts says tags are unique per price and that a Redis
  outage degrades to the table scan; the code uses one global namespace and refuses the checkout.
- The remainder is a completion that takes the earlier credit back if and only if it is below the ask;
  otherwise it pays the order alone and the earlier credit stays (`Remainder.RemainderCoversTheAsk`).
  After a second short payment the tag is ambiguous (`Remainder.SecondShortIsAmbiguous`).
- Stacking loses paid days if and only if a row closed by the expiry sweep ends after the payment and
  after every ACTIVE row (`Subscriptions.NoDayLostIff`, `Subscriptions.SweepLosesDays`).
- Paying from the balance for an order that another rail has paid charges the buyer once more
  (`Promises.BalancePaysAgainIff`).
- The poll's plain update to EXPIRED, and the webhook's to UNDERPAID, forget a credited top-up if and only
  if the row is PAID when they land (`TopupRails.PlainUpdateForgetsIff`, `TopupRails.ExpiryAfterCredit`).
  The poll never lets go of a paid invoice whose order another rail has paid (`Topup.PollStopsIff`).
- A paid invoice of another amount leaves the poll (`Topup.WrongAmountNeverSettles`), but the row is marked and the audit row written by two
  statements, and a poll that dies between them leaves no audit row (`TopupRails.ToldIff`).
- "Breaker open keeps the order retryable" is true of `deliver()` alone: `fulfillOrder` fails and
  refunds such an order (`Promises.FulfillEnds`).

## Model

| member | source | states |
|---|---|---|
| LedgerBook.WriteLedgerEntry | packages/core/src/ledger.ts:102-147 | in place: a recorded key answers its first result, a foreign record is a conflict, a debit below zero is refused, otherwise exactly one row and its record are written |
| LedgerBook.CreditUser | packages/core/src/ledger.ts:77-90 | in place: a positive amount is booked as a credit, anything else is refused and writes nothing |
| LedgerBook.DebitUser | packages/core/src/ledger.ts:92-100 | in place: a positive amount is booked negatively, anything else is refused and writes nothing |
| LedgerBook.PostMoves | packages/core/src/ledger.ts:77-147 | a first call moves the balance of its user by its amount, up or down, in one row that says for what, and no other balance; a positive amount is refused only for a foreign key or a balance that would go below zero, and a repeat moves nothing |
| LedgerBook.RunSound | packages/core/src/ledger.ts:46-147 | over every run of calls: no prefix of any user's rows sums below zero, every record describes its own row with the balance that row left, no two keys share a row and every row has its key |
| LedgerBook.RepeatsAreInvisible | packages/core/src/ledger.ts:61-75 | deleting the repeats from a run, wherever they stand, changes neither the ledger nor any other answer |
| LedgerBook.RepeatAnswersFirst | packages/core/src/ledger.ts:61-75 | whatever ran in between, a repeat writes nothing and returns the first call's result |
| Money.PercentDiscountWithinHalfCent | packages/core/src/money.ts:105-115 | the discounted price is the exact rational price to within half a cent and stays between nothing and the price |
| Money.PercentDiscountMonotone | packages/core/src/money.ts:105-115 | a dearer plan never gets cheaper, a bigger percentage never costs more |
| Money.RoundsToNearest | packages/core/src/money.ts:128-134 | rounding hundredths is off by at most half, a half going up |
| Money.TaggedAmountDecodes | packages/core/src/money.ts:168-193 | tag and price are both recovered from every tagged amount, and the tag never moves the price by a cent |
| Money.DisplayRoundTrip | packages/core/src/money.ts:13-37 | every amount, negative ones too, survives display and parsing; also through the provider parser up to its safe limit |
| Money.Usdt6DisplayIsExact | packages/core/src/money.ts:195-203 | the string a buyer types denotes the amount exactly, with at least the asked number of decimals |
| Money.UnsignedRoundTrip | apps/worker/src/queues/payments-poll.worker.ts:95-102 | what is displayed as dollars and cents parses back to the same cents |
| Pricing.Discounted | packages/core/src/pricing.ts:42-78 | a promo never raises a price and never takes it below zero |
| Pricing.OrderTotalBounds | packages/core/src/pricing.ts:42-78 | the unit price is the plan's less the plan's own discount to within half a cent, a total lies between nothing and its subtotal, its parts add up, a percent promo is exact to half a cent and a fixed one takes at most the subtotal |
| Pricing.OrderTotalIff | packages/core/src/pricing.ts:15-78 | no price exactly for a quantity below 1, a negative price, a discount above 100 or a subtotal past the safe limit; after that a promo is refused exactly if inactive, past its date, used up, for another plan or of a value out of range |
| Pricing.OrderTotalMonotone | packages/core/src/pricing.ts:42-78 | dearer plan, more units or a smaller discount never lower the price |
| Orders.CreateOrder | packages/core/src/orders.ts:156-203 | in place: the order and the promo use commit together, or the error and nothing |
| Orders.CreatedOnce | packages/core/src/orders.ts:156-203 | a repeated checkout gets the first order and changes nothing; a new order is the one row added, PENDING for what was asked and the computed price, and took one promo use that was there; no other promo has changed |
| Orders.CreatesIff | packages/core/src/orders.ts:156-203 | a first checkout is refused only for a plan not on sale, an unknown promo or a price that cannot be computed |
| Orders.MarkPaid | packages/core/src/orders.ts:210-236 | in place: an order paid already is handed back untouched, a first payment stamps the time and the reference, any other status is refused |
| Orders.MarkDelivering | packages/core/src/orders.ts:238-249 | in place: the status hop its transition table allows, or nothing |
| Orders.MarkDelivered | packages/core/src/orders.ts:251-268 | in place: status and payload together, only from DELIVERING |
| Orders.MarkFailed | packages/core/src/orders.ts:270-294 | in place: the order fails and its RESERVED stock is released, or nothing |
| Orders.ExpireOrder | packages/core/src/orders.ts:296-320 | in place: stock and promo use are given back with the expiry, only from PENDING |
| Orders.RefundOrder | packages/core/src/orders.ts:322-365 | in place: the price is credited once unless refunded before, stock and promo use are given back, all or nothing |
| Orders.PayFromBalance | apps/bot/src/domain/orders.ts:197-217 | in place: debit and status flip commit together or not at all |
| Orders.FailAndRefund | packages/core/src/delivery.ts:371-389 | in place: the order fails and its price is credited in one transaction or not at all |
| Orders.HopsIff | packages/core/src/orders.ts:27-52 | from which statuses each transaction goes on, all of them |
| Orders.PaidOnce | packages/core/src/orders.ts:210-236 | a first payment makes a PENDING order PAID as of now with its reference, a later one touches nothing |
| Orders.ClosedAlone | packages/core/src/orders.ts:270-320 | failing and expiring release exactly what was RESERVED for the order, expiring gives its promo's use back, neither moves money, and no other order changes |
| Orders.PaysIff | apps/bot/src/domain/orders.ts:197-217 | a balance payment goes through exactly for an order that may be PAID and a balance that covers it, or that has paid before; the buyer's balance falls by the price, once, nobody else's moves, and the order is PAID as of now |
| Orders.RefundsIff | packages/core/src/orders.ts:322-365 | a refund goes through exactly for an order that is held or FAILED; the buyer's balance, and no other, rises by the price unless anything was given back before; stock and promo use are given back |
| Orders.FailsIff | packages/core/src/delivery.ts:371-389 | failing goes through exactly for an order that is PENDING, PAID or DELIVERING and puts its price on the buyer's balance and no other |
| Subscriptions.CreateSubscriptionForOrder | packages/core/src/subscriptions.ts:23-62 | in place: one period per order, stacked on the latest ACTIVE one |
| Subscriptions.RenewFromBalance | packages/core/src/subscriptions.ts:120-198 | in place: debit, renewal order, closed row and successor commit together or not at all |
| Subscriptions.PeriodCreated | packages/core/src/subscriptions.ts:23-62 | an order of a subscription plan without a period gets exactly one, its buyer's and plan's, from its payment on, ending days times quantity after the payment or after the last ACTIVE period, whichever is later; one that has its period, or of another plan, gets none |
| Subscriptions.FirstPeriodRuns | packages/core/src/subscriptions.ts:44-50 | with nothing running a period ends durationDays times quantity days after the payment |
| Subscriptions.SweepClosesExactly | packages/core/src/subscriptions.ts:97-106 | the sweep closes exactly the ACTIVE periods that are over |
| Subscriptions.RenewsIff | packages/core/src/subscriptions.ts:120-198 | an uninterrupted first renewal goes through exactly for an ACTIVE period of a plan on sale that the balance covers |
| Subscriptions.RenewalCosts | packages/core/src/subscriptions.ts:129-158 | the buyer's balance falls by the plan's price, floored at nothing, nobody else's moves, and the one order added is for it, PAID as of now |
| Subscriptions.StackingClosedForm | packages/core/src/subscriptions.ts:23-62 | over every sequence of calls with any repeats, the last period ends at the maximum over k of paidAt_k plus days times quantity of all orders from k on |
| Subscriptions.NoDayLostIff | packages/core/src/subscriptions.ts:44-50 | a period continues the last one there has ever been exactly when no swept row outlasts both the payment and the ACTIVE rows |
| Subscriptions.SweepLosesDays | packages/core/src/subscriptions.ts:97-106 | a concrete case in which the expiry sweep costs five paid days |
| Subscriptions.RenewalContinues | packages/core/src/subscriptions.ts:160-185 | a renewal starts when the old period ends, or now if that is past, for the plan's days; the old row is closed |
| Delivery.OwnedItem | packages/core/src/delivery.ts:188-192 | finds an item the order already has, RESERVED or SOLD, and reports none only if there is none |
| Delivery.FirstAvailable | packages/core/src/delivery.ts:194-203 | the oldest AVAILABLE item of the plan that nobody holds locked, none only if all are locked or gone |
| Delivery.DeliverFromPool | packages/core/src/delivery.ts:182-225 | in place: claim, SOLD write and DELIVERED write are one transaction |
| Delivery.PoolHandsOver | packages/core/src/delivery.ts:182-225 | the buyer gets the payload of one item, the order's own or else the oldest of its plan, which is SOLD to the order; no other item changes |
| Delivery.HalfOpenProbe | packages/core/src/delivery.ts:84-94 | after the cooldown one failed probe re-opens the breaker for another cooldown, counted from its failure, and a success closes it |
| Delivery.BreakerOpensIff | packages/core/src/delivery.ts:327-362 | a row of failed attempts adds up across orders and opens the breaker, from the last failure on, if and only if it brings the failures on record to the threshold |
| Delivery.RefusedAnswersCount | packages/core/src/delivery.ts:327-362 | answers that cannot be written count as failures from the last of them on, after the reset that each of them made |
| Delivery.WrittenAnswerCloses | packages/core/src/delivery.ts:340-345 | an answer that is written closes the breaker and forgets every failure before it |
| Delivery.Breaker.IsOpen | packages/core/src/delivery.ts:84-94 | in place: open inside the cooldown, half-open with one failure to spare after it |
| Delivery.DeliverFromExternalApi | packages/core/src/delivery.ts:303-363 | in place, with the clock read at each failure: the first non-empty answer of three attempts that can be written is delivered and leaves the breaker reset; a refused write counts as a failure of the supplier; no supplier or three failures fail and refund the order, or throw what that threw; an open breaker touches nothing |
| Delivery.SupplierGivesUp | packages/core/src/delivery.ts:303-389 | when the supplier has nothing, delivery on its own leaves the order alone if the breaker is open, and otherwise fails it, releases its stock and gives its buyer the price back before it throws |
| Delivery.Strategy | packages/core/src/delivery.ts:124-180 | in place: the strategy of the delivery type, with exactly what it leaves of the order when it throws |
| Delivery.FulfillOrder | packages/core/src/fulfillment.ts:106-226 | in place: delivery, subscription, parking for an operator, or the failure settlement |
| Delivery.ServesIff | packages/core/src/fulfillment.ts:106-226 | an uninterrupted run serves an order on its way exactly if its pool has an item, a code can be minted, or the supplier answers with the breaker closed; it hands over that item, that code or the first answer and changes nothing else but the period; it parks exactly the orders of plans an operator delivers |
| Delivery.ServesNoOther | packages/core/src/fulfillment.ts:106-125 | an order in any other status is refused and left as it is, except that a DELIVERED one with its payload counts as served |
| Delivery.ServedHasPeriod | packages/core/src/fulfillment.ts:100-135 | whoever is served, now or found DELIVERED, has exactly one period of the plan that was bought, made now if it was missing |
| Delivery.DeliverManualOrder | packages/core/src/manual-delivery.ts:44-75 | in place: both status hops, the trimmed payload and the period are one transaction; a delivered order only has its period repaired |
| Delivery.ManualIff | packages/core/src/manual-delivery.ts:44-75 | goes through exactly with a text and for an order that is PAID, DELIVERING or DELIVERED |
| Delivery.ManualHasPeriod | packages/core/src/manual-delivery.ts:44-75 | the order is DELIVERED with the trimmed text, or untouched if it was, and has exactly one period of its plan |
| Delivery.ManualDeliversOnce | packages/core/src/manual-delivery.ts:44-75 | of two operators the first to commit decides what the buyer gets |
| Promises.RefundedExactlyOnce | packages/core/src/orders.ts:322-365 | in every run an order's REFUND rows total its price once FAILED or REFUNDED and nothing in any other status, over two refund paths with two keys, unless a late write found it given back; and whatever is paid for an order, given back for it or left over from it is on its buyer's balance |
| Promises.ChargedIffServed | apps/bot/src/domain/orders.ts:166-217 | in every run an order paid only from the balance has cost its buyer, by the buyer's own ledger rows, its price while PAID, DELIVERING or DELIVERED and nothing otherwise, unless a late write found it given back; what others earn by it, such as a referrer, is let in |
| Promises.PromoCountExact | packages/core/src/orders.ts:132-153 | in every run, edits of promos included, usedCount is never above maxUses unless that was edited to below it, and it is the number of the promo's orders not EXPIRED or REFUNDED unless a late write found one of them REFUNDED |
| Promises.OneCredentialPerOrder | packages/core/src/delivery.ts:182-225 | in every run, late writes or not, with the claim as one transaction, a SOLD item stays with its order, no order holds two items, no order has two periods, and a period is its order's buyer's and plan's, from the payment on |
| Promises.PayloadWrittenOnce | packages/core/src/manual-delivery.ts:44-75 | in every run the moment of payment is stamped once and stays; DELIVERED implies a payload, and whatever follows leaves it as it was and the order goes on, unless a late write lands on an order that has its payload or was given back |
| Promises.RenewedAtMostOnce | packages/core/src/subscriptions.ts:120-198 | in every run, for any interleaving of renewals from stale reads: one order per subscription and expiry, which closed that very period and has exactly one successor, for the same buyer and plan, from the old end or the renewal, whichever is later; a debit of exactly the price if and only if it was not free |
| Promises.RenewedAtItsPrice | packages/core/src/subscriptions.ts:120-185 | in every run, from however stale a read, a renewal has cost what its plan was priced at an earlier instant of the run at which the period was ACTIVE, the plan on sale and the balance sufficient, and runs for the days the plan had then |
| Promises.BookkeepingLasts | packages/core/src/fulfillment.ts:126-135 | in every run an order of a subscription plan whose bookkeeping has been done has exactly one period from then on |
| Promises.FulfillEnds | packages/core/src/fulfillment.ts:106-226 | an uninterrupted fulfilment ends served at no cost, parked with an operator, or FAILED with the whole price returned |
| Promises.FulfillAgain | packages/core/src/fulfillment.ts:106-154 | running it again on what it delivered changes nothing |
| Promises.PoolFulfilmentIsARun | packages/core/src/fulfillment.ts:106-226 | left alone, the machine's steps for a pool-backed order are fulfillOrder |
| Promises.SuppliedFulfilmentIsARun | packages/core/src/delivery.ts:303-363 | left alone, the machine's steps for a supplier's product are fulfillOrder |
| Promises.LateWriteMoneyIff | packages/core/src/orders.ts:238-268 | a late write of either kind on a priced order keeps its refund exact, and its charge if no other rail paid, if and only if it does not find it FAILED or REFUNDED |
| Promises.LateWritePromoIff | packages/core/src/orders.ts:132-153 | it keeps the promo's count if and only if it does not find the order REFUNDED; then the count is one short |
| Promises.LateDeliveringPayloadIff | packages/core/src/delivery.ts:112-121 | markDelivering landing late and the delivery that goes on from there replace what the buyer was handed, for some answer, if and only if the order was DELIVERED, or REFUNDED after its delivery |
| Promises.RaceServesRefunded | packages/core/src/orders.ts:251-268 | from every state with a priced PAID order, the interleaving after which the buyer has the goods and the whole price back and the promo counts one order too few |
| Promises.RaceOverwrites | packages/core/src/delivery.ts:112-121 | from every state with a PAID order, two deliveries that hand out two payloads |
| Promises.RaceRefundsTwice | packages/core/src/fulfillment.ts:160-226 | from every state with a priced PAID order and an empty pool, the interleaving that refunds twice |
| Promises.BalancePaysAgainIff | apps/bot/src/domain/orders.ts:197-217 | on an order in flight the payment charges if and only if the balance has not paid for it yet |
| StockClaim.HandedOutOnce | packages/core/src/delivery.ts:182-216 | for every interleaving of locks, commits, aborts, closings, reopenings by a late markDelivering, reservations, restocking and deletions: no item goes to two orders and no order holds two at a time, none appears or vanishes but by restocking or deletion, and an item handed out stays with its order unless a reopened order had a claim on it from before |
| StockClaim.AsManyWinnersAsItems | packages/core/src/delivery.ts:194-203 | k distinct claimers of n AVAILABLE items without aborts end with exactly min(k, n) winners |
| StockClaim.AloneItIsTheTransaction | packages/core/src/delivery.ts:182-216 | with nobody else about, begin, lock and commit leave the stock as the atomic transaction does and lose exactly when it finds the pool empty |
| StockClaim.CloseKeeps | packages/core/src/orders.ts:104-109 | releasing reserved stock waits for a held lock and never takes an item a claim is about to hand out |
| Reopening.ReopenIff | packages/core/src/orders.ts:238-249 | a late markDelivering leaves every SOLD item with its order, in every run from there on, if and only if it finds no claim of its order that goes by an overtaken read |
| Reopening.OnlyReopeningsExpose | packages/core/src/delivery.ts:182-216 | in every run without such a write, whatever is reserved, released, deleted and claimed, no item is ever in danger, so what is handed out stays handed out |
| Reopening.ReopenedHandsOutTwice | packages/core/src/delivery.ts:186-216 | the run from one AVAILABLE item that sells one credential to two buyers |
| TronMatch.MatchTransfer | apps/worker/src/lib/tron-match.ts:57-71 | whatever is matched can take a transfer |
| TronMatch.ExactIff | apps/worker/src/lib/tron-match.ts:48-62 | an exact match happens if and only if the transfer is new and somebody was asked for its amount; it goes to a live candidate before an expired one, then to the newest, then to the first |
| TronMatch.ByTagIff | apps/worker/src/lib/tron-match.ts:64-70 | a by-tag match happens if and only if the transfer is new, nobody was asked for its amount, it carries a tag and one candidate alone can take that tag |
| TronMatch.UnmatchedIff | apps/worker/src/lib/tron-match.ts:57-71 | exactly when a transfer is already recorded, and exactly when it is left to an operator for having no tag, an unknown one or a shared one |
| TronMatch.SoleHolderMatches | apps/worker/src/lib/tron-match.ts:57-71 | the only taker of a tag gets every new transfer that carries it, whatever its amount |
| TronMatch.SharedTagIsAmbiguous | apps/worker/src/lib/tron-match.ts:67-70 | two takers of one tag leave the transfer to an operator |
| TronMatch.PickBest | apps/worker/src/lib/tron-match.ts:48-55 | the chosen candidate is one that no other comes before |
| TagProtocol.Shuffled | apps/bot/src/payments/tron.ts:63-72 | in place: the Fisher-Yates shuffle is a permutation for every draw |
| TagProtocol.AllocateTronTag | apps/bot/src/payments/tron.ts:84-120 | in place: a tag handed out was free and vacant and is now reserved for the hold; it gives up only if every free tag is reserved or Redis failed, and then touches nothing |
| TagProtocol.Reservations.SetNxPx | apps/bot/src/payments/tron.ts:108-117 | SET NX PX: succeeds exactly on a vacant key and touches no other |
| TagProtocol.TagsUniqueIff | apps/bot/src/payments/tron.ts:84-120 | over every run of any number of checkouts no tag is held twice, if and only if twice the longest delay is shorter than the hold |
| TagProtocol.TransferFindsItsInvoice | apps/worker/src/queues/chain-scan.worker.ts:148-165 | in every reachable state a new transfer with the tag of a waiting invoice is matched to it and to no other |
| TagProtocol.EveryRunFindsInvoice | apps/worker/src/queues/chain-scan.worker.ts:148-165 | over every run a transfer of exactly an invoice's amount is matched exactly to it |
| TagProtocol.LoadCandidates | apps/worker/src/queues/chain-scan.worker.ts:148-165 | the candidates are exactly the loadable rows, each as the matcher sees it |
| TagProtocol.LoadedIff | apps/worker/src/queues/chain-scan.worker.ts:120-165 | exactly the USDT payments of the last 50 minutes that are not PAID or FAILED, each as it stands; an unpaid one of a closed order counts as expired |
| ChainScan.FindTx | apps/worker/src/queues/chain-scan.worker.ts:232-242 | the row that carries a transfer, none only if no row does |
| ChainScan.OldestOf | apps/worker/src/queues/chain-scan.worker.ts:338-346 | the oldest candidate of an order, none only if it has none |
| ChainScan.ExpireStaleInvoices | apps/worker/src/queues/chain-scan.worker.ts:298-308 | in place: exactly the unpaid invoices past their hold become EXPIRED |
| ChainScan.ExpiresExactly | apps/worker/src/queues/chain-scan.worker.ts:298-308 | exactly the unpaid invoices older than 50 minutes become EXPIRED |
| ChainScan.BindTransfer | apps/worker/src/queues/chain-scan.worker.ts:355-405 | in place: a fresh invoice takes the transfer unless another did, an UNDERPAID one gets a row of its own, a row made by a parallel sweep is reused |
| ChainScan.BindsExactly | apps/worker/src/queues/chain-scan.worker.ts:355-405 | when binding goes through, which row the transfer is then on, what that row is, for whose order and buyer, and that no other row changes |
| ChainScan.Claim | apps/worker/src/queues/chain-scan.worker.ts:492-503 | in place: the row leaves CONFIRMING or nothing happens |
| ChainScan.SettleOrderPaid | apps/worker/src/queues/chain-scan.worker.ts:505-556 | in place: order, payment and surplus commit together; a closed order is reported and nothing written |
| ChainScan.SettleOrderCompleted | apps/worker/src/queues/chain-scan.worker.ts:565-629 | in place: order, payment, reclaim and closing of the short rows commit together or not at all |
| ChainScan.SettleUnderpaid | apps/worker/src/queues/chain-scan.worker.ts:642-693 | in place: the row is UNDERPAID for the ask and the whole cents are credited |
| ChainScan.SettleLate | apps/worker/src/queues/chain-scan.worker.ts:695-753 | in place: the money goes to the balance; an order paid elsewhere is flagged |
| ChainScan.SettleTopup | apps/worker/src/queues/chain-scan.worker.ts:756-788 | in place: whatever arrived is credited under the top-up key |
| ChainScan.Settle | apps/worker/src/queues/chain-scan.worker.ts:451-475 | in place: a bound transfer reaches exactly one of the five outcomes |
| Outcomes.SettleEnds | apps/worker/src/queues/chain-scan.worker.ts:451-788 | a bound transfer buys its order if and only if that is PENDING and in time and the transfer covers the ask, alone or with earlier credits still on the balance; what then becomes of order, row, short rows and flag; and every cent not spent is on the balance of the row's owner, and no other balance moves, in all five outcomes |
| Settlement.MoneyConserved | apps/worker/src/queues/chain-scan.worker.ts:451-783 | at every instant of every run with any number of overlapping and crashing sweeps: received by settled transfers = net TRON credits + asks of the orders they bought + less than a cent per settled transfer |
| Settlement.BuysOrIsCredited | apps/worker/src/queues/chain-scan.worker.ts:451-783 | every bound transfer has moved nothing yet, or bought its order and been balanced to less than a cent on its payer's balance, or been credited to its payer in full; never both, never neither, and nothing on anybody else's |
| Settlement.EveryCentIsTheBuyers | apps/worker/src/queues/chain-scan.worker.ts:526-775 | in every run each ledger row about a USDT payment, surplus, reclaim, short, late or top-up, is on its owner's balance, who is the buyer of its order |
| Settlement.SettledAtMostOnce | apps/worker/src/queues/chain-scan.worker.ts:225-291 | whatever runs later, a transfer stays on its one row, no row is CONFIRMING twice, and nothing more is moved for it |
| Settlement.MovesOnlyWhenSettled | apps/worker/src/queues/chain-scan.worker.ts:492-503 | the ledger moves for a TRON payment only in the step in which it leaves CONFIRMING |
| Settlement.DoublePaymentIsFlagged | apps/worker/src/queues/chain-scan.worker.ts:695-753 | money for an order paid on another rail is credited to its buyer in full and flagged, late money for an order that is over is not flagged |
| Settlement.StepsAreSettle | apps/worker/src/queues/chain-scan.worker.ts:451-475 | left alone, the machine's steps for a bound transfer are `settle` |
| Settlement.ScanEvolvesInvoices | apps/worker/src/queues/chain-scan.worker.ts:298-308 | expiring, binding and settling an invoice free no held tag and take none |
| SoldInFull.NotSoldShort | apps/worker/src/queues/chain-scan.worker.ts:338-346 | in every run an order sold for USDT, unless a sweep went astray to it, was bought by exactly one transfer, for an amount asked on one of its own invoices, and what came in less what the balance was given is that amount to less than a cent, crash recovery included |
| SoldInFull.ElderIsLoaded | apps/worker/src/queues/chain-scan.worker.ts:72-74 | while an order can be sold its first invoice is still a candidate, so a follow-up is never measured by its own amount |
| SoldInFull.FallbackSellsShortIff | apps/worker/src/queues/chain-scan.worker.ts:395-403 | when binding falls back on a parallel sweep's row the order is sold exactly if the transfer, alone or with the earlier credits, affords the candidate's amount, and for less than its sole ask if and only if that amount and the dust fall short of it; a candidate of the same order never sells short |
| ShortSale.FallbackSellsShort | apps/worker/src/queues/chain-scan.worker.ts:395-403 | a run from the empty shop, with a sweep begun a second before an invoice's hold ends, that sells an order asked at 2.0001 USDT for 1.0001 |
| Remainder.RemainderCoversTheAsk | apps/worker/src/queues/chain-scan.worker.ts:636-640 | the remainder carries the tag, covers the ask with the floored credit, reclaims between a cent and the credit when below the ask, and costs the buyer the ask plus the first payment's dust |
| Remainder.ShortIsCounted | apps/worker/src/queues/chain-scan.worker.ts:478-489 | the first short payment is credited in whole cents and counts towards the next transfer |
| Remainder.RemainderIsMatched | apps/worker/src/queues/chain-scan.worker.ts:464-474 | a transfer of exactly the remainder is matched to the short invoice |
| Remainder.RemainderBuysTheOrder | apps/worker/src/queues/chain-scan.worker.ts:565-629 | from any state with one short payment counted and unspent: it gets its own row, buys the order for its ask and closes the short rows it completes; the buyer never gives up a whole cent more than the ask |
| Remainder.ShortThenRemainder | apps/worker/src/queues/chain-scan.worker.ts:451-693 | from the unpaid invoice to the sale: a transfer of less than the ask is bound, credited and counted; then, whatever the rest of the shop does in between, a transfer of exactly the remainder is matched to the same invoice and buys the order for its ask, and over both payments the buyer has given up the ask and the dust of the first |
| Remainder.SecondShortIsAmbiguous | apps/worker/src/lib/tron-match.ts:67-70 | after a second short payment a transfer of another amount with the tag is nobody's |
| SerialSweep.ProcessTransfers | apps/worker/src/queues/chain-scan.worker.ts:225-291 | in place: the loop over the transfers, oldest first, with its three maps |
| SerialSweep.ScanOnce | apps/worker/src/queues/chain-scan.worker.ts:177-222 | in place: stale invoices are expired, then the transfers are processed |
| SerialSweep.SweepAccountsForAll | apps/worker/src/queues/chain-scan.worker.ts:246-288 | after one uninterrupted sweep every listed transfer is on a payment that left CONFIRMING or is flagged |
| SerialSweep.EarliestTakesTheInvoice | apps/worker/src/queues/chain-scan.worker.ts:248-250 | of all new transfers with the tag of a waiting invoice the earliest by block timestamp gets it, wherever it is listed |
| SerialSweep.HandleIsARun | apps/worker/src/queues/chain-scan.worker.ts:250-287 | one turn of the loop is a run of the sweep machine, so all that holds of every run holds of the loop |
| SerialSweep.SettleWorks | apps/worker/src/queues/chain-scan.worker.ts:451-475 | without a rival a settlement always ends in one of its outcomes |
| SerialSweep.SortsInOrder | apps/worker/src/queues/chain-scan.worker.ts:249 | the processing order is by block timestamp |
| Topup.SettleMissedTopup | apps/worker/src/queues/payments-poll.worker.ts:196-240 | in place: claim and credit commit together, settled elsewhere is a no-op |
| Topup.ResolveMismatchedPaidInvoice | apps/worker/src/queues/payments-poll.worker.ts:254-308 | in place: PAID without a credit and one anomaly row, together and only from a waiting row |
| Topup.SettlePaidInvoice | apps/worker/src/queues/payments-poll.worker.ts:320-402 | in place: the four ways a paid invoice can end, and whether this call sold the order |
| Topup.PollSellsIff | apps/worker/src/queues/payments-poll.worker.ts:320-402 | a paid invoice makes a PENDING order PAID as of now and its payment with it, and changes nothing else in the shop; any other order stays as it is, and no money is booked |
| Topup.ProcessPaymentsPoll | apps/worker/src/queues/payments-poll.worker.ts:70-92 | in place: the sweep over the selected payments, its count, and its end at the first error |
| Topup.PollCounts | apps/worker/src/queues/payments-poll.worker.ts:70-92 | the number a sweep reports is the number of orders it has sold, each PENDING before and PAID as of the sweep; no other order has changed, however the sweep ends |
| Topup.PollLeaves | apps/worker/src/queues/payments-poll.worker.ts:70-92 | an expired invoice makes the payment EXPIRED exactly if it was read as PENDING; an active one, and a payment waiting no more, are left alone |
| Topup.PollCredits | apps/worker/src/queues/payments-poll.worker.ts:180-240 | a missed top-up of a waiting payment is credited its amount on the balance of who asked for it, and no other |
| Topup.SettleCryptoBotTopup | apps/bot/src/domain/topup.ts:29-69 | in place: the webhook's guarded claim and credit |
| Topup.WebhookCredits | apps/bot/src/domain/topup.ts:29-69 | exactly the amount asked for, for a payment read as waiting or UNDERPAID and not PAID by now, is credited to who asked for it; another amount makes the payment UNDERPAID; nothing else does anything |
| Topup.SettleStarsTopup | apps/bot/src/domain/topup.ts:145-191 | in place: nothing for another payer or another number of Stars; otherwise the guarded claim and the credit |
| Topup.StarsCredit | apps/bot/src/domain/topup.ts:145-191 | the cents promised for the Stars are credited to who asked for them exactly if payer and number of Stars, where named, are the ones asked and the payment is waiting |
| TopupRails.CreditedExactlyOnce | apps/bot/src/domain/topup.ts:29-69 | in every interleaving of poll, webhook, Stars and chain scan, statement by statement, the ledger holds nothing, or one row of exactly its worth on its owner's balance, for a top-up; a PAID one worth a cent has been credited, and a credited one is PAID unless a plain update landed on it when it was |
| TopupRails.FlaggedAtMostOnce | apps/worker/src/queues/payments-poll.worker.ts:242-253 | in every run, overlapping sweeps included, a payment gets at most one anomaly row and is not polled again |
| TopupRails.ToldIff | apps/worker/src/queues/payments-poll.worker.ts:109-152 | in every run a payment the poll found paid with another amount is polled no more, and an operator has been told, or is about to be, if and only if no poll died between marking it and telling |
| TopupRails.StepsArePollOne | apps/worker/src/queues/payments-poll.worker.ts:70-92 | left alone, the machine's steps for a paid invoice are the sweep's turn for it, `settlePaidInvoice` included |
| TopupRails.PlainUpdateForgetsIff | apps/worker/src/queues/payments-poll.worker.ts:86-88 | the plain update of the poll, or of the webhook, keeps "credited means PAID" if and only if the row is not PAID when it lands |
| TopupRails.ExpiryAfterCredit | apps/worker/src/queues/payments-poll.worker.ts:86-88 | the interleaving in which a credited top-up ends EXPIRED |
| WholeShop.CoreQuiet | packages/core/src/orders.ts:156-365 | every step of the pipeline is one the wallet tolerates |
| WholeShop.ChainRails | apps/worker/src/queues/chain-scan.worker.ts:225-783 | every step of the wallet is one the pipeline tolerates |
| WholeShop.SideRailsJoin | apps/worker/src/queues/payments-poll.worker.ts:70-402 | every transaction of the CryptoBot poll, its webhook and the Stars update is a step both machines tolerate, so joint runs contain them |
| WholeShop.PollSaleJoins | apps/worker/src/queues/payments-poll.worker.ts:344-365 | where the poll finds the paid invoice of a PENDING order the joint run has the order PAID as of now and remembers that a rail paid it |
| WholeShop.EveryPromiseAtOnce | apps/worker/src/queues/chain-scan.worker.ts:505-556 | at every instant of every joint run: the wallet is conserved; whatever was paid, given back or left over for an order is on its buyer's balance; no order holds two items or two periods; promos are counted and limited as above; every renewal happened once; refunds are exact and balance buyers charged exactly while served, order by order, unless a late write found the order given back; no order is sold for an amount not asked unless a sweep went astray to it |
| WholeShop.NothingComesBack | packages/core/src/orders.ts:238-268 | from any instant of a joint run to any later one: a SOLD item stays with its order, an order goes on and keeps its payload unless a late write found otherwise, and a settled transfer stays on its row with all it moved |

## Left out

- NotSoldShort: the ask is that of one of the order's own invoices; two checkouts that race may issue two, and a repeated checkout quotes the price of the day.
- NotSoldShort: not for an order a sweep went astray to; it is false there (ShortSale.FallbackSellsShort), and FallbackSellsShortIff gives the exact condition of one such step.
- RefundedExactlyOnce: not for an order a late write found FAILED or REFUNDED; it is false there (RaceRefundsTwice), and LateWriteMoneyIff gives the exact condition of the write.
- ChargedIffServed: not for such an order either; it is false there (RaceServesRefunded), with the same condition.
- PromoCountExact: the count leaves out a promo one of whose orders a late write found REFUNDED; it is false there (RaceServesRefunded), and LateWritePromoIff gives the exact condition. The limit leaves out a promo whose limit was edited to below its count (apps/bot/src/server/routes/api/admin/promos.ts:142).
- HandedOutOnce: "for good" leaves out an item that was in danger when its order's closing was undone; it is false there (ReopenedHandsOutTwice), and ReopenIff gives the exact condition.
- EveryPromiseAtOnce: that a CryptoBot or Stars top-up is credited once, and the stock claim at the grain of row locks, are proved on machines of their own (TopupRails, StockClaim).
- PayloadWrittenOnce: not for an order a late write found with its payload or given back; it is false there (RaceOverwrites), and LateDeliveringPayloadIff, LateDeliveredPayloadIff and LateWriteOrderIff give the exact conditions.
- EveryRunFindsInvoice: before a second row exists on an order, with one sweep's load and match as a step; delays are bounded and Redis is not flushed.
- RemainderBuysTheOrder: for a single UNDERPAID row whose credit is unspent; SecondShortIsAmbiguous shows why.
- ShortThenRemainder: between the two payments no other USDT transfer is settled and no other invoice issued; RemainderBuysTheOrder takes up whatever state those leave.
- StackingClosedForm: for orders whose payment time is recorded and with no row of the user and plan still running; NoDayLostIff covers the swept rows.
- RenewedAtMostOnce: a plan with a negative price, which the code would renew for free, counts as price 0.
- FulfillOrder: `deliver` and the settlement after it run without interruption here; Pipeline takes them apart.
- CreateOrder: the unique-violation branch; in an atomic transaction the key was looked up before, and PostgreSQL aborts the transaction that hits it.
- Encryption, HMAC, tokens and sessions: a stored payload is its plaintext.
- The dashboard's deletion of a stock item (apps/admin/src/lib/actions/stock.ts:116-127) looks at the item and deletes it in two statements, so it can hit one that was SOLD in between; a deletion here is the guarded one of apps/bot/src/server/routes/api/admin/stock.ts:119-121.
- Audit rows other than the flagged transfers and the poll's anomalies, provider receipts kept with a payment, events, notifications, queues and delivery reconciliation: no promise proved here depends on them.
- `expiresInMinutes`: no caller passes it, so an order lives 20 minutes in the machines.
- How stock becomes RESERVED: no code shown does it; it is a step of the environment.
- The reuse of an open TRON invoice by a second checkout: the machines let any checkout issue one, which covers the reuse and its races.
- The order side of the CryptoBot webhook and of Stars: any rail may sell a PENDING order (`Pipeline.RailMoves`), and the poll's own path is modelled (`Topup.PollSellsIff`).
- RenewsIff: like RenewalCosts, for a period that was not renewed before; a repeat is refused by the order's key (RenewedAtMostOnce).
- RefundsIff: like FailsIff, for a first credit under their key; that no run credits twice is RefundedExactlyOnce.
- `creditTopup`: it has no caller.
- Two transfers inside one TRON transaction: the program, like the model, knows a transfer by its transaction id.
- Referral bonuses, reminders, statistics, catalogue, user interfaces and provider clients: they would only add easier members.
