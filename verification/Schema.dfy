/** The shop's tables as values, and the one mutable object that holds them.

    A table is a sequence and a row's id is its position; of all rows only stock items are ever
    deleted, and those keep their place as `Deleted`.
    Every `prisma.$transaction` of the program becomes a function from `Db` to
    `Result<Db>` (an `Err` is a rollback) and a method on `Database` proved equal to it.
*/
module Schema {
  /** Row number in the table the name of the field points at. */
  type Id = nat
  /** A TRON transaction id; only ever compared for equality. */
  type Txid = nat

  datatype Option<+T> = None | Some(value: T)

  datatype Error =
    | NotFound
    | OrderState
    | PromoInvalid
    | StockUnavailable
    | InsufficientBalance
    | IdempotencyConflict
    | OutOfRange
    | DeliveryFailed
    | ManualFallbackRequired
    | StaleSettlement
    | UniqueViolation
    | TagsExhausted
    | TagReservation

  datatype Result<+T> = Ok(value: T) | Err(error: Error) {
    predicate IsFailure() { Err? }

    function PropagateFailure<U>(): (r: Result<U>)
      requires Err?
    {
      Err(error)
    }

    function Extract(): T
      requires Ok?
    {
      value
    }
  }

  datatype OrderStatus = Pending | Paid | Delivering | Delivered | Failed | Refunded | Expired
  datatype PaymentStatus = Pending | Confirming | Paid | Underpaid | Expired | Failed
  datatype StockStatus = Available | Reserved | Sold | Deleted
  datatype SubStatus = Active | Expired | Cancelled
  datatype LedgerType = TopUp | Purchase | Refund | AdminAdjust | Referral | SweepAdjust
  datatype Provider = Balance | CryptoBot | Stars | Tron
  datatype PromoType = Percent | Fixed
  /** `UniqueCode` carries the generator template of `Product.externalConfig`, if it has one. */
  datatype DeliveryType = StockPool | UniqueCode(template: Option<string>) | ExternalApi | ManualFallback

  /** The idempotency keys of the ledger. The text of a key is a fixed prefix followed by an
      id, so equal keys are equal constructors applied to equal ids. */
  datatype Key =
    | PurchaseOf(order: Id)
    | RefundOf(order: Id)
    | FailureRefundOf(order: Id)
    | OverpaidOf(payment: Id)
    | UnderpaidOf(payment: Id)
    | ReclaimOf(payment: Id)
    | LateOf(payment: Id)
    | TopupOf(payment: Id)
    | RenewalOf(sub: Id, expiresAt: int)
    | OtherKey(text: string)

  /** `Order.idempotencyKey`. */
  datatype OrderKey = ClientKey(text: string) | RenewalOrderOf(sub: Id, expiresAt: int)

  datatype Plan = Plan(
    priceCents: int,
    discountPercent: int,
    durationDays: Option<nat>,
    isActive: bool,
    delivery: DeliveryType)

  /** `tronAsk` is a history field: the tagged ask for which chain-scan sold the order. */
  datatype Order = Order(
    user: Id,
    plan: Id,
    qty: nat,
    amountCents: nat,
    status: OrderStatus,
    promo: Option<Id>,
    payload: Option<string>,
    key: OrderKey,
    createdAt: int,
    paidAt: Option<int>,
    expiresAt: Option<int>,
    externalId: Option<Txid>,
    tronAsk: Option<int>)

  /** `received` is `rawPayload.receivedUsdt6`; `invoiceAsk` is a history field: the tagged
      amount the buyer was asked for, `None` on the row of a follow-up transfer. */
  datatype Payment = Payment(
    provider: Provider,
    order: Option<Id>,
    user: Id,
    amount: int,
    txHash: Option<Txid>,
    status: PaymentStatus,
    topupReference: bool,
    createdAt: int,
    received: int,
    invoiceAsk: Option<int>)

  datatype StockItem = StockItem(plan: Id, payload: string, status: StockStatus, order: Option<Id>)

  datatype Promo = Promo(
    kind: PromoType,
    value: int,
    maxUses: Option<int>,
    usedCount: int,
    expiresAt: Option<int>,
    plan: Option<Id>,
    isActive: bool)

  datatype Subscription = Subscription(
    user: Id,
    plan: Id,
    order: Id,
    startsAt: int,
    expiresAt: int,
    autoRenew: bool,
    status: SubStatus)

  /** One `BalanceTransaction`. */
  datatype Row = Row(user: Id, kind: LedgerType, amountCents: int, order: Option<Id>, payment: Option<Id>)

  /** What a ledger call answers; stored verbatim in the idempotency record. */
  datatype EntryResult = EntryResult(id: Id, user: Id, kind: LedgerType, amountCents: int, balanceAfterCents: int)

  /** An `IdempotencyRecord`; a record of another scope answers no ledger call. */
  datatype Record = LedgerRecord(result: EntryResult) | ForeignRecord

  datatype Ledger = Ledger(rows: seq<Row>, records: map<Key, Record>)

  /** An `anomaly.flagged` audit row of the CryptoBot poll. */
  datatype AnomalyKind = PaidNoOrder | PaidOrderClosed | AmountMismatch
  datatype Anomaly = Anomaly(payment: Id, order: Option<Id>, kind: AnomalyKind)

  datatype Db = Db(
    plans: seq<Plan>,
    orders: seq<Order>,
    payments: seq<Payment>,
    ledger: Ledger,
    stock: seq<StockItem>,
    promos: seq<Promo>,
    subs: seq<Subscription>,
    flagged: set<Txid>,
    anomalies: seq<Anomaly>)

  const EMPTY_LEDGER := Ledger([], map[])

  /** The tables as the program's transactions update them, in place. */
  class Database {
    var plans: seq<Plan>
    var orders: seq<Order>
    var payments: seq<Payment>
    var rows: seq<Row>
    var records: map<Key, Record>
    var stock: seq<StockItem>
    var promos: seq<Promo>
    var subs: seq<Subscription>
    var flagged: set<Txid>
    var anomalies: seq<Anomaly>

    function View(): Db
      reads this
    {
      Db(plans, orders, payments, Ledger(rows, records), stock, promos, subs, flagged, anomalies)
    }

    constructor (v: Db)
      ensures View() == v
    {
      plans, orders, payments := v.plans, v.orders, v.payments;
      rows, records := v.ledger.rows, v.ledger.records;
      stock, promos, subs, flagged, anomalies := v.stock, v.promos, v.subs, v.flagged, v.anomalies;
    }

    /** ROLLBACK: every table is again what it was at BEGIN. */
    method Rollback(begin: Db)
      modifies this
      ensures View() == begin
    {
      plans, orders, payments := begin.plans, begin.orders, begin.payments;
      rows, records := begin.ledger.rows, begin.ledger.records;
      stock, promos, subs := begin.stock, begin.promos, begin.subs;
      flagged, anomalies := begin.flagged, begin.anomalies;
    }
  }
}
