/**
 The rows, events, statuses and settings shared by every other module.

 `Db` is one snapshot of the PostgreSQL schema. Instants and durations are
 integers counting nanoseconds, as in Go's `time.Duration`.
 */
module Contracts {

  const MILLISECOND: int := 1_000_000
  const SECOND: int := 1_000_000_000

  datatype Option<+T> = None | Some(value: T)

  datatype Result<+T> = Ok(value: T) | Err(error: Error)

  /** Every reason for which a webhook transaction is rolled back. */
  datatype Error =
    | PaymentFinalized
    | OrderPayloadConflict
    | PaymentPayloadConflict
    | DigitalCancellation
    | OrderCannotCancel
    | PaymentNotFound
    | MissingPaidAt

  datatype PaymentStatus = PaymentPending | PaymentCompleted | PaymentFailed | PaymentCancelled

  datatype OrderState = OrderPending | OrderPaid | OrderCancelled

  datatype SyncStatus = Pending | Processing | Synced | Waiting | Dead | Cancelled

  /** One order line; the price is in cents and `isHardware` is the optional override. */
  datatype Item = Item(sku: string, quantity: nat, price: nat, isHardware: Option<bool>)

  /** A payment timestamp: its RFC 3339 text, which is what gets compared, and its instant. */
  datatype Timestamp = Timestamp(text: string, instant: int)

  datatype ShopEvent = ShopEvent(eventId: string, orderId: string, email: string, items: seq<Item>)

  datatype PaymentEvent =
    PaymentEvent(eventId: string, reference: string, status: PaymentStatus, timestamp: Timestamp)

  datatype Order =
    Order(orderId: string, email: string, items: seq<Item>, state: OrderState,
          paidAt: Option<int>, sapId: Option<string>)

  datatype Payment = Payment(orderId: Option<nat>, status: PaymentStatus, paidAt: Option<int>)

  datatype Job =
    Job(status: SyncStatus, createdAt: int, dueAt: int, attempts: nat, lockedAt: Option<int>,
        waitingSince: Option<int>, sapId: Option<string>)

  datatype EventRow<+P> = EventRow(payload: P, processed: bool)

  /**
   One snapshot of the tables. `orders` is keyed by the serial primary key and
   `orderIndex` is the UNIQUE index on `order_id`; `payments` is keyed by the
   UNIQUE `reference_order_id`; `jobs` by the UNIQUE `sync_jobs.order_id`; and
   the two event maps are the two halves of the (event_type, event_id) key.
   */
  datatype Db =
    Db(orders: map<nat, Order>, orderIndex: map<string, nat>, nextId: nat,
       payments: map<string, Payment>, shopEvents: map<string, EventRow<ShopEvent>>,
       paymentEvents: map<string, EventRow<PaymentEvent>>, jobs: map<nat, Job>)

  const EMPTY_DB: Db := Db(map[], map[], 1, map[], map[], map[], map[])

  /** Settings, with the HARDWARE rows of the SKU catalogue as a fixed set. */
  datatype Config =
    Config(hardwareDelaySeconds: nat, hardwareSkus: set<string>, maxAttempts: int,
           maxTotalAttempts: int, recoveryWindowSeconds: int, reconnectMaxMs: int)
  {
    /** Attempts after which a retryable failure enters recovery; 3 when unset. */
    function MaxAttempts(): (n: int)
      ensures n > 0 && (maxAttempts > 0 ==> n == maxAttempts)
    {
      if maxAttempts <= 0 then 3 else maxAttempts
    }

    /** Hard limit on delivery attempts; 5 when unset. */
    function MaxTotalAttempts(): (n: int)
      ensures n > 0 && (maxTotalAttempts > 0 ==> n == maxTotalAttempts)
    {
      if maxTotalAttempts <= 0 then 5 else maxTotalAttempts
    }

    /** Length of the recovery window; 15 minutes when unset. */
    function RecoveryWindow(): (d: int)
      ensures d >= SECOND && (recoveryWindowSeconds > 0 ==> d == recoveryWindowSeconds * SECOND)
    {
      (if recoveryWindowSeconds <= 0 then 900 else recoveryWindowSeconds) * SECOND
    }

    /** Longest pause between two attempts to reconnect the listener; 1 second when unset. */
    function ReconnectMax(): (d: int)
      ensures d >= MILLISECOND && (reconnectMaxMs > 0 ==> d == reconnectMaxMs * MILLISECOND)
    {
      (if reconnectMaxMs <= 0 then 1000 else reconnectMaxMs) * MILLISECOND
    }
  }
}
