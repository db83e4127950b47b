/** The SQL statements of the webhook transactions, each as a function from tables to tables. */
module Tables {
  import opened Contracts
  import opened Items

  function FindOrderId(db: Db, orderId: string): Option<nat> {
    if orderId in db.orderIndex then Some(db.orderIndex[orderId]) else None
  }

  /** The order row with its items, by shop order id. */
  function FindOrder(db: Db, orderId: string): Option<Order> {
    if orderId in db.orderIndex && db.orderIndex[orderId] in db.orders
    then Some(db.orders[db.orderIndex[orderId]])
    else None
  }

  function FindPayment(db: Db, reference: string): Option<Payment> {
    if reference in db.payments then Some(db.payments[reference]) else None
  }

  predicate IsTerminal(status: PaymentStatus) {
    status == PaymentCompleted || status == PaymentCancelled
  }

  // Webhook events: insertion does nothing on a known (type, id).

  function RecordShop(db: Db, e: ShopEvent): Db {
    if e.eventId in db.shopEvents then db
    else db.(shopEvents := db.shopEvents[e.eventId := EventRow(e, false)])
  }

  function RecordPayment(db: Db, e: PaymentEvent): Db {
    if e.eventId in db.paymentEvents then db
    else db.(paymentEvents := db.paymentEvents[e.eventId := EventRow(e, false)])
  }

  function MarkShopProcessed(db: Db, eventId: string): Db {
    if eventId !in db.shopEvents then db
    else db.(shopEvents := db.shopEvents[eventId := db.shopEvents[eventId].(processed := true)])
  }

  function MarkPaymentProcessed(db: Db, eventId: string): Db {
    if eventId !in db.paymentEvents then db
    else db.(paymentEvents := db.paymentEvents[eventId := db.paymentEvents[eventId].(processed := true)])
  }

  function MarkPaymentEventsProcessed(db: Db, reference: string): Db {
    db.(paymentEvents :=
      map k | k in db.paymentEvents ::
        if db.paymentEvents[k].payload.reference == reference
        then db.paymentEvents[k].(processed := true)
        else db.paymentEvents[k])
  }

  // Orders and their items.

  /** Inserts an order unless `order_id` is taken. */
  function InsertOrder(db: Db, orderId: string, email: string): Db {
    if orderId in db.orderIndex then db
    else db.(orders := db.orders[db.nextId := Order(orderId, email, [], OrderPending, None, None)],
             orderIndex := db.orderIndex[orderId := db.nextId],
             nextId := db.nextId + 1)
  }

  function InsertItems(db: Db, id: nat, items: seq<Item>): Db {
    if id !in db.orders then db
    else db.(orders := db.orders[id := db.orders[id].(items := db.orders[id].items + items)])
  }

  function MarkPaid(db: Db, id: nat, paidAt: int): Db {
    if id !in db.orders then db
    else db.(orders := db.orders[id := db.orders[id].(state := OrderPaid, paidAt := Some(paidAt))])
  }

  function NewJob(now: int, dueAt: int): Job {
    Job(Pending, now, dueAt, 0, None, None, None)
  }

  /** Inserts the outbox job unless the order already has one. */
  function ScheduleSync(db: Db, id: nat, now: int, delaySeconds: nat): Db {
    if id in db.jobs then db
    else db.(jobs := db.jobs[id := NewJob(now, now + delaySeconds * SECOND)])
  }

  function DelaySeconds(items: seq<Item>, cfg: Config): nat {
    if HasHardware(items, cfg.hardwareSkus) then cfg.hardwareDelaySeconds else 0
  }

  function MarkPaidAndSchedule(db: Db, id: nat, items: seq<Item>, paidAt: int, now: int, cfg: Config): Db {
    ScheduleSync(MarkPaid(db, id, paidAt), id, now, DelaySeconds(items, cfg))
  }

  /** The job states in which the order's cancellation goes through. */
  predicate JobCancellable(status: SyncStatus) {
    status == Pending || status == Waiting || status == Dead
  }

  /** The guard of the cancellation query: the order exists and no job forbids it. */
  predicate MayCancel(db: Db, id: nat) {
    id in db.orders && (id in db.jobs ==> JobCancellable(db.jobs[id].status))
  }

  function MarkCancelledOrder(db: Db, id: nat): Db {
    if id !in db.orders then db
    else db.(orders := db.orders[id := db.orders[id].(state := OrderCancelled)])
  }

  function CancelJob(db: Db, id: nat, now: int): Db {
    if id in db.jobs && JobCancellable(db.jobs[id].status)
    then db.(jobs := db.jobs[id := db.jobs[id].(status := Cancelled, lockedAt := None, dueAt := now)])
    else db
  }

  function CancelOrder(db: Db, id: nat, now: int): Result<Db> {
    if MayCancel(db, id) then Ok(CancelJob(MarkCancelledOrder(db, id), id, now)) else Err(OrderCannotCancel)
  }

  // Payments: COMPLETED and CANCELLED rows reject every further write.

  function Coalesce(a: Option<nat>, b: Option<nat>): Option<nat> {
    if a.Some? then a else b
  }

  function UpsertPayment(db: Db, reference: string, status: PaymentStatus, orderId: Option<nat>, paidAt: Option<int>): Result<Db> {
    if reference !in db.payments then
      Ok(db.(payments := db.payments[reference := Payment(orderId, status, paidAt)]))
    else
      var row := db.payments[reference];
      if IsTerminal(row.status) then Err(PaymentFinalized)
      else
        var paid := if status == PaymentCompleted then paidAt else row.paidAt;
        Ok(db.(payments := db.payments[reference := Payment(Coalesce(row.orderId, orderId), status, paid)]))
  }

  function CancelPayment(db: Db, reference: string, orderId: Option<nat>): Result<Db> {
    if reference !in db.payments then
      Ok(db.(payments := db.payments[reference := Payment(orderId, PaymentCancelled, None)]))
    else
      var row := db.payments[reference];
      if IsTerminal(row.status) then Err(PaymentFinalized)
      else Ok(db.(payments := db.payments[reference := Payment(Coalesce(row.orderId, orderId), PaymentCancelled, row.paidAt)]))
  }

  function LinkPaymentOrder(db: Db, reference: string, id: nat): Db {
    if reference in db.payments && db.payments[reference].orderId.None?
    then db.(payments := db.payments[reference := db.payments[reference].(orderId := Some(id))])
    else db
  }
}
