/** The two webhook transactions, branch by branch, over one snapshot of the tables. */
module Webhooks {
  import opened Contracts
  import opened Items
  import opened Tables

  /** What a committed transaction leaves behind and whether it reported a duplicate. */
  datatype Committed = Committed(db: Db, duplicate: bool)

  predicate SameOrder(stored: Order, e: ShopEvent) {
    SamePayload(stored.email, stored.items, e.email, e.items)
  }

  predicate SamePaymentPayload(left: PaymentEvent, right: PaymentEvent) {
    left.reference == right.reference && left.status == right.status && left.timestamp.text == right.timestamp.text
  }

  function ProcessShop(db: Db, e: ShopEvent, now: int, cfg: Config): Result<Committed> {
    var existing := FindOrder(db, e.orderId);
    if e.eventId in db.shopEvents then
      if existing.None? || !SameOrder(existing.value, e) then Err(OrderPayloadConflict)
      else Ok(Committed(db, true))
    else
      var recorded := RecordShop(db, e);
      if e.orderId in db.orderIndex then
        if existing.None? || !SameOrder(existing.value, e) then Err(OrderPayloadConflict)
        else Ok(Committed(MarkShopProcessed(recorded, e.eventId), true))
      else
        var id := recorded.nextId;
        var stored := InsertItems(InsertOrder(recorded, e.orderId, e.email), id, e.items);
        match ReconcilePayment(stored, e, id, now, cfg)
        case Err(error) => Err(error)
        case Ok(reconciled) => Ok(Committed(MarkShopProcessed(reconciled, e.eventId), false))
  }

  function ReconcilePayment(db: Db, e: ShopEvent, id: nat, now: int, cfg: Config): Result<Db> {
    if e.orderId !in db.payments then Ok(db)
    else
      var payment := db.payments[e.orderId];
      var linked := if payment.orderId.None? then LinkPaymentOrder(db, e.orderId, id) else db;
      if payment.status == PaymentCancelled then
        match CancelOrder(linked, id, now)
        case Err(error) => Err(error)
        case Ok(cancelled) => Ok(MarkPaymentEventsProcessed(cancelled, e.orderId))
      else if payment.status != PaymentCompleted then Ok(linked)
      else if payment.paidAt.None? then Err(MissingPaidAt)
      else
        var paid := MarkPaidAndSchedule(linked, id, e.items, payment.paidAt.value, now, cfg);
        Ok(MarkPaymentEventsProcessed(paid, e.orderId))
  }

  function ProcessPayment(db: Db, e: PaymentEvent, now: int, cfg: Config): Result<Committed> {
    if e.eventId in db.paymentEvents then
      if !SamePaymentPayload(db.paymentEvents[e.eventId].payload, e) then Err(PaymentPayloadConflict)
      else if e.reference !in db.payments then Err(PaymentNotFound)
      else Ok(Committed(db, true))
    else
      var recorded := RecordPayment(db, e);
      var existing := FindPayment(db, e.reference);
      if existing.Some? && IsTerminal(existing.value.status) then
        if existing.value.status != e.status then Err(PaymentFinalized)
        else Ok(Committed(MarkPaymentProcessed(recorded, e.eventId), true))
      else
        var id := FindOrderId(recorded, e.reference);
        var applied :=
          if e.status == PaymentCancelled then ApplyCancellation(recorded, e, id, now, cfg)
          else ApplyStatus(recorded, e, id, now, cfg);
        match applied
        case Err(error) => Err(error)
        case Ok(done) => Ok(Committed(MarkPaymentProcessed(done, e.eventId), false))
  }

  function ApplyCancellation(db: Db, e: PaymentEvent, id: Option<nat>, now: int, cfg: Config): Result<Db> {
    if id.Some? && !HasHardware(ListItems(db, id.value), cfg.hardwareSkus) then Err(DigitalCancellation)
    else
      match CancelPayment(db, e.reference, id)
      case Err(error) => Err(error)
      case Ok(cancelled) => if id.None? then Ok(cancelled) else CancelOrder(cancelled, id.value, now)
  }

  function ApplyStatus(db: Db, e: PaymentEvent, id: Option<nat>, now: int, cfg: Config): Result<Db> {
    var paidAt := if e.status == PaymentCompleted then Some(e.timestamp.instant) else None;
    match UpsertPayment(db, e.reference, e.status, id, paidAt)
    case Err(error) => Err(error)
    case Ok(upserted) =>
      if e.status != PaymentCompleted || id.None? then Ok(upserted)
      else if upserted.payments[e.reference].paidAt.None? then Err(MissingPaidAt)
      else Ok(MarkPaidAndSchedule(upserted, id.value, ListItems(upserted, id.value),
                                  upserted.payments[e.reference].paidAt.value, now, cfg))
  }

  function ListItems(db: Db, id: nat): seq<Item> {
    if id in db.orders then db.orders[id].items else []
  }

  /** The transaction runner: an error discards every statement of the transaction. */
  function Commit(db: Db, result: Result<Committed>): Db {
    match result
    case Ok(committed) => committed.db
    case Err(_) => db
  }

  function ShopTx(db: Db, e: ShopEvent, now: int, cfg: Config): Db {
    Commit(db, ProcessShop(db, e, now, cfg))
  }

  function PaymentTx(db: Db, e: PaymentEvent, now: int, cfg: Config): Db {
    Commit(db, ProcessPayment(db, e, now, cfg))
  }
}
