/**
 What every webhook transaction keeps. `Inv` couples orders, payments, jobs and
 events; on such states the statement-by-statement transactions equal the
 declarative effects `ShopArrives` and `PaymentArrives`.
 */
module Lifecycle {
  import opened Contracts
  import opened Items
  import opened Tables
  import opened Webhooks

  /** The primary key and the UNIQUE index on `order_id` describe the same rows. */
  ghost predicate Indexed(db: Db) {
    && (forall r :: r in db.orderIndex ==> db.orderIndex[r] in db.orders && db.orders[db.orderIndex[r]].orderId == r)
    && (forall id :: id in db.orders ==>
          && id < db.nextId
          && db.orders[id].orderId in db.orderIndex
          && db.orderIndex[db.orders[id].orderId] == id)
  }

  /** A payment is linked exactly when its order exists, and dated exactly when completed. */
  ghost predicate PaymentSettled(db: Db, reference: string, p: Payment) {
    && p.orderId == FindOrderId(db, reference)
    && (p.paidAt.Some? <==> p.status == PaymentCompleted)
  }

  /** The order's state, paid instant and job are those its payment calls for. */
  ghost predicate OrderSettled(o: Order, payment: Option<Payment>, hasJob: bool) {
    if payment.Some? && payment.value.status == PaymentCompleted then
      o.state == OrderPaid && o.paidAt == payment.value.paidAt && hasJob
    else if payment.Some? && payment.value.status == PaymentCancelled then
      o.state == OrderCancelled && o.paidAt.None? && !hasJob
    else
      o.state == OrderPending && o.paidAt.None? && !hasJob
  }

  ghost predicate JobSound(j: Job) {
    && j.status != Cancelled
    && (j.status == Processing <==> j.lockedAt.Some?)
    && (j.status == Waiting ==> j.waitingSince.Some?)
    && (j.waitingSince.Some? ==> j.status == Waiting || j.status == Processing)
  }

  ghost predicate ShopEventStored(db: Db, eventId: string, row: EventRow<ShopEvent>) {
    && row.processed && row.payload.eventId == eventId
    && FindOrder(db, row.payload.orderId).Some?
    && SameOrder(FindOrder(db, row.payload.orderId).value, row.payload)
  }

  ghost predicate PaymentEventStored(db: Db, eventId: string, row: EventRow<PaymentEvent>) {
    row.processed && row.payload.eventId == eventId && row.payload.reference in db.payments
  }

  ghost predicate PaymentsSettled(db: Db) {
    forall r :: r in db.payments ==> PaymentSettled(db, r, db.payments[r])
  }

  ghost predicate OrdersSettled(db: Db) {
    forall id :: id in db.orders ==> OrderSettled(db.orders[id], FindPayment(db, db.orders[id].orderId), id in db.jobs)
  }

  ghost predicate JobsSound(db: Db) {
    forall id :: id in db.jobs ==> id in db.orders && JobSound(db.jobs[id])
  }

  ghost predicate EventsStored(db: Db) {
    && (forall k :: k in db.shopEvents ==> ShopEventStored(db, k, db.shopEvents[k]))
    && (forall k :: k in db.paymentEvents ==> PaymentEventStored(db, k, db.paymentEvents[k]))
  }

  ghost predicate Inv(db: Db) {
    Indexed(db) && PaymentsSettled(db) && OrdersSettled(db) && JobsSound(db) && EventsStored(db)
  }

  lemma EmptyInv()
    ensures Inv(EMPTY_DB)
  {
  }

  // ---------- declarative effects ----------

  /** The order row its payment calls for. */
  function Settle(o: Order, p: Payment): Order {
    match p.status
    case PaymentCompleted => o.(state := OrderPaid, paidAt := p.paidAt)
    case PaymentCancelled => o.(state := OrderCancelled)
    case _ => o
  }

  /** The outbox after an order with these items got this payment status. */
  function Enqueue(jobs: map<nat, Job>, id: nat, status: PaymentStatus, items: seq<Item>, now: int, cfg: Config): map<nat, Job> {
    if status == PaymentCompleted then jobs[id := NewJob(now, now + DelaySeconds(items, cfg) * SECOND)] else jobs
  }

  /** A first shop event: the order appears, settled by whatever payment is already there. */
  function ShopArrives(db: Db, e: ShopEvent, now: int, cfg: Config): Db {
    var id := db.nextId;
    var o := Order(e.orderId, e.email, e.items, OrderPending, None, None);
    var payment := FindPayment(db, e.orderId);
    Db(db.orders[id := if payment.Some? then Settle(o, payment.value) else o],
       db.orderIndex[e.orderId := id],
       id + 1,
       if payment.Some? then db.payments[e.orderId := payment.value.(orderId := Some(id))] else db.payments,
       db.shopEvents[e.eventId := EventRow(e, true)],
       db.paymentEvents,
       if payment.Some? then Enqueue(db.jobs, id, payment.value.status, e.items, now, cfg) else db.jobs)
  }

  /** A payment event that is not refused: the payment takes its status and settles the order, if any. */
  function PaymentArrives(db: Db, e: PaymentEvent, now: int, cfg: Config): Db {
    var id := FindOrderId(db, e.reference);
    var p := Payment(id, e.status, if e.status == PaymentCompleted then Some(e.timestamp.instant) else None);
    Db(if id.Some? && id.value in db.orders then db.orders[id.value := Settle(db.orders[id.value], p)] else db.orders,
       db.orderIndex,
       db.nextId,
       db.payments[e.reference := p],
       db.shopEvents,
       db.paymentEvents[e.eventId := EventRow(e, true)],
       if id.Some? then Enqueue(db.jobs, id.value, e.status, ListItems(db, id.value), now, cfg) else db.jobs)
  }

  ghost predicate Open(db: Db, reference: string) {
    reference in db.payments ==> !IsTerminal(db.payments[reference].status)
  }

  /** The one refusal left to an unfinished payment: cancelling a digital-only order. */
  ghost predicate DigitalRefusal(db: Db, e: PaymentEvent, cfg: Config) {
    && e.status == PaymentCancelled
    && FindOrder(db, e.reference).Some?
    && !HasHardware(FindOrder(db, e.reference).value.items, cfg.hardwareSkus)
  }

  /** All stored payment events are processed already, so the bulk mark changes no row. */
  lemma BulkMarkChangesNothing(db: Db, reference: string)
    requires forall k :: k in db.paymentEvents ==> db.paymentEvents[k].processed
    ensures MarkPaymentEventsProcessed(db, reference) == db
  {
    assert MarkPaymentEventsProcessed(db, reference).paymentEvents == db.paymentEvents;
  }

  /** A new shop order is always stored; none of the transaction's error branches can be taken. */
  lemma ShopEffect(db: Db, e: ShopEvent, now: int, cfg: Config)
    requires Inv(db) && e.eventId !in db.shopEvents && e.orderId !in db.orderIndex
    ensures ProcessShop(db, e, now, cfg) == Ok(Committed(ShopArrives(db, e, now, cfg), false))
  {
    var id := db.nextId;
    assert id !in db.orders && id !in db.jobs;
    if e.orderId in db.payments {
      assert PaymentSettled(db, e.orderId, db.payments[e.orderId]);
    }
    assert forall k :: k in db.paymentEvents ==> PaymentEventStored(db, k, db.paymentEvents[k]);
    FirstShopTx(db, e, now, cfg);
  }

  lemma FirstShopTx(db: Db, e: ShopEvent, now: int, cfg: Config)
    requires e.eventId !in db.shopEvents && e.orderId !in db.orderIndex
    requires db.nextId !in db.orders && db.nextId !in db.jobs
    requires e.orderId in db.payments ==>
               && db.payments[e.orderId].orderId.None?
               && (db.payments[e.orderId].paidAt.Some? <==> db.payments[e.orderId].status == PaymentCompleted)
    requires forall k :: k in db.paymentEvents ==> db.paymentEvents[k].processed
    ensures ProcessShop(db, e, now, cfg) == Ok(Committed(ShopArrives(db, e, now, cfg), false))
  {
    var id, recorded := db.nextId, RecordShop(db, e);
    var stored := InsertItems(InsertOrder(recorded, e.orderId, e.email), id, e.items);
    assert [] + e.items == e.items;
    var o := Order(e.orderId, e.email, e.items, OrderPending, None, None);
    assert stored.orders == db.orders[id := o];
    assert recorded.shopEvents[e.eventId := EventRow(e, true)] == db.shopEvents[e.eventId := EventRow(e, true)];
    if e.orderId in db.payments {
      var p := db.payments[e.orderId];
      ReconcileEffect(stored, e, id, now, cfg);
      assert stored.orders[id := Settle(o, p)] == db.orders[id := Settle(o, p)];
    }
  }

  lemma ReconcileEffect(db: Db, e: ShopEvent, id: nat, now: int, cfg: Config)
    requires id in db.orders && id !in db.jobs && e.orderId in db.payments
    requires db.payments[e.orderId].orderId.None?
    requires db.payments[e.orderId].paidAt.Some? <==> db.payments[e.orderId].status == PaymentCompleted
    requires forall k :: k in db.paymentEvents ==> db.paymentEvents[k].processed
    ensures var p := db.payments[e.orderId];
            ReconcilePayment(db, e, id, now, cfg) == Ok(
              db.(payments := db.payments[e.orderId := p.(orderId := Some(id))],
                  orders := db.orders[id := Settle(db.orders[id], p)],
                  jobs := if p.status == PaymentCompleted
                          then db.jobs[id := NewJob(now, now + DelaySeconds(e.items, cfg) * SECOND)] else db.jobs))
  {
    var p := db.payments[e.orderId];
    var linked := LinkPaymentOrder(db, e.orderId, id);
    match p.status {
      case PaymentCancelled =>
        BulkMarkChangesNothing(CancelOrder(linked, id, now).value, e.orderId);
      case PaymentCompleted =>
        BulkMarkChangesNothing(MarkPaidAndSchedule(linked, id, e.items, p.paidAt.value, now, cfg), e.orderId);
      case _ =>
        assert db.orders[id := db.orders[id]] == db.orders;
    }
  }

  lemma CancellationEffect(db: Db, e: PaymentEvent, id: Option<nat>, now: int, cfg: Config)
    requires Open(db, e.reference)
    requires e.reference in db.payments ==> db.payments[e.reference].paidAt.None? && db.payments[e.reference].orderId == id
    requires id.Some? ==> id.value in db.orders && id.value !in db.jobs
    ensures var p := Payment(id, PaymentCancelled, None);
            ApplyCancellation(db, e, id, now, cfg) ==
            if id.Some? && !HasHardware(db.orders[id.value].items, cfg.hardwareSkus) then Err(DigitalCancellation)
            else Ok(db.(payments := db.payments[e.reference := p],
                        orders := if id.None? then db.orders else db.orders[id.value := Settle(db.orders[id.value], p)]))
  {
  }

  lemma StatusEffect(db: Db, e: PaymentEvent, id: Option<nat>, now: int, cfg: Config)
    requires Open(db, e.reference) && e.status != PaymentCancelled
    requires e.reference in db.payments ==> db.payments[e.reference].paidAt.None? && db.payments[e.reference].orderId == id
    requires id.Some? ==> id.value in db.orders && id.value !in db.jobs
    ensures var completed := e.status == PaymentCompleted;
            var p := Payment(id, e.status, if completed then Some(e.timestamp.instant) else None);
            ApplyStatus(db, e, id, now, cfg) ==
            Ok(db.(payments := db.payments[e.reference := p],
                   orders := if id.None? then db.orders else db.orders[id.value := Settle(db.orders[id.value], p)],
                   jobs := if id.Some? && completed
                           then db.jobs[id.value := NewJob(now, now + DelaySeconds(db.orders[id.value].items, cfg) * SECOND)]
                           else db.jobs))
  {
    if id.Some? {
      assert db.orders[id.value := db.orders[id.value]] == db.orders;
    }
  }

  /** A new event on an unfinished payment takes effect unless it cancels a digital-only order. */
  lemma PaymentEffect(db: Db, e: PaymentEvent, now: int, cfg: Config)
    requires Inv(db) && e.eventId !in db.paymentEvents && Open(db, e.reference)
    ensures ProcessPayment(db, e, now, cfg) ==
            if DigitalRefusal(db, e, cfg) then Err(DigitalCancellation)
            else Ok(Committed(PaymentArrives(db, e, now, cfg), false))
  {
    var id := FindOrderId(db, e.reference);
    if e.reference in db.payments {
      assert PaymentSettled(db, e.reference, db.payments[e.reference]);
    }
    if id.Some? {
      assert db.orders[id.value].orderId == e.reference;
      assert OrderSettled(db.orders[id.value], FindPayment(db, e.reference), id.value in db.jobs);
    }
    if e.status == PaymentCancelled {
      CancellationTx(db, e, now, cfg);
    } else {
      StatusTx(db, e, now, cfg);
    }
  }

  ghost predicate Unsettled(db: Db, e: PaymentEvent) {
    var id := FindOrderId(db, e.reference);
    && e.eventId !in db.paymentEvents
    && Open(db, e.reference)
    && (e.reference in db.payments ==> db.payments[e.reference].paidAt.None? && db.payments[e.reference].orderId == id)
    && (id.Some? ==> id.value in db.orders && id.value !in db.jobs)
  }

  lemma CancellationTx(db: Db, e: PaymentEvent, now: int, cfg: Config)
    requires Unsettled(db, e) && e.status == PaymentCancelled
    ensures ProcessPayment(db, e, now, cfg) ==
            if DigitalRefusal(db, e, cfg) then Err(DigitalCancellation)
            else Ok(Committed(PaymentArrives(db, e, now, cfg), false))
  {
    var recorded := RecordPayment(db, e);
    var row := EventRow(e, true);
    assert recorded.paymentEvents[e.eventId := row] == db.paymentEvents[e.eventId := row];
    CancellationEffect(recorded, e, FindOrderId(db, e.reference), now, cfg);
  }

  lemma StatusTx(db: Db, e: PaymentEvent, now: int, cfg: Config)
    requires Unsettled(db, e) && e.status != PaymentCancelled
    ensures ProcessPayment(db, e, now, cfg) == Ok(Committed(PaymentArrives(db, e, now, cfg), false))
  {
    var recorded := RecordPayment(db, e);
    var row := EventRow(e, true);
    assert recorded.paymentEvents[e.eventId := row] == db.paymentEvents[e.eventId := row];
    StatusEffect(recorded, e, FindOrderId(db, e.reference), now, cfg);
  }

  // ---------- preservation ----------

  lemma ShopArrivesKeepsInv(db: Db, e: ShopEvent, now: int, cfg: Config)
    requires Inv(db) && e.orderId !in db.orderIndex
    ensures Inv(ShopArrives(db, e, now, cfg))
  {
    assert db.nextId !in db.orders && db.nextId !in db.jobs;
    ShopArrivesIndexed(db, e, now, cfg);
    ShopArrivesSettlesPayments(db, e, now, cfg);
    ShopArrivesSettlesOrders(db, e, now, cfg);
    ShopArrivesStoresEvents(db, e, now, cfg);
  }

  lemma ShopArrivesIndexed(db: Db, e: ShopEvent, now: int, cfg: Config)
    requires Indexed(db) && e.orderId !in db.orderIndex
    ensures Indexed(ShopArrives(db, e, now, cfg))
  {
  }

  lemma ShopArrivesSettlesPayments(db: Db, e: ShopEvent, now: int, cfg: Config)
    requires PaymentsSettled(db)
    ensures PaymentsSettled(ShopArrives(db, e, now, cfg))
  {
  }

  lemma ShopArrivesSettlesOrders(db: Db, e: ShopEvent, now: int, cfg: Config)
    requires Indexed(db) && PaymentsSettled(db) && OrdersSettled(db) && e.orderId !in db.orderIndex
    requires db.nextId !in db.jobs
    ensures OrdersSettled(ShopArrives(db, e, now, cfg))
  {
    var id, db' := db.nextId, ShopArrives(db, e, now, cfg);
    forall k | k in db'.orders
      ensures OrderSettled(db'.orders[k], FindPayment(db', db'.orders[k].orderId), k in db'.jobs)
    {
      if k != id {
        assert db.orders[k].orderId != e.orderId;
        assert OrderSettled(db.orders[k], FindPayment(db, db.orders[k].orderId), k in db.jobs);
      } else if e.orderId in db.payments {
        assert PaymentSettled(db, e.orderId, db.payments[e.orderId]);
      }
    }
  }

  lemma ShopArrivesStoresEvents(db: Db, e: ShopEvent, now: int, cfg: Config)
    requires Indexed(db) && EventsStored(db) && e.orderId !in db.orderIndex
    ensures EventsStored(ShopArrives(db, e, now, cfg))
  {
  }

  lemma PaymentArrivesKeepsInv(db: Db, e: PaymentEvent, now: int, cfg: Config)
    requires Inv(db) && Open(db, e.reference)
    ensures Inv(PaymentArrives(db, e, now, cfg))
  {
    PaymentArrivesIndexed(db, e, now, cfg);
    PaymentArrivesSettlesPayments(db, e, now, cfg);
    PaymentArrivesSettlesOrders(db, e, now, cfg);
    PaymentArrivesStoresEvents(db, e, now, cfg);
    PaymentArrivesJobs(db, e, now, cfg);
  }

  lemma PaymentArrivesSettlesPayments(db: Db, e: PaymentEvent, now: int, cfg: Config)
    requires PaymentsSettled(db)
    ensures PaymentsSettled(PaymentArrives(db, e, now, cfg))
  {
  }

  lemma PaymentArrivesJobs(db: Db, e: PaymentEvent, now: int, cfg: Config)
    requires Indexed(db) && JobsSound(db)
    ensures JobsSound(PaymentArrives(db, e, now, cfg))
  {
  }

  lemma PaymentArrivesIndexed(db: Db, e: PaymentEvent, now: int, cfg: Config)
    requires Indexed(db)
    ensures Indexed(PaymentArrives(db, e, now, cfg))
    ensures forall k :: k in db.orders ==>
              var o, o' := db.orders[k], PaymentArrives(db, e, now, cfg).orders[k];
              o'.orderId == o.orderId && o'.email == o.email && o'.items == o.items
  {
  }

  lemma PaymentArrivesSettlesOrders(db: Db, e: PaymentEvent, now: int, cfg: Config)
    requires Indexed(db) && OrdersSettled(db) && Open(db, e.reference)
    ensures OrdersSettled(PaymentArrives(db, e, now, cfg))
  {
    var db' := PaymentArrives(db, e, now, cfg);
    forall k | k in db'.orders
      ensures OrderSettled(db'.orders[k], FindPayment(db', db'.orders[k].orderId), k in db'.jobs)
    {
      assert OrderSettled(db.orders[k], FindPayment(db, db.orders[k].orderId), k in db.jobs);
    }
  }

  lemma PaymentArrivesStoresEvents(db: Db, e: PaymentEvent, now: int, cfg: Config)
    requires Indexed(db) && EventsStored(db)
    ensures EventsStored(PaymentArrives(db, e, now, cfg))
  {
  }

  /** Recording one more event row about data that is already there keeps the invariant. */
  lemma ShopRowKeepsInv(db: Db, e: ShopEvent)
    requires Inv(db) && FindOrder(db, e.orderId).Some? && SameOrder(FindOrder(db, e.orderId).value, e)
    ensures Inv(db.(shopEvents := db.shopEvents[e.eventId := EventRow(e, true)]))
  {
    var db' := db.(shopEvents := db.shopEvents[e.eventId := EventRow(e, true)]);
    forall k | k in db'.shopEvents ensures ShopEventStored(db', k, db'.shopEvents[k]) {
      if k != e.eventId { assert ShopEventStored(db, k, db.shopEvents[k]); }
    }
    forall k | k in db'.paymentEvents ensures PaymentEventStored(db', k, db'.paymentEvents[k]) {
      assert PaymentEventStored(db, k, db.paymentEvents[k]);
    }
    SameRowsKeepInv(db, db');
  }

  lemma PaymentRowKeepsInv(db: Db, e: PaymentEvent)
    requires Inv(db) && e.reference in db.payments
    ensures Inv(db.(paymentEvents := db.paymentEvents[e.eventId := EventRow(e, true)]))
  {
    var db' := db.(paymentEvents := db.paymentEvents[e.eventId := EventRow(e, true)]);
    forall k | k in db'.shopEvents ensures ShopEventStored(db', k, db'.shopEvents[k]) {
      assert ShopEventStored(db, k, db.shopEvents[k]);
    }
    forall k | k in db'.paymentEvents ensures PaymentEventStored(db', k, db'.paymentEvents[k]) {
      if k != e.eventId { assert PaymentEventStored(db, k, db.paymentEvents[k]); }
    }
    SameRowsKeepInv(db, db');
  }

  lemma SameRowsKeepInv(db: Db, db': Db)
    requires Inv(db)
    requires db' == db.(shopEvents := db'.shopEvents, paymentEvents := db'.paymentEvents)
    requires EventsStored(db')
    ensures Inv(db')
  {
  }

  // ---------- replays ----------

  /** A further shop event for a stored order changes nothing but its own event row. */
  lemma ShopRepeat(db: Db, e: ShopEvent, now: int, cfg: Config)
    requires Inv(db) && e.orderId in db.orderIndex
    ensures ProcessShop(db, e, now, cfg) ==
            if !SameOrder(db.orders[db.orderIndex[e.orderId]], e) then Err(OrderPayloadConflict)
            else if e.eventId in db.shopEvents then Ok(Committed(db, true))
            else Ok(Committed(db.(shopEvents := db.shopEvents[e.eventId := EventRow(e, true)]), true))
  {
    var recorded := RecordShop(db, e);
    if e.eventId !in db.shopEvents {
      assert recorded.shopEvents[e.eventId := EventRow(e, true)] == db.shopEvents[e.eventId := EventRow(e, true)];
    }
  }

  /** A known event id that comes with an unknown order is a conflict. */
  lemma ShopReuse(db: Db, e: ShopEvent, now: int, cfg: Config)
    requires e.eventId in db.shopEvents && e.orderId !in db.orderIndex
    ensures ProcessShop(db, e, now, cfg) == Err(OrderPayloadConflict)
  {
  }

  /** An event id that is already stored: a duplicate if the payload agrees, else a conflict. */
  lemma PaymentRepeat(db: Db, e: PaymentEvent, now: int, cfg: Config)
    requires Inv(db) && e.eventId in db.paymentEvents
    ensures ProcessPayment(db, e, now, cfg) ==
            var stored := db.paymentEvents[e.eventId].payload;
            if stored.reference == e.reference && stored.status == e.status && stored.timestamp.text == e.timestamp.text
            then Ok(Committed(db, true))
            else Err(PaymentPayloadConflict)
  {
    assert PaymentEventStored(db, e.eventId, db.paymentEvents[e.eventId]);
  }

  /** A new event on a finished payment: recorded if it repeats the status, else refused. */
  lemma PaymentAfterEnd(db: Db, e: PaymentEvent, now: int, cfg: Config)
    requires e.eventId !in db.paymentEvents && !Open(db, e.reference)
    ensures ProcessPayment(db, e, now, cfg) ==
            if db.payments[e.reference].status != e.status then Err(PaymentFinalized)
            else Ok(Committed(db.(paymentEvents := db.paymentEvents[e.eventId := EventRow(e, true)]), true))
  {
    var recorded := RecordPayment(db, e);
    assert recorded.paymentEvents[e.eventId := EventRow(e, true)] == db.paymentEvents[e.eventId := EventRow(e, true)];
  }

  // ---------- every transaction ----------

  /** Lifecycle coupling: every shop transaction, committed or rolled back, keeps `Inv`. */
  lemma ShopTxKeepsInv(db: Db, e: ShopEvent, now: int, cfg: Config)
    requires Inv(db)
    ensures Inv(ShopTx(db, e, now, cfg))
  {
    if e.orderId in db.orderIndex {
      ShopRepeat(db, e, now, cfg);
      if SameOrder(db.orders[db.orderIndex[e.orderId]], e) {
        ShopRowKeepsInv(db, e);
      }
    } else if e.eventId !in db.shopEvents {
      ShopEffect(db, e, now, cfg);
      ShopArrivesKeepsInv(db, e, now, cfg);
    }
  }

  /** Lifecycle coupling: every payment transaction, committed or rolled back, keeps `Inv`. */
  lemma PaymentTxKeepsInv(db: Db, e: PaymentEvent, now: int, cfg: Config)
    requires Inv(db)
    ensures Inv(PaymentTx(db, e, now, cfg))
  {
    if e.eventId in db.paymentEvents {
      PaymentRepeat(db, e, now, cfg);
    } else if Open(db, e.reference) {
      PaymentEffect(db, e, now, cfg);
      PaymentArrivesKeepsInv(db, e, now, cfg);
    } else {
      PaymentAfterEnd(db, e, now, cfg);
      PaymentRowKeepsInv(db, e);
    }
  }
}
