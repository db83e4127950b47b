/**
 The repositories and services as they run: statements that update the tables
 one after the other inside a transaction that commits or restores everything.
 Each method is proved against the function of the same name.
 */
module Store {
  import opened Contracts
  import I = Items
  import T = Tables
  import W = Webhooks

  class Database {
    var orders: map<nat, Order>
    var orderIndex: map<string, nat>
    var nextId: nat
    var payments: map<string, Payment>
    var shopEvents: map<string, EventRow<ShopEvent>>
    var paymentEvents: map<string, EventRow<PaymentEvent>>
    var jobs: map<nat, Job>

    /** The tables as one value. */
    function View(): Db
      reads this
    {
      Db(orders, orderIndex, nextId, payments, shopEvents, paymentEvents, jobs)
    }

    constructor ()
      ensures View() == EMPTY_DB
    {
      orders, orderIndex, nextId := map[], map[], 1;
      payments, shopEvents, paymentEvents, jobs := map[], map[], map[], map[];
    }

    // ---------- events ----------

    method RecordShop(e: ShopEvent) returns (isNew: bool)
      modifies this
      ensures View() == T.RecordShop(old(View()), e)
      ensures isNew == (e.eventId !in old(shopEvents))
    {
      isNew := e.eventId !in shopEvents;
      if isNew {
        shopEvents := shopEvents[e.eventId := EventRow(e, false)];
      }
    }

    method RecordPayment(e: PaymentEvent) returns (isNew: bool)
      modifies this
      ensures View() == T.RecordPayment(old(View()), e)
      ensures isNew == (e.eventId !in old(paymentEvents))
    {
      isNew := e.eventId !in paymentEvents;
      if isNew {
        paymentEvents := paymentEvents[e.eventId := EventRow(e, false)];
      }
    }

    method MarkShopProcessed(eventId: string)
      modifies this
      ensures View() == T.MarkShopProcessed(old(View()), eventId)
    {
      if eventId in shopEvents {
        shopEvents := shopEvents[eventId := shopEvents[eventId].(processed := true)];
      }
    }

    method MarkPaymentProcessed(eventId: string)
      modifies this
      ensures View() == T.MarkPaymentProcessed(old(View()), eventId)
    {
      if eventId in paymentEvents {
        paymentEvents := paymentEvents[eventId := paymentEvents[eventId].(processed := true)];
      }
    }

    method MarkPaymentEventsProcessed(reference: string)
      modifies this
      ensures View() == T.MarkPaymentEventsProcessed(old(View()), reference)
    {
      paymentEvents :=
        map k | k in paymentEvents ::
          if paymentEvents[k].payload.reference == reference && !paymentEvents[k].processed
          then paymentEvents[k].(processed := true)
          else paymentEvents[k];
      assert paymentEvents == T.MarkPaymentEventsProcessed(old(View()), reference).paymentEvents;
    }

    // ---------- orders ----------

    /** Inserts an order; None when the order id is taken. */
    method CreateOrder(orderId: string, email: string) returns (id: Option<nat>)
      modifies this
      ensures View() == T.InsertOrder(old(View()), orderId, email)
      ensures id == if orderId in old(orderIndex) then None else Some(old(nextId))
    {
      if orderId in orderIndex {
        return None;
      }
      id := Some(nextId);
      orders := orders[nextId := Order(orderId, email, [], OrderPending, None, None)];
      orderIndex := orderIndex[orderId := nextId];
      nextId := nextId + 1;
    }

    /** One INSERT per item. */
    method AddItems(id: nat, items: seq<Item>)
      modifies this
      ensures View() == T.InsertItems(old(View()), id, items)
    {
      assert id in orders ==> orders[id].items + items[..0] == orders[id].items && orders[id := orders[id]] == orders;
      for k := 0 to |items|
        invariant View() == T.InsertItems(old(View()), id, items[..k])
      {
        if id in orders {
          Appended(old(View()), id, items, k);
          orders := orders[id := orders[id].(items := orders[id].items + [items[k]])];
        }
      }
      assert items[..|items|] == items;
    }

    static lemma Appended(db: Db, id: nat, items: seq<Item>, k: nat)
      requires k < |items| && id in db.orders
      ensures var o := db.orders[id].(items := db.orders[id].items + items[..k]);
              db.orders[id := o][id := o.(items := o.items + [items[k]])] == T.InsertItems(db, id, items[..k + 1]).orders
    {
      assert db.orders[id].items + items[..k] + [items[k]] == db.orders[id].items + items[..k + 1];
    }

    /** The items of an order; without ORDER BY the rows may come in any order. */
    method ListItems(id: nat) returns (items: seq<Item>)
      ensures multiset(items) == multiset(W.ListItems(View(), id))
    {
      items := if id in orders then orders[id].items else [];
    }

    method MarkPaidAndSchedule(id: nat, items: seq<Item>, paidAt: int, now: int, cfg: Config)
      modifies this
      ensures View() == T.MarkPaidAndSchedule(old(View()), id, items, paidAt, now, cfg)
    {
      var hardware := I.SchedulerSeesHardware(items, cfg.hardwareSkus);
      if id in orders {
        orders := orders[id := orders[id].(state := OrderPaid, paidAt := Some(paidAt))];
      }
      var delay := 0;
      if hardware {
        delay := cfg.hardwareDelaySeconds;
      }
      if id !in jobs {
        jobs := jobs[id := Job(Pending, now, now + delay * SECOND, 0, None, None, None)];
      }
    }

    /** Check, mark the order, cancel its job: three statements. */
    method CancelOrder(id: nat, now: int) returns (error: Option<Error>)
      modifies this
      ensures error.None? ==> T.CancelOrder(old(View()), id, now) == Ok(View())
      ensures error.Some? ==> T.CancelOrder(old(View()), id, now) == Err(error.value) && View() == old(View())
    {
      if id !in orders || (id in jobs && jobs[id].status in {Processing, Synced, Cancelled}) {
        return Some(OrderCannotCancel);
      }
      orders := orders[id := orders[id].(state := OrderCancelled)];
      if id in jobs {
        jobs := jobs[id := jobs[id].(status := Cancelled, lockedAt := None, dueAt := now)];
      }
      return None;
    }

    // ---------- payments ----------

    method UpsertPayment(reference: string, status: PaymentStatus, orderId: Option<nat>, paidAt: Option<int>) returns (error: Option<Error>)
      modifies this
      ensures error.None? ==> T.UpsertPayment(old(View()), reference, status, orderId, paidAt) == Ok(View())
      ensures error.Some? ==> T.UpsertPayment(old(View()), reference, status, orderId, paidAt) == Err(error.value) && View() == old(View())
    {
      if reference in payments {
        var row := payments[reference];
        if row.status == PaymentCompleted || row.status == PaymentCancelled {
          return Some(PaymentFinalized);
        }
        payments := payments[reference := Payment(if row.orderId.Some? then row.orderId else orderId, status,
                                                  if status == PaymentCompleted then paidAt else row.paidAt)];
      } else {
        payments := payments[reference := Payment(orderId, status, paidAt)];
      }
      return None;
    }

    method CancelPayment(reference: string, orderId: Option<nat>) returns (error: Option<Error>)
      modifies this
      ensures error.None? ==> T.CancelPayment(old(View()), reference, orderId) == Ok(View())
      ensures error.Some? ==> T.CancelPayment(old(View()), reference, orderId) == Err(error.value) && View() == old(View())
    {
      if reference in payments {
        var row := payments[reference];
        if row.status == PaymentCompleted || row.status == PaymentCancelled {
          return Some(PaymentFinalized);
        }
        payments := payments[reference := Payment(if row.orderId.Some? then row.orderId else orderId, PaymentCancelled, row.paidAt)];
      } else {
        payments := payments[reference := Payment(orderId, PaymentCancelled, None)];
      }
      return None;
    }

    method LinkOrder(reference: string, id: nat)
      modifies this
      ensures View() == T.LinkPaymentOrder(old(View()), reference, id)
    {
      if reference in payments && payments[reference].orderId.None? {
        payments := payments[reference := payments[reference].(orderId := Some(id))];
      }
    }

    // ---------- shop service ----------

    /** Is the event's order stored with the same contents? */
    method StoredAlike(e: ShopEvent) returns (alike: bool)
      ensures alike == (T.FindOrder(View(), e.orderId).Some? && W.SameOrder(T.FindOrder(View(), e.orderId).value, e))
    {
      if e.orderId !in orderIndex || orderIndex[e.orderId] !in orders {
        return false;
      }
      var id := orderIndex[e.orderId];
      var items := ListItems(id);
      alike := I.SameOrderPayload(orders[id].email, items, e.email, e.items);
    }

    method ProcessShop(e: ShopEvent, now: int, cfg: Config) returns (r: Result<bool>)
      modifies this
      ensures r.Ok? ==> W.ProcessShop(old(View()), e, now, cfg) == Ok(W.Committed(View(), r.value))
      ensures r.Err? ==> W.ProcessShop(old(View()), e, now, cfg) == Err(r.error)
    {
      var isNew := RecordShop(e);
      if !isNew {
        var alike := StoredAlike(e);
        return if alike then Ok(true) else Err(OrderPayloadConflict);
      }
      var id := CreateOrder(e.orderId, e.email);
      if id.None? {
        var alike := StoredAlike(e);
        if !alike {
          return Err(OrderPayloadConflict);
        }
        MarkShopProcessed(e.eventId);
        return Ok(true);
      }
      AddItems(id.value, e.items);
      var error := ReconcilePayment(e, id.value, now, cfg);
      if error.Some? {
        return Err(error.value);
      }
      MarkShopProcessed(e.eventId);
      return Ok(false);
    }

    method ReconcilePayment(e: ShopEvent, id: nat, now: int, cfg: Config) returns (error: Option<Error>)
      modifies this
      ensures error.None? ==> W.ReconcilePayment(old(View()), e, id, now, cfg) == Ok(View())
      ensures error.Some? ==> W.ReconcilePayment(old(View()), e, id, now, cfg) == Err(error.value)
    {
      if e.orderId !in payments {
        return None;
      }
      var payment := payments[e.orderId];
      if payment.orderId.None? {
        LinkOrder(e.orderId, id);
      }
      if payment.status == PaymentCancelled {
        error := CancelOrder(id, now);
        if error.None? {
          MarkPaymentEventsProcessed(e.orderId);
        }
        return;
      }
      if payment.status != PaymentCompleted {
        return None;
      }
      if payment.paidAt.None? {
        return Some(MissingPaidAt);
      }
      MarkPaidAndSchedule(id, e.items, payment.paidAt.value, now, cfg);
      MarkPaymentEventsProcessed(e.orderId);
      return None;
    }

    // ---------- payment service ----------

    method ProcessPayment(e: PaymentEvent, now: int, cfg: Config) returns (r: Result<bool>)
      modifies this
      ensures r.Ok? ==> W.ProcessPayment(old(View()), e, now, cfg) == Ok(W.Committed(View(), r.value))
      ensures r.Err? ==> W.ProcessPayment(old(View()), e, now, cfg) == Err(r.error)
    {
      var isNew := RecordPayment(e);
      if !isNew {
        var stored := paymentEvents[e.eventId].payload;
        if stored.reference != e.reference || stored.status != e.status || stored.timestamp.text != e.timestamp.text {
          return Err(PaymentPayloadConflict);
        }
        return if e.reference in payments then Ok(true) else Err(PaymentNotFound);
      }
      if e.reference in payments && payments[e.reference].status in {PaymentCompleted, PaymentCancelled} {
        if payments[e.reference].status != e.status {
          return Err(PaymentFinalized);
        }
        MarkPaymentProcessed(e.eventId);
        return Ok(true);
      }
      var id := if e.reference in orderIndex then Some(orderIndex[e.reference]) else None;
      var error;
      if e.status == PaymentCancelled {
        error := ApplyCancellation(e, id, now, cfg);
      } else {
        error := ApplyStatus(e, id, now, cfg);
      }
      if error.Some? {
        return Err(error.value);
      }
      MarkPaymentProcessed(e.eventId);
      return Ok(false);
    }

    method ApplyCancellation(e: PaymentEvent, id: Option<nat>, now: int, cfg: Config) returns (error: Option<Error>)
      modifies this
      ensures error.None? ==> W.ApplyCancellation(old(View()), e, id, now, cfg) == Ok(View())
      ensures error.Some? ==> W.ApplyCancellation(old(View()), e, id, now, cfg) == Err(error.value)
    {
      if id.Some? {
        var items := ListItems(id.value);
        var hardware := I.CancellerSeesHardware(items, cfg.hardwareSkus);
        I.HardwareIgnoresRowOrder(items, W.ListItems(View(), id.value), cfg.hardwareSkus);
        if !hardware {
          return Some(DigitalCancellation);
        }
      }
      error := CancelPayment(e.reference, id);
      if error.None? && id.Some? {
        error := CancelOrder(id.value, now);
      }
    }

    method ApplyStatus(e: PaymentEvent, id: Option<nat>, now: int, cfg: Config) returns (error: Option<Error>)
      modifies this
      ensures error.None? ==> W.ApplyStatus(old(View()), e, id, now, cfg) == Ok(View())
      ensures error.Some? ==> W.ApplyStatus(old(View()), e, id, now, cfg) == Err(error.value)
    {
      var paidAt := if e.status == PaymentCompleted then Some(e.timestamp.instant) else None;
      error := UpsertPayment(e.reference, e.status, id, paidAt);
      if error.Some? || e.status != PaymentCompleted || id.None? {
        return;
      }
      var items := ListItems(id.value);
      if payments[e.reference].paidAt.None? {
        return Some(MissingPaidAt);
      }
      I.HardwareIgnoresRowOrder(items, W.ListItems(View(), id.value), cfg.hardwareSkus);
      MarkPaidAndSchedule(id.value, items, payments[e.reference].paidAt.value, now, cfg);
    }

    // ---------- transactions ----------

    method Restore(saved: Db)
      modifies this
      ensures View() == saved
    {
      orders, orderIndex, nextId := saved.orders, saved.orderIndex, saved.nextId;
      payments, shopEvents, paymentEvents, jobs := saved.payments, saved.shopEvents, saved.paymentEvents, saved.jobs;
    }

    /** The shop webhook: all of its statements or none. */
    method HandleShop(e: ShopEvent, now: int, cfg: Config) returns (r: Result<bool>)
      modifies this
      ensures View() == W.ShopTx(old(View()), e, now, cfg)
      ensures r.Ok? ==> W.ProcessShop(old(View()), e, now, cfg) == Ok(W.Committed(View(), r.value))
      ensures r.Err? ==> W.ProcessShop(old(View()), e, now, cfg) == Err(r.error) && View() == old(View())
    {
      var saved := View();
      r := ProcessShop(e, now, cfg);
      if r.Err? {
        Restore(saved);
      }
    }

    /** The payment webhook: all of its statements or none. */
    method HandlePayment(e: PaymentEvent, now: int, cfg: Config) returns (r: Result<bool>)
      modifies this
      ensures View() == W.PaymentTx(old(View()), e, now, cfg)
      ensures r.Ok? ==> W.ProcessPayment(old(View()), e, now, cfg) == Ok(W.Committed(View(), r.value))
      ensures r.Err? ==> W.ProcessPayment(old(View()), e, now, cfg) == Err(r.error) && View() == old(View())
    {
      var saved := View();
      r := ProcessPayment(e, now, cfg);
      if r.Err? {
        Restore(saved);
      }
    }
  }
}
