/** What no transaction ever takes back, and which refusals can happen at all. */
module Growth {
  import opened Contracts
  import opened Items
  import opened Tables
  import opened Webhooks
  import opened Lifecycle

  /** The shop's data never changes, and a paid or cancelled order stays as it is. */
  ghost predicate OrderKept(o: Order, o': Order) {
    && o'.orderId == o.orderId && o'.email == o.email && o'.items == o.items
    && (o.state != OrderPending ==> o'.state == o.state && o'.paidAt == o.paidAt)
  }

  ghost predicate PaymentKept(p: Payment, p': Payment) {
    IsTerminal(p.status) ==> p'.status == p.status && p'.paidAt == p.paidAt
  }

  ghost predicate OrdersKept(db: Db, db': Db) {
    && (forall r :: r in db.orderIndex ==> r in db'.orderIndex && db'.orderIndex[r] == db.orderIndex[r])
    && (forall id :: id in db.orders ==> id in db'.orders && OrderKept(db.orders[id], db'.orders[id]))
  }

  ghost predicate PaymentsKept(db: Db, db': Db) {
    forall r :: r in db.payments ==> r in db'.payments && PaymentKept(db.payments[r], db'.payments[r])
  }

  ghost predicate EventsKept(db: Db, db': Db) {
    && (forall k :: k in db.shopEvents ==> k in db'.shopEvents && db'.shopEvents[k] == db.shopEvents[k])
    && (forall k :: k in db.paymentEvents ==> k in db'.paymentEvents && db'.paymentEvents[k] == db.paymentEvents[k])
  }

  /** `db'` may follow `db` at any distance: rows stay, and what is final stays final. */
  ghost predicate Grows(db: Db, db': Db) {
    && OrdersKept(db, db') && PaymentsKept(db, db') && EventsKept(db, db')
    && (forall id :: id in db.jobs ==> id in db'.jobs)
  }

  lemma ShopArrivesGrows(db: Db, e: ShopEvent, now: int, cfg: Config)
    requires Indexed(db) && e.eventId !in db.shopEvents && e.orderId !in db.orderIndex
    ensures Grows(db, ShopArrives(db, e, now, cfg))
  {
  }

  lemma PaymentArrivesGrows(db: Db, e: PaymentEvent, now: int, cfg: Config)
    requires Indexed(db) && OrdersSettled(db) && e.eventId !in db.paymentEvents && Open(db, e.reference)
    ensures Grows(db, PaymentArrives(db, e, now, cfg))
  {
  }

  lemma ShopTxGrows(db: Db, e: ShopEvent, now: int, cfg: Config)
    requires Inv(db)
    ensures Grows(db, ShopTx(db, e, now, cfg))
  {
    hide ProcessShop, ShopArrives, OrdersSettled, PaymentsSettled, EventsStored;
    if e.orderId in db.orderIndex {
      ShopRepeat(db, e, now, cfg);
    } else if e.eventId !in db.shopEvents {
      ShopEffect(db, e, now, cfg);
      ShopArrivesGrows(db, e, now, cfg);
    } else {
      ShopReuse(db, e, now, cfg);
    }
  }

  lemma PaymentTxGrows(db: Db, e: PaymentEvent, now: int, cfg: Config)
    requires Inv(db)
    ensures Grows(db, PaymentTx(db, e, now, cfg))
  {
    hide ProcessPayment, PaymentArrives;
    if e.eventId in db.paymentEvents {
      PaymentRepeat(db, e, now, cfg);
    } else if Open(db, e.reference) {
      PaymentEffect(db, e, now, cfg);
      PaymentArrivesGrows(db, e, now, cfg);
    } else {
      PaymentAfterEndGrows(db, e, now, cfg);
    }
  }

  lemma PaymentAfterEndGrows(db: Db, e: PaymentEvent, now: int, cfg: Config)
    requires e.eventId !in db.paymentEvents && !Open(db, e.reference)
    ensures Grows(db, PaymentTx(db, e, now, cfg))
  {
  }

  /** No two payments point at one order, so the UNIQUE constraint on the link cannot fire. */
  lemma LinksAreOneToOne(db: Db, r: string, r': string)
    requires Inv(db) && r in db.payments && r' in db.payments
    requires db.payments[r].orderId.Some? && db.payments[r].orderId == db.payments[r'].orderId
    ensures r == r'
  {
    assert PaymentSettled(db, r, db.payments[r]) && PaymentSettled(db, r', db.payments[r']);
    assert db.orders[db.orderIndex[r]].orderId == r && db.orders[db.orderIndex[r']].orderId == r';
  }

  /** The shop's events are refused exactly for contradicting, or reusing an id before, a stored order. */
  lemma ShopRefusals(db: Db, e: ShopEvent, now: int, cfg: Config)
    requires Inv(db)
    ensures var r := ProcessShop(db, e, now, cfg);
            && (r.Err? <==> if e.orderId in db.orderIndex
                            then !SameOrder(db.orders[db.orderIndex[e.orderId]], e)
                            else e.eventId in db.shopEvents)
            && (r.Err? ==> r.error == OrderPayloadConflict)
  {
    if e.orderId in db.orderIndex {
      ShopRepeat(db, e, now, cfg);
    } else if e.eventId !in db.shopEvents {
      ShopEffect(db, e, now, cfg);
    }
  }

  /**
   Payment events are refused exactly in three cases and take effect exactly in
   one; all others are duplicates. In particular the order
   is never found impossible to cancel, a completed payment never lacks its
   date, and a duplicate never lacks its payment.
   */
  lemma PaymentRefusals(db: Db, e: PaymentEvent, now: int, cfg: Config)
    requires Inv(db)
    ensures ProcessPayment(db, e, now, cfg).Err? ==>
              ProcessPayment(db, e, now, cfg).error in {PaymentPayloadConflict, PaymentFinalized, DigitalCancellation}
    ensures ProcessPayment(db, e, now, cfg) == Err(PaymentPayloadConflict)
       <==> && e.eventId in db.paymentEvents
            && var stored := db.paymentEvents[e.eventId].payload;
               stored.reference != e.reference || stored.status != e.status || stored.timestamp.text != e.timestamp.text
    ensures ProcessPayment(db, e, now, cfg) == Err(PaymentFinalized)
       <==> e.eventId !in db.paymentEvents && !Open(db, e.reference) && db.payments[e.reference].status != e.status
    ensures ProcessPayment(db, e, now, cfg) == Err(DigitalCancellation)
       <==> e.eventId !in db.paymentEvents && Open(db, e.reference) && DigitalRefusal(db, e, cfg)
    ensures ProcessPayment(db, e, now, cfg).Ok? && !ProcessPayment(db, e, now, cfg).value.duplicate
       <==> e.eventId !in db.paymentEvents && Open(db, e.reference) && !DigitalRefusal(db, e, cfg)
  {
    if e.eventId in db.paymentEvents {
      PaymentRepeat(db, e, now, cfg);
    } else if Open(db, e.reference) {
      PaymentEffect(db, e, now, cfg);
    } else {
      PaymentAfterEnd(db, e, now, cfg);
    }
  }

  /** Whenever an order may be cancelled at all, it has no job: cancelling jobs changes no row. */
  lemma CancellationMeetsNoJob(db: Db, id: nat, now: int)
    requires Inv(db) && id in db.orders
    requires Open(db, db.orders[id].orderId) || db.payments[db.orders[id].orderId].status == PaymentCancelled
    ensures MayCancel(db, id)
    ensures CancelJob(db, id, now) == db
  {
    assert OrderSettled(db.orders[id], FindPayment(db, db.orders[id].orderId), id in db.jobs);
  }

  /** An order with an unfinished payment can be cancelled exactly when scheduling it would delay it as hardware. */
  lemma CancellableIffHardware(db: Db, e: PaymentEvent, now: int, cfg: Config)
    requires Inv(db) && e.eventId !in db.paymentEvents && Open(db, e.reference) && e.reference in db.orderIndex
    requires e.status == PaymentCancelled
    ensures ProcessPayment(db, e, now, cfg).Ok? <==> HasHardware(db.orders[db.orderIndex[e.reference]].items, cfg.hardwareSkus)
    ensures DelaySeconds(db.orders[db.orderIndex[e.reference]].items, cfg) ==
            if ProcessPayment(db, e, now, cfg).Ok? then cfg.hardwareDelaySeconds else 0
  {
    PaymentEffect(db, e, now, cfg);
  }
}
