/**
 Arrival order: one shop order meets any sequence of payment events, each with
 its own arrival time, and lands at any position among them.
 */
module Reordering {
  import opened Contracts
  import opened Items
  import opened Tables
  import opened Webhooks
  import opened Lifecycle
  import opened Growth

  datatype Arrival = Arrival(event: PaymentEvent, at: int)

  /** The payment events alone, in order; refused ones leave no trace. */
  function RunPayments(db: Db, es: seq<Arrival>, cfg: Config): Db
    decreases |es|
  {
    if es == [] then db else RunPayments(PaymentTx(db, es[0].event, es[0].at, cfg), es[1..], cfg)
  }

  /** The same events with the shop order processed at position `i`, at time `at`. */
  function WithShopAt(db: Db, es: seq<Arrival>, i: nat, s: ShopEvent, at: int, cfg: Config): Db
    requires i <= |es|
    decreases i
  {
    if i == 0 then RunPayments(ShopTx(db, s, at, cfg), es, cfg)
    else WithShopAt(PaymentTx(db, es[0].event, es[0].at, cfg), es[1..], i - 1, s, at, cfg)
  }

  /** Equal jobs up to when they were scheduled and hence fall due. */
  predicate SameJob(j: Job, j': Job) {
    j'.(createdAt := j.createdAt, dueAt := j.dueAt) == j
  }

  ghost predicate SameJobs(a: map<nat, Job>, b: map<nat, Job>) {
    a.Keys == b.Keys && forall id :: id in a ==> SameJob(a[id], b[id])
  }

  /** Equal tables up to the scheduling times of jobs. */
  ghost predicate SameButSchedule(a: Db, b: Db) {
    b.(jobs := a.jobs) == a && SameJobs(a.jobs, b.jobs)
  }

  lemma SameTransitive(a: Db, b: Db, c: Db)
    requires SameButSchedule(a, b) && SameButSchedule(b, c)
    ensures SameButSchedule(a, c)
  {
  }

  lemma PaymentArrivesAlike(a: Db, b: Db, e: PaymentEvent, at: int, at': int, cfg: Config)
    requires SameButSchedule(a, b)
    ensures SameButSchedule(PaymentArrives(a, e, at, cfg), PaymentArrives(b, e, at', cfg))
  {
  }

  /** Payment transactions do not look at schedules. */
  lemma PaymentTxAlike(a: Db, b: Db, e: PaymentEvent, at: int, at': int, cfg: Config)
    requires Inv(a) && Inv(b) && SameButSchedule(a, b)
    ensures SameButSchedule(PaymentTx(a, e, at, cfg), PaymentTx(b, e, at', cfg))
  {
    hide ProcessPayment, Inv;
    if e.eventId in a.paymentEvents {
      PaymentRepeat(a, e, at, cfg);
      PaymentRepeat(b, e, at', cfg);
    } else if Open(a, e.reference) {
      PaymentEffect(a, e, at, cfg);
      PaymentEffect(b, e, at', cfg);
      PaymentArrivesAlike(a, b, e, at, at', cfg);
    } else {
      PaymentAfterEnd(a, e, at, cfg);
      PaymentAfterEnd(b, e, at', cfg);
    }
  }

  lemma {:induction false} RunPaymentsAlike(a: Db, b: Db, es: seq<Arrival>, cfg: Config)
    requires Inv(a) && Inv(b) && SameButSchedule(a, b)
    ensures SameButSchedule(RunPayments(a, es, cfg), RunPayments(b, es, cfg))
    decreases |es|
  {
    hide PaymentTx, Inv;
    if es != [] {
      var e, at := es[0].event, es[0].at;
      PaymentTxAlike(a, b, e, at, at, cfg);
      PaymentTxKeepsInv(a, e, at, cfg);
      PaymentTxKeepsInv(b, e, at, cfg);
      RunPaymentsAlike(PaymentTx(a, e, at, cfg), PaymentTx(b, e, at, cfg), es[1..], cfg);
    }
  }

  /** A shop order that is new to the database, under a new event id. */
  ghost predicate Fresh(db: Db, s: ShopEvent) {
    s.eventId !in db.shopEvents && s.orderId !in db.orderIndex
  }

  /** The event that makes order matter: a first cancellation of this very order. */
  ghost predicate Cancels(db: Db, e: PaymentEvent, reference: string) {
    e.eventId !in db.paymentEvents && Open(db, reference) && e.reference == reference && e.status == PaymentCancelled
  }

  lemma ShopArrivesAlike(db: Db, s: ShopEvent, at: int, at': int, cfg: Config)
    ensures SameButSchedule(ShopArrives(db, s, at, cfg), ShopArrives(db, s, at', cfg))
  {
  }

  /**
   The two effects commute. On other references they touch different rows; on
   the order's own payment, settling later or at once gives the same row.
   */
  lemma EffectsCommute(db: Db, s: ShopEvent, e: PaymentEvent, t: int, t': int, u: int, cfg: Config)
    requires Inv(db) && Fresh(db, s) && Open(db, e.reference)
    ensures SameButSchedule(ShopArrives(PaymentArrives(db, e, t, cfg), s, t', cfg),
                            PaymentArrives(ShopArrives(db, s, u, cfg), e, t, cfg))
  {
    var a := ShopArrives(PaymentArrives(db, e, t, cfg), s, t', cfg);
    var b := PaymentArrives(ShopArrives(db, s, u, cfg), e, t, cfg);
    assert db.nextId !in db.orders && db.nextId !in db.jobs;
    OrdersCommute(db, s, e, t, t', u, cfg);
    PaymentsCommute(db, s, e, t, t', u, cfg);
    JobsCommute(db, s, e, t, t', u, cfg);
  }

  lemma OrdersCommute(db: Db, s: ShopEvent, e: PaymentEvent, t: int, t': int, u: int, cfg: Config)
    requires Indexed(db) && Fresh(db, s) && Open(db, e.reference) && db.nextId !in db.orders
    ensures ShopArrives(PaymentArrives(db, e, t, cfg), s, t', cfg).orders
         == PaymentArrives(ShopArrives(db, s, u, cfg), e, t, cfg).orders
  {
    if e.reference == s.orderId {
      OwnOrderCommutes(db, s, e, t, t', u, cfg);
    } else {
      OtherOrderCommutes(db, s, e, t, t', u, cfg);
    }
  }

  lemma OwnOrderCommutes(db: Db, s: ShopEvent, e: PaymentEvent, t: int, t': int, u: int, cfg: Config)
    requires Fresh(db, s) && Open(db, s.orderId) && e.reference == s.orderId
    ensures ShopArrives(PaymentArrives(db, e, t, cfg), s, t', cfg).orders
         == PaymentArrives(ShopArrives(db, s, u, cfg), e, t, cfg).orders
  {
  }

  lemma OtherOrderCommutes(db: Db, s: ShopEvent, e: PaymentEvent, t: int, t': int, u: int, cfg: Config)
    requires Indexed(db) && Fresh(db, s) && e.reference != s.orderId && db.nextId !in db.orders
    ensures ShopArrives(PaymentArrives(db, e, t, cfg), s, t', cfg).orders
         == PaymentArrives(ShopArrives(db, s, u, cfg), e, t, cfg).orders
  {
  }

  lemma PaymentsCommute(db: Db, s: ShopEvent, e: PaymentEvent, t: int, t': int, u: int, cfg: Config)
    requires Fresh(db, s)
    ensures ShopArrives(PaymentArrives(db, e, t, cfg), s, t', cfg).payments
         == PaymentArrives(ShopArrives(db, s, u, cfg), e, t, cfg).payments
  {
  }

  lemma JobsCommute(db: Db, s: ShopEvent, e: PaymentEvent, t: int, t': int, u: int, cfg: Config)
    requires Indexed(db) && Fresh(db, s) && Open(db, e.reference) && db.nextId !in db.orders && db.nextId !in db.jobs
    ensures SameJobs(ShopArrives(PaymentArrives(db, e, t, cfg), s, t', cfg).jobs,
                     PaymentArrives(ShopArrives(db, s, u, cfg), e, t, cfg).jobs)
  {
    var a := ShopArrives(PaymentArrives(db, e, t, cfg), s, t', cfg).jobs;
    var b := PaymentArrives(ShopArrives(db, s, u, cfg), e, t, cfg).jobs;
    if e.reference == s.orderId {
      OwnJob(db, s, e, t, t', u, cfg);
    } else {
      OtherJob(db, s, e, t, t', u, cfg);
    }
  }

  lemma OwnJob(db: Db, s: ShopEvent, e: PaymentEvent, t: int, t': int, u: int, cfg: Config)
    requires Fresh(db, s) && Open(db, e.reference) && e.reference == s.orderId
    ensures SameJobs(ShopArrives(PaymentArrives(db, e, t, cfg), s, t', cfg).jobs,
                     PaymentArrives(ShopArrives(db, s, u, cfg), e, t, cfg).jobs)
  {
  }

  lemma OtherJob(db: Db, s: ShopEvent, e: PaymentEvent, t: int, t': int, u: int, cfg: Config)
    requires Indexed(db) && Fresh(db, s) && e.reference != s.orderId && db.nextId !in db.orders
    ensures SameJobs(ShopArrives(PaymentArrives(db, e, t, cfg), s, t', cfg).jobs,
                     PaymentArrives(ShopArrives(db, s, u, cfg), e, t, cfg).jobs)
  {
    hide Enqueue, SameJobs;
    var shipped := ShopArrives(db, s, u, cfg);
    var id, payment := FindOrderId(db, e.reference), FindPayment(db, s.orderId);
    SameJobsReflexive(PaymentArrives(db, e, t, cfg).jobs);
    if id.Some? {
      assert id.value != db.nextId && ListItems(shipped, id.value) == ListItems(db, id.value);
    }
    if payment.Some? {
      EnqueueAlike(db.jobs, db.nextId, payment.value.status, s.items, t', u, cfg);
      if id.Some? {
        EnqueueApart(db.jobs, id.value, e.status, ListItems(db, id.value), t, db.nextId, payment.value.status, s.items, t', u, cfg);
      }
    }
  }

  lemma SameJobsReflexive(m: map<nat, Job>)
    ensures SameJobs(m, m)
  {
  }

  lemma EnqueueAlike(m: map<nat, Job>, n: nat, status: PaymentStatus, items: seq<Item>, t: int, u: int, cfg: Config)
    ensures SameJobs(Enqueue(m, n, status, items, t, cfg), Enqueue(m, n, status, items, u, cfg))
  {
  }

  lemma EnqueueApart(m: map<nat, Job>, k: nat, status: PaymentStatus, items: seq<Item>, t: int,
                     n: nat, status': PaymentStatus, items': seq<Item>, t': int, u: int, cfg: Config)
    requires k != n
    ensures SameJobs(Enqueue(Enqueue(m, k, status, items, t, cfg), n, status', items', t', cfg),
                     Enqueue(Enqueue(m, n, status', items', u, cfg), k, status, items, t, cfg))
  {
  }

  lemma ShopKeepsOpen(db: Db, s: ShopEvent, u: int, cfg: Config, reference: string)
    requires Inv(db) && Fresh(db, s)
    ensures Inv(ShopTx(db, s, u, cfg))
    ensures ShopTx(db, s, u, cfg) == ShopArrives(db, s, u, cfg)
    ensures Open(ShopTx(db, s, u, cfg), reference) == Open(db, reference)
  {
    hide ProcessShop, Inv;
    ShopEffect(db, s, u, cfg);
    ShopTxKeepsInv(db, s, u, cfg);
  }

  lemma PaymentKeepsFresh(db: Db, s: ShopEvent, e: PaymentEvent, t: int, cfg: Config)
    requires Inv(db) && Fresh(db, s)
    ensures Fresh(PaymentTx(db, e, t, cfg), s)
  {
    hide ProcessPayment;
    if e.eventId in db.paymentEvents {
      PaymentRepeat(db, e, t, cfg);
    } else if Open(db, e.reference) {
      PaymentEffect(db, e, t, cfg);
    } else {
      PaymentAfterEnd(db, e, t, cfg);
    }
  }

  /** One exchange: a payment event and the shop order commute unless it cancels a digital-only order. */
  lemma Exchange(db: Db, s: ShopEvent, e: PaymentEvent, t: int, t': int, u: int, cfg: Config)
    requires Inv(db) && Fresh(db, s)
    requires HasHardware(s.items, cfg.hardwareSkus) || !Cancels(db, e, s.orderId)
    ensures SameButSchedule(ShopTx(PaymentTx(db, e, t, cfg), s, t', cfg), PaymentTx(ShopTx(db, s, u, cfg), e, t, cfg))
  {
    hide ProcessPayment, ProcessShop, PaymentArrives, ShopArrives, Inv, PaymentTx, SameButSchedule;
    var paid := PaymentTx(db, e, t, cfg);
    PaymentKeepsFresh(db, s, e, t, cfg);
    PaymentTxKeepsInv(db, e, t, cfg);
    ShopKeepsOpen(db, s, u, cfg, e.reference);
    ShopEffect(paid, s, t', cfg);
    if e.eventId in db.paymentEvents {
      ExchangeKnown(db, s, e, t, t', u, cfg);
    } else if Open(db, e.reference) {
      ExchangeOpen(db, s, e, t, t', u, cfg);
    } else {
      ExchangeClosed(db, s, e, t, t', u, cfg);
    }
  }

  lemma ExchangeKnown(db: Db, s: ShopEvent, e: PaymentEvent, t: int, t': int, u: int, cfg: Config)
    requires Inv(db) && Fresh(db, s) && e.eventId in db.paymentEvents
    ensures SameButSchedule(ShopArrives(PaymentTx(db, e, t, cfg), s, t', cfg), PaymentTx(ShopArrives(db, s, u, cfg), e, t, cfg))
  {
    hide ProcessPayment;
    ShopArrivesKeepsInv(db, s, u, cfg);
    PaymentRepeat(db, e, t, cfg);
    PaymentRepeat(ShopArrives(db, s, u, cfg), e, t, cfg);
    ShopArrivesAlike(db, s, t', u, cfg);
  }

  lemma ExchangeClosed(db: Db, s: ShopEvent, e: PaymentEvent, t: int, t': int, u: int, cfg: Config)
    requires e.eventId !in db.paymentEvents && !Open(db, e.reference)
    ensures SameButSchedule(ShopArrives(PaymentTx(db, e, t, cfg), s, t', cfg), PaymentTx(ShopArrives(db, s, u, cfg), e, t, cfg))
  {
    hide ProcessPayment;
    PaymentAfterEnd(db, e, t, cfg);
    PaymentAfterEnd(ShopArrives(db, s, u, cfg), e, t, cfg);
    ShopArrivesAlike(db, s, t', u, cfg);
  }

  lemma ExchangeOpen(db: Db, s: ShopEvent, e: PaymentEvent, t: int, t': int, u: int, cfg: Config)
    requires Inv(db) && Fresh(db, s) && e.eventId !in db.paymentEvents && Open(db, e.reference)
    requires HasHardware(s.items, cfg.hardwareSkus) || !Cancels(db, e, s.orderId)
    ensures SameButSchedule(ShopArrives(PaymentTx(db, e, t, cfg), s, t', cfg), PaymentTx(ShopArrives(db, s, u, cfg), e, t, cfg))
  {
    hide ProcessPayment, ProcessShop, PaymentArrives;
    ShopKeepsOpen(db, s, u, cfg, e.reference);
    PaymentEffect(db, e, t, cfg);
    PaymentEffect(ShopArrives(db, s, u, cfg), e, t, cfg);
    RefusalUnchanged(db, s, e, u, cfg);
    EffectsCommute(db, s, e, t, t', u, cfg);
    ShopArrivesAlike(db, s, t', u, cfg);
  }

  lemma RefusalUnchanged(db: Db, s: ShopEvent, e: PaymentEvent, u: int, cfg: Config)
    requires Inv(db) && Fresh(db, s) && e.eventId !in db.paymentEvents && Open(db, e.reference)
    requires HasHardware(s.items, cfg.hardwareSkus) || !Cancels(db, e, s.orderId)
    ensures DigitalRefusal(ShopArrives(db, s, u, cfg), e, cfg) == DigitalRefusal(db, e, cfg)
  {
  }

  predicate IsCancelled(db: Db, reference: string) {
    reference in db.payments && db.payments[reference].status == PaymentCancelled
  }

  /** The payment events on their own turn an unfinished payment into a cancelled one. */
  predicate BecomesCancelled(db: Db, es: seq<Arrival>, reference: string, cfg: Config) {
    !IsCancelled(db, reference) && IsCancelled(RunPayments(db, es, cfg), reference)
  }

  lemma {:induction false} CancelledStays(db: Db, es: seq<Arrival>, reference: string, cfg: Config)
    requires Inv(db) && IsCancelled(db, reference)
    ensures IsCancelled(RunPayments(db, es, cfg), reference)
    decreases |es|
  {
    hide PaymentTx, Inv;
    if es != [] {
      var e, at := es[0].event, es[0].at;
      PaymentTxKeepsInv(db, e, at, cfg);
      PaymentTxGrows(db, e, at, cfg);
      assert PaymentKept(db.payments[reference], PaymentTx(db, e, at, cfg).payments[reference]);
      CancelledStays(PaymentTx(db, e, at, cfg), es[1..], reference, cfg);
    }
  }

  /** Without a digital-only order to cancel, every position of the shop order ends in the same tables. */
  lemma {:induction false} PositionIrrelevant(db: Db, es: seq<Arrival>, i: nat, s: ShopEvent, at: int, at0: int, cfg: Config)
    requires Inv(db) && Fresh(db, s) && i <= |es|
    requires HasHardware(s.items, cfg.hardwareSkus) || !BecomesCancelled(db, es, s.orderId, cfg)
    ensures SameButSchedule(WithShopAt(db, es, i, s, at, cfg), WithShopAt(db, es, 0, s, at0, cfg))
    decreases i
  {
    hide ProcessShop, PaymentTx, Inv, ShopArrives;
    if i == 0 {
      ShopEffect(db, s, at, cfg);
      ShopEffect(db, s, at0, cfg);
      ShopTxKeepsInv(db, s, at, cfg);
      ShopTxKeepsInv(db, s, at0, cfg);
      ShopArrivesAlike(db, s, at, at0, cfg);
      RunPaymentsAlike(ShopTx(db, s, at, cfg), ShopTx(db, s, at0, cfg), es, cfg);
    } else {
      var e, t, rest := es[0].event, es[0].at, es[1..];
      var db1 := PaymentTx(db, e, t, cfg);
      PaymentTxKeepsInv(db, e, t, cfg);
      PaymentKeepsFresh(db, s, e, t, cfg);
      HypothesisDescends(db, es, s, cfg);
      PositionIrrelevant(db1, rest, i - 1, s, at, at0, cfg);
      Exchange(db, s, e, t, at0, at0, cfg);
      var left, right := ShopTx(db1, s, at0, cfg), PaymentTx(ShopTx(db, s, at0, cfg), e, t, cfg);
      ShopTxKeepsInv(db1, s, at0, cfg);
      ShopTxKeepsInv(db, s, at0, cfg);
      PaymentTxKeepsInv(ShopTx(db, s, at0, cfg), e, t, cfg);
      RunPaymentsAlike(left, right, rest, cfg);
      SameTransitive(WithShopAt(db, es, i, s, at, cfg), RunPayments(left, rest, cfg), RunPayments(right, rest, cfg));
    }
  }

  lemma HypothesisDescends(db: Db, es: seq<Arrival>, s: ShopEvent, cfg: Config)
    requires Inv(db) && Fresh(db, s) && es != []
    requires HasHardware(s.items, cfg.hardwareSkus) || !BecomesCancelled(db, es, s.orderId, cfg)
    ensures HasHardware(s.items, cfg.hardwareSkus) || !Cancels(db, es[0].event, s.orderId)
    ensures HasHardware(s.items, cfg.hardwareSkus)
         || !BecomesCancelled(PaymentTx(db, es[0].event, es[0].at, cfg), es[1..], s.orderId, cfg)
  {
    hide ProcessPayment, Inv;
    var e, t := es[0].event, es[0].at;
    var db1 := PaymentTx(db, e, t, cfg);
    PaymentTxKeepsInv(db, e, t, cfg);
    if IsCancelled(db, s.orderId) {
      CancelledStays(db, [es[0]], s.orderId, cfg);
      assert RunPayments(db, [es[0]], cfg) == RunPayments(db1, [], cfg) == db1;
    } else if Cancels(db, e, s.orderId) {
      PaymentEffect(db, e, t, cfg);
      assert IsCancelled(db1, s.orderId);
      CancelledStays(db1, es[1..], s.orderId, cfg);
    }
  }

  /** Once a digital-only order is stored, no payment event cancels its payment any more. */
  lemma {:induction false} DigitalNeverCancelled(db: Db, es: seq<Arrival>, reference: string, cfg: Config)
    requires Inv(db) && !IsCancelled(db, reference)
    requires FindOrder(db, reference).Some? && !HasHardware(FindOrder(db, reference).value.items, cfg.hardwareSkus)
    ensures !IsCancelled(RunPayments(db, es, cfg), reference)
    decreases |es|
  {
    hide PaymentTx;
    if es != [] {
      var e, t := es[0].event, es[0].at;
      var db1 := PaymentTx(db, e, t, cfg);
      PaymentTxKeepsInv(db, e, t, cfg);
      PaymentTxGrows(db, e, t, cfg);
      assert OrderKept(db.orders[db.orderIndex[reference]], db1.orders[db1.orderIndex[reference]]);
      DigitalRefuses(db, e, t, reference, cfg);
      DigitalNeverCancelled(db1, es[1..], reference, cfg);
    }
  }

  lemma DigitalRefuses(db: Db, e: PaymentEvent, t: int, reference: string, cfg: Config)
    requires Inv(db) && !IsCancelled(db, reference)
    requires FindOrder(db, reference).Some? && !HasHardware(FindOrder(db, reference).value.items, cfg.hardwareSkus)
    ensures !IsCancelled(PaymentTx(db, e, t, cfg), reference)
  {
    hide ProcessPayment;
    if e.eventId in db.paymentEvents {
      PaymentRepeat(db, e, t, cfg);
    } else if Open(db, e.reference) {
      PaymentEffect(db, e, t, cfg);
    } else {
      PaymentAfterEnd(db, e, t, cfg);
    }
  }

  lemma {:induction false} ShopLast(db: Db, es: seq<Arrival>, s: ShopEvent, at: int, cfg: Config)
    requires Inv(db)
    ensures WithShopAt(db, es, |es|, s, at, cfg) == ShopTx(RunPayments(db, es, cfg), s, at, cfg)
    ensures Inv(RunPayments(db, es, cfg))
    decreases |es|
  {
    hide ProcessShop, ProcessPayment, ShopTx, PaymentTx, Inv;
    if es != [] {
      PaymentTxKeepsInv(db, es[0].event, es[0].at, cfg);
      ShopLast(PaymentTx(db, es[0].event, es[0].at, cfg), es[1..], s, at, cfg);
    }
  }

  /** For a digital-only order whose payment the events alone cancel, first and last position disagree. */
  lemma CancelledAloneDisagrees(db: Db, es: seq<Arrival>, s: ShopEvent, at: int, at0: int, cfg: Config)
    requires Inv(db) && Fresh(db, s)
    requires !HasHardware(s.items, cfg.hardwareSkus) && BecomesCancelled(db, es, s.orderId, cfg)
    ensures IsCancelled(WithShopAt(db, es, |es|, s, at, cfg), s.orderId)
    ensures !IsCancelled(WithShopAt(db, es, 0, s, at0, cfg), s.orderId)
  {
    hide ShopTx, PaymentTx, Inv, RunPayments;
    ShopLast(db, es, s, at, cfg);
    var last := RunPayments(db, es, cfg);
    ShopTxGrows(last, s, at, cfg);
    assert PaymentKept(last.payments[s.orderId], ShopTx(last, s, at, cfg).payments[s.orderId]);
    ShopStores(db, s, at0, cfg);
    DigitalNeverCancelled(ShopTx(db, s, at0, cfg), es, s.orderId, cfg);
  }

  lemma ShopStores(db: Db, s: ShopEvent, at: int, cfg: Config)
    requires Inv(db) && Fresh(db, s)
    ensures var shipped := ShopTx(db, s, at, cfg);
            && Inv(shipped)
            && FindOrder(shipped, s.orderId).Some? && FindOrder(shipped, s.orderId).value.items == s.items
            && IsCancelled(shipped, s.orderId) == IsCancelled(db, s.orderId)
  {
    hide ProcessShop, Inv;
    ShopEffect(db, s, at, cfg);
    ShopTxKeepsInv(db, s, at, cfg);
  }

  /**
   For any event ids at all: the positions agree if and only if the order
   contains hardware or the payment events alone leave its payment uncancelled.
   */
  lemma PositionsAgreeExactly(db: Db, es: seq<Arrival>, s: ShopEvent, at: int, at0: int, cfg: Config)
    requires Inv(db) && Fresh(db, s)
    ensures PositionsAgree(db, es, s, at, at0, cfg)
       <==> HasHardware(s.items, cfg.hardwareSkus) || !BecomesCancelled(db, es, s.orderId, cfg)
  {
    hide ShopTx, PaymentTx, Inv, HasHardware, RunPayments;
    if HasHardware(s.items, cfg.hardwareSkus) || !BecomesCancelled(db, es, s.orderId, cfg) {
      forall i | 0 <= i <= |es|
        ensures SameButSchedule(WithShopAt(db, es, i, s, at, cfg), WithShopAt(db, es, 0, s, at0, cfg))
      {
        PositionIrrelevant(db, es, i, s, at, at0, cfg);
      }
    } else {
      CancelledAloneDisagrees(db, es, s, at, at0, cfg);
      var n := |es|;
      assert !SameButSchedule(WithShopAt(db, es, n, s, at, cfg), WithShopAt(db, es, 0, s, at0, cfg));
    }
  }

  /** Every position of the shop order ends in the same tables as the first one. */
  ghost predicate PositionsAgree(db: Db, es: seq<Arrival>, s: ShopEvent, at: int, at0: int, cfg: Config) {
    forall i :: 0 <= i <= |es| ==>
      SameButSchedule(WithShopAt(db, es, i, s, at, cfg), WithShopAt(db, es, 0, s, at0, cfg))
  }

  // ---------- the condition, read off the events ----------

  /** Event `k` is final for the reference and comes under an id that was not used before. */
  predicate Decides(db: Db, es: seq<Arrival>, k: nat, reference: string)
    requires k < |es|
  {
    && es[k].event.reference == reference && IsTerminal(es[k].event.status)
    && es[k].event.eventId !in db.paymentEvents
    && forall j :: 0 <= j < k ==> es[j].event.eventId != es[k].event.eventId
  }

  /** The first event that decides about the reference cancels it. */
  ghost predicate CancelledFirst(db: Db, es: seq<Arrival>, reference: string) {
    exists k: nat :: k < |es| && CancelsFirst(db, es, k, reference)
  }

  ghost predicate CancelsFirst(db: Db, es: seq<Arrival>, k: nat, reference: string)
    requires k < |es|
  {
    && Decides(db, es, k, reference) && es[k].event.status == PaymentCancelled
    && forall j: nat :: j < k ==> !Decides(db, es, j, reference)
  }

  /** The ids of the reference's events are not used for other references; repetitions are allowed. */
  ghost predicate OwnIds(es: seq<Arrival>, reference: string) {
    forall j, k :: 0 <= j < |es| && 0 <= k < |es| && es[j].event.eventId == es[k].event.eventId ==>
      (es[k].event.reference == reference ==> es[j].event.reference == reference)
  }

  /** What one payment event does to a payment whose order is not stored: a new id and a final status decide it. */
  lemma OneEvent(db: Db, e: PaymentEvent, t: int, reference: string, cfg: Config)
    requires Inv(db) && reference !in db.orderIndex
    ensures var db1 := PaymentTx(db, e, t, cfg);
            && reference !in db1.orderIndex
            && (!Open(db, reference) ==> !Open(db1, reference))
            && (Open(db, reference) ==>
                  var decides := e.reference == reference && IsTerminal(e.status) && e.eventId !in db.paymentEvents;
                  && (Open(db1, reference) <==> !decides)
                  && (IsCancelled(db1, reference) <==> decides && e.status == PaymentCancelled))
            && (!IsCancelled(db, reference) && !Open(db, reference) ==> !IsCancelled(db1, reference))
            && db.paymentEvents.Keys <= db1.paymentEvents.Keys <= db.paymentEvents.Keys + {e.eventId}
            && (Open(db, reference) && e.reference == reference ==> e.eventId in db1.paymentEvents)
  {
    hide ProcessPayment, Inv;
    if e.eventId in db.paymentEvents {
      PaymentRepeat(db, e, t, cfg);
    } else if Open(db, e.reference) {
      PaymentEffect(db, e, t, cfg);
    } else {
      PaymentAfterEnd(db, e, t, cfg);
    }
  }

  /** Deciding positions after the first event are the deciding positions of the rest. */
  lemma DecidesDescends(db: Db, db1: Db, es: seq<Arrival>, k: nat, reference: string)
    requires k + 1 < |es| && OwnIds(es, reference)
    requires db.paymentEvents.Keys <= db1.paymentEvents.Keys <= db.paymentEvents.Keys + {es[0].event.eventId}
    requires es[0].event.reference == reference ==> es[0].event.eventId in db1.paymentEvents
    ensures Decides(db1, es[1..], k, reference) == Decides(db, es, k + 1, reference)
  {
    var rest := es[1..];
    assert forall j :: 0 <= j < |rest| ==> rest[j] == es[j + 1];
    assert forall j :: 0 < j < |es| ==> es[j] == rest[j - 1];
  }

  lemma CancelledFirstDescends(db: Db, db1: Db, es: seq<Arrival>, reference: string)
    requires es != [] && OwnIds(es, reference) && !Decides(db, es, 0, reference)
    requires db.paymentEvents.Keys <= db1.paymentEvents.Keys <= db.paymentEvents.Keys + {es[0].event.eventId}
    requires es[0].event.reference == reference ==> es[0].event.eventId in db1.paymentEvents
    ensures CancelledFirst(db1, es[1..], reference) == CancelledFirst(db, es, reference)
  {
    hide Decides, OwnIds;
    var rest := es[1..];
    forall k: nat | k < |rest| ensures Decides(db1, rest, k, reference) == Decides(db, es, k + 1, reference) {
      DecidesDescends(db, db1, es, k, reference);
    }
    if k: nat :| k < |rest| && CancelsFirst(db1, rest, k, reference) {
      forall j: nat | j < k + 1 ensures !Decides(db, es, j, reference) {
        assert j > 0 ==> !Decides(db1, rest, j - 1, reference);
      }
      assert CancelsFirst(db, es, k + 1, reference);
    }
    if k: nat :| k < |es| && CancelsFirst(db, es, k, reference) {
      forall j: nat | j < k - 1 ensures !Decides(db1, rest, j, reference) {
        assert !Decides(db, es, j + 1, reference);
      }
      assert CancelsFirst(db1, rest, k - 1, reference);
    }
  }

  lemma {:induction false} FinishedStays(db: Db, es: seq<Arrival>, reference: string, cfg: Config)
    requires Inv(db) && reference !in db.orderIndex && !Open(db, reference) && !IsCancelled(db, reference)
    ensures !IsCancelled(RunPayments(db, es, cfg), reference)
    decreases |es|
  {
    hide PaymentTx, Inv;
    if es != [] {
      PaymentTxKeepsInv(db, es[0].event, es[0].at, cfg);
      OneEvent(db, es[0].event, es[0].at, reference, cfg);
      FinishedStays(PaymentTx(db, es[0].event, es[0].at, cfg), es[1..], reference, cfg);
    }
  }

  /** The events cancel an unfinished payment exactly when the first of them that decides is a cancellation. */
  lemma {:induction false} CancelledByFirst(db: Db, es: seq<Arrival>, reference: string, cfg: Config)
    requires Inv(db) && reference !in db.orderIndex && OwnIds(es, reference)
    ensures BecomesCancelled(db, es, reference, cfg) <==> Open(db, reference) && CancelledFirst(db, es, reference)
    decreases |es|
  {
    hide PaymentTx, Inv, CancelledFirst, OwnIds, Decides;
    if !Open(db, reference) {
      if !IsCancelled(db, reference) {
        FinishedStays(db, es, reference, cfg);
      }
    } else if es == [] {
      NothingCancels(db, reference);
    } else {
      var e, t, rest := es[0].event, es[0].at, es[1..];
      var db1 := PaymentTx(db, e, t, cfg);
      PaymentTxKeepsInv(db, e, t, cfg);
      OneEvent(db, e, t, reference, cfg);
      FirstDecides(db, es, reference);
      if !Open(db1, reference) {
        if e.status == PaymentCancelled {
          CancelledStays(db1, rest, reference, cfg);
        } else {
          FinishedStays(db1, rest, reference, cfg);
        }
      } else {
        OwnIdsDescend(es, reference);
        CancelledByFirst(db1, rest, reference, cfg);
        CancelledFirstDescends(db, db1, es, reference);
      }
    }
  }

  lemma NothingCancels(db: Db, reference: string)
    ensures !CancelledFirst(db, [], reference)
  {
  }

  lemma FirstDecides(db: Db, es: seq<Arrival>, reference: string)
    requires es != []
    ensures var e := es[0].event;
            && (Decides(db, es, 0, reference) <==> e.reference == reference && IsTerminal(e.status) && e.eventId !in db.paymentEvents)
            && (Decides(db, es, 0, reference) ==> (CancelledFirst(db, es, reference) <==> e.status == PaymentCancelled))
  {
    if Decides(db, es, 0, reference) && es[0].event.status == PaymentCancelled {
      assert CancelsFirst(db, es, 0, reference);
    }
  }

  lemma OwnIdsDescend(es: seq<Arrival>, reference: string)
    requires es != [] && OwnIds(es, reference)
    ensures OwnIds(es[1..], reference)
  {
    var rest := es[1..];
    assert forall j :: 0 <= j < |rest| ==> rest[j] == es[j + 1];
  }

  /**
   Arrival-order independence, exactly: all positions of the shop order end in
   the same tables if and only if the order contains hardware, or its payment
   was finished before, or the first event that decides about it is not a
   cancellation.
   */
  lemma ArrivalOrder(db: Db, es: seq<Arrival>, s: ShopEvent, at: int, at0: int, cfg: Config)
    requires Inv(db) && Fresh(db, s) && OwnIds(es, s.orderId)
    ensures PositionsAgree(db, es, s, at, at0, cfg)
       <==> HasHardware(s.items, cfg.hardwareSkus) || !Open(db, s.orderId) || !CancelledFirst(db, es, s.orderId)
  {
    hide Inv, HasHardware, PositionsAgree, BecomesCancelled, CancelledFirst, OwnIds;
    PositionsAgreeExactly(db, es, s, at, at0, cfg);
    CancelledByFirst(db, es, s.orderId, cfg);
  }

  /** Otherwise first and last position disagree about the cancellation itself. */
  lemma DigitalOrderDisagrees(db: Db, es: seq<Arrival>, s: ShopEvent, at: int, at0: int, cfg: Config)
    requires Inv(db) && Fresh(db, s) && OwnIds(es, s.orderId)
    requires !HasHardware(s.items, cfg.hardwareSkus) && Open(db, s.orderId) && CancelledFirst(db, es, s.orderId)
    ensures IsCancelled(WithShopAt(db, es, |es|, s, at, cfg), s.orderId)
    ensures !IsCancelled(WithShopAt(db, es, 0, s, at0, cfg), s.orderId)
  {
    hide Inv, HasHardware, BecomesCancelled, CancelledFirst, OwnIds, WithShopAt;
    CancelledByFirst(db, es, s.orderId, cfg);
    CancelledAloneDisagrees(db, es, s, at, at0, cfg);
  }

  lemma {:induction false} UncancelledStays(db: Db, es: seq<Arrival>, reference: string, cfg: Config)
    requires Inv(db) && reference !in db.orderIndex && !IsCancelled(db, reference)
    requires forall k :: 0 <= k < |es| && es[k].event.reference == reference ==> es[k].event.status != PaymentCancelled
    ensures !IsCancelled(RunPayments(db, es, cfg), reference)
    decreases |es|
  {
    hide PaymentTx, Inv;
    if es != [] {
      PaymentTxKeepsInv(db, es[0].event, es[0].at, cfg);
      OneEvent(db, es[0].event, es[0].at, reference, cfg);
      UncancelledStays(PaymentTx(db, es[0].event, es[0].at, cfg), es[1..], reference, cfg);
    }
  }

  /** With hardware in the order, or no cancellation among its events, the position never matters, whatever the ids. */
  lemma ArrivalOrderSafe(db: Db, es: seq<Arrival>, s: ShopEvent, at: int, at0: int, cfg: Config)
    requires Inv(db) && Fresh(db, s)
    requires HasHardware(s.items, cfg.hardwareSkus)
          || forall k :: 0 <= k < |es| && es[k].event.reference == s.orderId ==> es[k].event.status != PaymentCancelled
    ensures PositionsAgree(db, es, s, at, at0, cfg)
  {
    hide Inv, HasHardware, PositionsAgree, RunPayments;
    if !HasHardware(s.items, cfg.hardwareSkus) && !IsCancelled(db, s.orderId) {
      UncancelledStays(db, es, s.orderId, cfg);
    }
    PositionsAgreeExactly(db, es, s, at, at0, cfg);
  }

  /** The disagreement is real: one cancellation and one hosting subscription. */
  lemma DigitalOrderExample()
    ensures var cfg := Config(30, {"NUKI-SL3", "NUKI-BRIDGE"}, 3, 5, 900, 1000);
            var hosting := ShopEvent("s1", "ORD-1", "a@b.c", [Item("NUKI-SMART-HOSTING", 1, 500, None)]);
            var cancel := Arrival(PaymentEvent("p1", "ORD-1", PaymentCancelled, Timestamp("2026-01-01T00:00:00Z", 0)), 0);
            && IsCancelled(WithShopAt(EMPTY_DB, [cancel], 1, hosting, 0, cfg), "ORD-1")
            && !IsCancelled(WithShopAt(EMPTY_DB, [cancel], 0, hosting, 0, cfg), "ORD-1")
  {
    var cfg := Config(30, {"NUKI-SL3", "NUKI-BRIDGE"}, 3, 5, 900, 1000);
    var hosting := ShopEvent("s1", "ORD-1", "a@b.c", [Item("NUKI-SMART-HOSTING", 1, 500, None)]);
    var cancel := Arrival(PaymentEvent("p1", "ORD-1", PaymentCancelled, Timestamp("2026-01-01T00:00:00Z", 0)), 0);
    EmptyInv();
    assert CancelsFirst(EMPTY_DB, [cancel], 0, hosting.orderId);
    DigitalOrderDisagrees(EMPTY_DB, [cancel], hosting, 0, 0, cfg);
  }
}
