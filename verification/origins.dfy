/** Where everything stored comes from, in every run: each row goes back to the event, clock reading or answer that made it. */
module Origins {
  import opened Contracts
  import opened Items
  import opened Tables
  import opened Webhooks
  import opened Lifecycle
  import opened Growth
  import opened Queue
  import opened System
  import opened Invariant
  import opened Delivery

  // ---------- payments ----------

  /** The step is a payment event on this reference that is accepted and is no duplicate. */
  ghost predicate TakesEffect(cfg: Config, s: Sys, step: Step, reference: string) {
    && step.Pay? && step.payment.reference == reference
    && ProcessPayment(s.db, step.payment, s.now, cfg).Ok? && !ProcessPayment(s.db, step.payment, s.now, cfg).value.duplicate
  }

  /** The payment shows the event's status, and its instant if it completes. */
  ghost predicate Shows(p: Payment, e: PaymentEvent) {
    p.status == e.status && p.paidAt == if e.status == PaymentCompleted then Some(e.timestamp.instant) else None
  }

  lemma PayStep(db: Db, e: PaymentEvent, now: int, cfg: Config, r: string)
    requires Inv(db) && r in PaymentTx(db, e, now, cfg).payments
    ensures var p', result := PaymentTx(db, e, now, cfg).payments[r], ProcessPayment(db, e, now, cfg);
            if e.reference == r && result.Ok? && !result.value.duplicate then Shows(p', e)
            else r in db.payments && p'.status == db.payments[r].status && p'.paidAt == db.payments[r].paidAt
  {
    hide ProcessPayment, Inv;
    if e.eventId in db.paymentEvents {
      PaymentRepeat(db, e, now, cfg);
    } else if Open(db, e.reference) {
      PaymentEffect(db, e, now, cfg);
    } else {
      PaymentAfterEnd(db, e, now, cfg);
    }
  }

  lemma ShopKeepsPayments(db: Db, e: ShopEvent, now: int, cfg: Config, r: string)
    requires Inv(db) && r in ShopTx(db, e, now, cfg).payments
    ensures r in db.payments
    ensures var p, p' := db.payments[r], ShopTx(db, e, now, cfg).payments[r]; p'.status == p.status && p'.paidAt == p.paidAt
  {
    hide ProcessShop, Inv;
    if e.orderId in db.orderIndex {
      ShopRepeat(db, e, now, cfg);
    } else if e.eventId !in db.shopEvents {
      ShopEffect(db, e, now, cfg);
    } else {
      ShopReuse(db, e, now, cfg);
    }
  }

  /** Workers, operators and the clock leave payments, and what the shop sent, alone. */
  lemma QueueLeavesRest(cfg: Config, s: Sys, step: Step)
    requires Enabled(s, step) && !step.Shop? && !step.Pay?
    ensures Apply(cfg, s, step).db.payments == s.db.payments
    ensures Apply(cfg, s, step).db.orders.Keys == s.db.orders.Keys && Apply(cfg, s, step).db.jobs.Keys == s.db.jobs.Keys
  {
    hide DoMark, Claimable;
    if step.Mark? {
      MarkTables(cfg, s, step.worker, step.applied, step.reported, step.delay);
    }
  }

  lemma PaymentStep(cfg: Config, s: Sys, step: Step, r: string)
    requires SysInv(cfg, s) && Enabled(s, step) && r in Apply(cfg, s, step).db.payments
    ensures var p' := Apply(cfg, s, step).db.payments[r];
            if TakesEffect(cfg, s, step, r) then Shows(p', step.payment)
            else r in s.db.payments && p'.status == s.db.payments[r].status && p'.paidAt == s.db.payments[r].paidAt
  {
    hide SysInv, Inv, ShopTx, PaymentTx, DoMark, DoClaim, DoDeliver, DoRespond, DoReplay, Claimable, ProcessPayment;
    SysInvDb(cfg, s);
    match step {
      case Shop(e) => ShopKeepsPayments(s.db, e, s.now, cfg, r);
      case Pay(e) => PayStep(s.db, e, s.now, cfg, r);
      case _ => QueueLeavesRest(cfg, s, step);
    }
  }

  /** Every stored payment shows the latest event on its reference that took effect. */
  lemma {:induction false} PaymentHistory(cfg: Config, states: seq<Sys>, steps: seq<Step>, i: nat, r: string) returns (k: nat)
    requires IsRun(cfg, states, steps) && i < |states| && r in states[i].db.payments
    ensures k < i && TakesEffect(cfg, states[k], steps[k], r) && Shows(states[i].db.payments[r], steps[k].payment)
    ensures forall n :: k < n < i ==> !TakesEffect(cfg, states[n], steps[n], r)
  {
    hide Apply, Enabled, SysInv, TakesEffect;
    RunKeeps(cfg, states, steps, i - 1);
    PaymentStep(cfg, states[i - 1], steps[i - 1], r);
    if TakesEffect(cfg, states[i - 1], steps[i - 1], r) {
      k := i - 1;
      EffectIsPay(cfg, states[k], steps[k], r);
    } else {
      k := PaymentHistory(cfg, states, steps, i - 1, r);
      EffectIsPay(cfg, states[k], steps[k], r);
    }
  }

  lemma EffectIsPay(cfg: Config, s: Sys, step: Step, r: string)
    requires TakesEffect(cfg, s, step, r)
    ensures step.Pay?
  {
  }

  /** Whatever was accepted under an event id is stored under it, field by field. */
  lemma AcceptedIsStored(db: Db, e: PaymentEvent, now: int, cfg: Config)
    requires Inv(db) && ProcessPayment(db, e, now, cfg).Ok?
    ensures e.eventId in PaymentTx(db, e, now, cfg).paymentEvents
    ensures var stored := PaymentTx(db, e, now, cfg).paymentEvents[e.eventId].payload;
            stored.reference == e.reference && stored.status == e.status && stored.timestamp.text == e.timestamp.text
    ensures e.eventId in db.paymentEvents ==> PaymentTx(db, e, now, cfg) == db
  {
    hide ProcessPayment;
    if e.eventId in db.paymentEvents {
      PaymentRepeat(db, e, now, cfg);
    } else if Open(db, e.reference) {
      PaymentEffect(db, e, now, cfg);
    } else {
      PaymentAfterEnd(db, e, now, cfg);
    }
  }

  /** Two payment events accepted under one id agree in reference, status and timestamp. */
  lemma AcceptedPaymentsAgree(cfg: Config, states: seq<Sys>, steps: seq<Step>, i: nat, j: nat, e: PaymentEvent, e': PaymentEvent)
    requires IsRun(cfg, states, steps) && i < j < |steps| && steps[i] == Pay(e) && steps[j] == Pay(e') && e.eventId == e'.eventId
    requires ProcessPayment(states[i].db, e, states[i].now, cfg).Ok? && ProcessPayment(states[j].db, e', states[j].now, cfg).Ok?
    ensures e.reference == e'.reference && e.status == e'.status && e.timestamp.text == e'.timestamp.text
  {
    hide ProcessPayment, SysInv, Inv;
    RunKeeps(cfg, states, steps, i);
    RunKeeps(cfg, states, steps, j);
    SysInvDb(cfg, states[i]);
    SysInvDb(cfg, states[j]);
    AcceptedIsStored(states[i].db, e, states[i].now, cfg);
    RunAdvances(cfg, states, steps, i + 1, j);
    AcceptedIsStored(states[j].db, e', states[j].now, cfg);
  }

  // ---------- orders ----------

  /** The order holds what the shop event sent. */
  ghost predicate Holds(o: Order, e: ShopEvent) {
    o.orderId == e.orderId && o.email == e.email && o.items == e.items
  }

  lemma ShopStores(db: Db, e: ShopEvent, now: int, cfg: Config, id: nat)
    requires Inv(db) && id in ShopTx(db, e, now, cfg).orders && id !in db.orders
    ensures Holds(ShopTx(db, e, now, cfg).orders[id], e) && ProcessShop(db, e, now, cfg).Ok?
  {
    hide ProcessShop, Inv;
    if e.orderId in db.orderIndex {
      ShopRepeat(db, e, now, cfg);
    } else if e.eventId !in db.shopEvents {
      ShopEffect(db, e, now, cfg);
    } else {
      ShopReuse(db, e, now, cfg);
    }
  }

  lemma PayAddsNoOrder(db: Db, e: PaymentEvent, now: int, cfg: Config)
    requires Inv(db)
    ensures PaymentTx(db, e, now, cfg).orders.Keys == db.orders.Keys
  {
    hide ProcessPayment, Inv;
    if e.eventId in db.paymentEvents {
      PaymentRepeat(db, e, now, cfg);
    } else if Open(db, e.reference) {
      PaymentEffect(db, e, now, cfg);
    } else {
      PaymentAfterEnd(db, e, now, cfg);
    }
  }

  lemma OrderStep(cfg: Config, s: Sys, step: Step, id: nat)
    requires SysInv(cfg, s) && Enabled(s, step) && id in Apply(cfg, s, step).db.orders && id !in s.db.orders
    ensures step.Shop? && ProcessShop(s.db, step.shop, s.now, cfg).Ok? && Holds(Apply(cfg, s, step).db.orders[id], step.shop)
  {
    hide SysInv, Inv, ShopTx, PaymentTx, DoMark, DoClaim, DoDeliver, DoRespond, DoReplay, Claimable, ProcessShop;
    SysInvDb(cfg, s);
    match step {
      case Shop(e) => ShopStores(s.db, e, s.now, cfg, id);
      case Pay(e) => PayAddsNoOrder(s.db, e, s.now, cfg);
      case _ => QueueLeavesRest(cfg, s, step);
    }
  }

  /** Every stored order is, to the item, one that an accepted shop event sent. */
  lemma {:induction false} OrderHistory(cfg: Config, states: seq<Sys>, steps: seq<Step>, i: nat, id: nat) returns (k: nat)
    requires IsRun(cfg, states, steps) && i < |states| && id in states[i].db.orders
    ensures k < i && steps[k].Shop? && ProcessShop(states[k].db, steps[k].shop, states[k].now, cfg).Ok?
    ensures Holds(states[i].db.orders[id], steps[k].shop)
  {
    hide Apply, Enabled, SysInv, ProcessShop, Grows;
    RunKeeps(cfg, states, steps, i - 1);
    if id !in states[i - 1].db.orders {
      k := i - 1;
      OrderStep(cfg, states[k], steps[k], id);
    } else {
      k := OrderHistory(cfg, states, steps, i - 1, id);
      RunAdvances(cfg, states, steps, i - 1, i);
      GrownOrder(states[i - 1].db, states[i].db, id);
    }
  }

  lemma GrownOrder(db: Db, db': Db, id: nat)
    requires Grows(db, db') && id in db.orders
    ensures id in db'.orders && OrderKept(db.orders[id], db'.orders[id])
  {
  }

  /** Two shop events accepted for one order id agree in email and items. */
  lemma AcceptedOrdersAgree(cfg: Config, states: seq<Sys>, steps: seq<Step>, i: nat, j: nat, e: ShopEvent, e': ShopEvent)
    requires IsRun(cfg, states, steps) && i < j < |steps| && steps[i] == Shop(e) && steps[j] == Shop(e') && e.orderId == e'.orderId
    requires ProcessShop(states[i].db, e, states[i].now, cfg).Ok? && ProcessShop(states[j].db, e', states[j].now, cfg).Ok?
    ensures e.email == e'.email && multiset(e.items) == multiset(e'.items)
  {
    hide ProcessShop, SysInv, Inv;
    RunKeeps(cfg, states, steps, i);
    RunKeeps(cfg, states, steps, j);
    SysInvDb(cfg, states[i]);
    SysInvDb(cfg, states[j]);
    ShopCommitted(states[i].db, e, states[i].now, cfg);
    RunAdvances(cfg, states, steps, i + 1, j);
    ShopRemembered(states[i + 1].db, states[j].db, e);
    ShopRepeat(states[j].db, e', states[j].now, cfg);
  }

  // ---------- jobs ----------

  /** A job appears in the very transaction that makes its order paid: untouched, and due after the hardware delay or at once. */
  lemma ScheduledExactly(cfg: Config, states: seq<Sys>, steps: seq<Step>, i: nat, id: nat)
    requires IsRun(cfg, states, steps) && i < |steps| && id in states[i + 1].db.jobs && id !in states[i].db.jobs
    ensures steps[i].Shop? || steps[i].Pay?
    ensures id in states[i + 1].db.orders && states[i + 1].db.orders[id].state == OrderPaid
    ensures id in states[i].db.orders ==> states[i].db.orders[id].state == OrderPending
    ensures var delay := if HasHardware(states[i + 1].db.orders[id].items, cfg.hardwareSkus) then cfg.hardwareDelaySeconds else 0;
            states[i + 1].db.jobs[id] == Job(Pending, states[i].now, states[i].now + delay * SECOND, 0, None, None, None)
  {
    hide SysInv, Inv, ShopTx, PaymentTx, DoMark, DoClaim, DoDeliver, DoRespond, DoReplay, Claimable, Grows;
    var s, step := states[i], steps[i];
    RunKeeps(cfg, states, steps, i);
    RunKeeps(cfg, states, steps, i + 1);
    SysInvDb(cfg, s);
    SysInvDb(cfg, states[i + 1]);
    JobIsSound(states[i + 1].db, id);
    RunAdvances(cfg, states, steps, i, i + 1);
    if id in s.db.orders {
      GrownOrder(s.db, states[i + 1].db, id);
      Jobless(s.db, id);
    }
    assert states[i + 1] == Apply(cfg, s, step);
    match step {
      case Shop(e) => ShopTxJobs(s.db, e, s.now, cfg);
      case Pay(e) => PaymentTxJobs(s.db, e, s.now, cfg);
      case _ => QueueLeavesRest(cfg, s, step);
    }
  }

  lemma Jobless(db: Db, id: nat)
    requires Inv(db) && id in db.orders && id !in db.jobs
    ensures db.orders[id].state != OrderPaid
  {
    assert OrderSettled(db.orders[id], FindPayment(db, db.orders[id].orderId), id in db.jobs);
  }

  /** A replay makes a DEAD job fresh PENDING work that is due now, and leaves every other state as it is. */
  lemma ReopenedExactly(cfg: Config, states: seq<Sys>, steps: seq<Step>, i: nat, id: nat)
    requires IsRun(cfg, states, steps) && i < |steps| && steps[i] == Replay(id)
    ensures if id in states[i].db.jobs && states[i].db.jobs[id].status == Dead then
              && states[i + 1].db == states[i].db.(jobs := states[i].db.jobs[id :=
                   Job(Pending, states[i].db.jobs[id].createdAt, states[i].now, 0, None, None, None)])
              && states[i + 1].now == states[i].now
              && states[i + 1].claimants == states[i].claimants && states[i + 1].calls == states[i].calls
            else states[i + 1] == states[i]
  {
    assert states[i + 1] == Apply(cfg, states[i], steps[i]);
  }

  // ---------- SAP's ids ----------

  lemma ShopKeepsSapIds(db: Db, e: ShopEvent, now: int, cfg: Config, id: nat)
    requires Inv(db) && id in ShopTx(db, e, now, cfg).orders
    ensures ShopTx(db, e, now, cfg).orders[id].sapId == if id in db.orders then db.orders[id].sapId else None
  {
    hide ProcessShop;
    if e.orderId in db.orderIndex {
      ShopRepeat(db, e, now, cfg);
    } else if e.eventId !in db.shopEvents {
      ShopEffect(db, e, now, cfg);
      assert db.nextId !in db.orders;
    } else {
      ShopReuse(db, e, now, cfg);
    }
  }

  lemma PayKeepsSapIds(db: Db, e: PaymentEvent, now: int, cfg: Config, id: nat)
    requires Inv(db) && id in PaymentTx(db, e, now, cfg).orders
    ensures id in db.orders && PaymentTx(db, e, now, cfg).orders[id].sapId == db.orders[id].sapId
  {
    hide ProcessPayment, Inv;
    if e.eventId in db.paymentEvents {
      PaymentRepeat(db, e, now, cfg);
    } else if Open(db, e.reference) {
      PaymentEffect(db, e, now, cfg);
    } else {
      PaymentAfterEnd(db, e, now, cfg);
    }
  }

  /** The worker stores SAP's id for this job. */
  ghost predicate Saves(s: Sys, step: Step, id: nat) {
    step.Mark? && step.applied && step.worker in s.claimants && s.claimants[step.worker].job == id && s.claimants[step.worker].phase.Saving?
  }

  function JobSapId(db: Db, id: nat): Option<string> {
    if id in db.jobs then db.jobs[id].sapId else None
  }

  function OrderSapId(db: Db, id: nat): Option<string> {
    if id in db.orders then db.orders[id].sapId else None
  }

  /** No id appears: the order's stays and the job's stays or is cleared. */
  ghost predicate IdsKept(db: Db, db': Db, id: nat) {
    OrderSapId(db', id) == OrderSapId(db, id) && (JobSapId(db', id) == JobSapId(db, id) || JobSapId(db', id).None?)
  }

  ghost predicate IdsSet(db: Db, id: nat, sapId: string) {
    OrderSapId(db, id) == JobSapId(db, id) == Some(sapId)
  }

  lemma MarkSapIds(cfg: Config, s: Sys, step: Step, id: nat)
    requires Enabled(s, step) && step.Mark? && (id in s.db.jobs ==> id in s.db.orders)
    ensures var db' := Apply(cfg, s, step).db;
            if Saves(s, step, id) && id in s.db.jobs then IdsSet(db', id, s.claimants[step.worker].phase.sapId) else IdsKept(s.db, db', id)
  {
    hide DoMark, DoClaim, DoDeliver, DoRespond, DoReplay, Claimable, ShopTx, PaymentTx, MarkSynced, MarkFailed;
    var c := s.claimants[step.worker];
    MarkTables(cfg, s, step.worker, step.applied, step.reported, step.delay);
    if c.phase.Saving? {
      SyncedIds(s.db, c.job, c.phase.sapId, id);
    } else {
      FailedIds(s.db, c.job, c.phase.status, c.phase.dueAt, s.now, id);
    }
  }

  lemma SyncedIds(db: Db, job: nat, sapId: string, id: nat)
    requires id in db.jobs ==> id in db.orders
    ensures if id == job && id in db.jobs then IdsSet(MarkSynced(db, job, sapId), id, sapId) else IdsKept(db, MarkSynced(db, job, sapId), id)
  {
  }

  lemma FailedIds(db: Db, job: nat, status: SyncStatus, dueAt: int, now: int, id: nat)
    ensures IdsKept(db, MarkFailed(db, job, status, dueAt, now), id)
  {
  }

  /** Claims, replays and steps that write nothing. */
  lemma OtherSapIds(cfg: Config, s: Sys, step: Step, id: nat)
    requires Enabled(s, step) && !step.Shop? && !step.Pay? && !step.Mark?
    ensures IdsKept(s.db, Apply(cfg, s, step).db, id)
  {
    hide DoMark, DoDeliver, DoRespond, Claimable;
    if !step.Claim? && !step.Replay? {
      QuietSteps(cfg, s, step);
    }
  }

  lemma WebhookSapIds(cfg: Config, s: Sys, step: Step, id: nat)
    requires SysInv(cfg, s) && Enabled(s, step) && (step.Shop? || step.Pay?)
    ensures var db' := Apply(cfg, s, step).db;
            JobSapId(db', id) == JobSapId(s.db, id) && IdsKept(s.db, db', id)
  {
    hide SysInv, Inv, ShopTx, PaymentTx, Grows;
    SysInvDb(cfg, s);
    if step.Shop? {
      ShopTxGrows(s.db, step.shop, s.now, cfg);
      ShopTxJobs(s.db, step.shop, s.now, cfg);
      if id in ShopTx(s.db, step.shop, s.now, cfg).orders { ShopKeepsSapIds(s.db, step.shop, s.now, cfg, id); }
    } else {
      PaymentTxGrows(s.db, step.payment, s.now, cfg);
      PaymentTxJobs(s.db, step.payment, s.now, cfg);
      if id in PaymentTx(s.db, step.payment, s.now, cfg).orders { PayKeepsSapIds(s.db, step.payment, s.now, cfg, id); }
    }
    if id in s.db.orders { GrownOrder(s.db, Apply(cfg, s, step).db, id); }
  }

  /** A stored success writes both columns, a replay clears the job's, and nothing else touches either. */
  lemma SapIdStep(cfg: Config, s: Sys, step: Step, id: nat)
    requires SysInv(cfg, s) && Enabled(s, step)
    ensures var db' := Apply(cfg, s, step).db;
            if Saves(s, step, id) && id in s.db.jobs then IdsSet(db', id, s.claimants[step.worker].phase.sapId) else IdsKept(s.db, db', id)
  {
    hide SysInv, Inv, Apply, Enabled;
    if step.Shop? || step.Pay? {
      WebhookSapIds(cfg, s, step, id);
    } else if step.Mark? {
      SysInvDb(cfg, s);
      if id in s.db.jobs { JobIsSound(s.db, id); }
      MarkSapIds(cfg, s, step, id);
    } else {
      OtherSapIds(cfg, s, step, id);
    }
  }

  /**
   SAP's ids: a job that carries one shares it with its order, and an order carries
   only an id with which SAP accepted one of its calls.
   */
  lemma {:induction false} SapIdsAgree(cfg: Config, states: seq<Sys>, steps: seq<Step>, i: nat, id: nat)
    requires IsRun(cfg, states, steps) && i < |states|
    ensures var db := states[i].db;
            && (JobSapId(db, id).Some? ==> OrderSapId(db, id) == JobSapId(db, id))
            && (OrderSapId(db, id).Some? ==> id in db.jobs && AcceptedBefore(states, steps, i, id, OrderSapId(db, id).value))
            && (id in db.jobs && db.jobs[id].status == Synced ==> OrderSapId(db, id).Some?)
  {
    hide Apply, Enabled, SysInv;
    if i > 0 {
      var s, step := states[i - 1], steps[i - 1];
      SapIdsAgree(cfg, states, steps, i - 1, id);
      RunKeeps(cfg, states, steps, i - 1);
      SyncedMeansAccepted(cfg, states, steps, i - 1);
      SyncedMeansAccepted(cfg, states, steps, i);
      SapIdStep(cfg, s, step, id);
      RunAdvances(cfg, states, steps, i - 1, i);
      if OrderSapId(s.db, id).Some? {
        StillAccepted(states, steps, i - 1, id, OrderSapId(s.db, id).value);
      }
      if Saves(s, step, id) {
        StillAccepted(states, steps, i - 1, id, s.claimants[step.worker].phase.sapId);
      }
    }
  }
}
