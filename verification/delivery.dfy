/** Theorems over every run: coupling, replays, the call budget, stable payloads, no early dispatch. */
module Delivery {
  import opened Contracts
  import opened Tables
  import opened Webhooks
  import opened Lifecycle
  import opened Growth
  import opened Queue
  import opened System
  import opened Invariant

  // ---------- lifecycle ----------

  /** In every reachable state the order, its payment and its job agree. */
  lemma LifecycleCoupling(cfg: Config, states: seq<Sys>, steps: seq<Step>, i: nat, id: nat)
    requires IsRun(cfg, states, steps) && i < |states| && id in states[i].db.orders
    ensures var db := states[i].db;
            var o := db.orders[id];
            var payment := FindPayment(db, o.orderId);
            && (payment.Some? ==> payment.value.orderId == Some(id))
            && (payment.Some? ==> (payment.value.paidAt.Some? <==> payment.value.status == PaymentCompleted))
            && (o.state == OrderPaid <==> payment.Some? && payment.value.status == PaymentCompleted)
            && (o.state == OrderPaid <==> id in db.jobs)
            && (o.state == OrderPaid ==> o.paidAt == payment.value.paidAt)
            && (o.state != OrderPaid ==> o.paidAt.None?)
            && (o.state == OrderCancelled <==> payment.Some? && payment.value.status == PaymentCancelled)
  {
    hide Apply, Enabled;
    RunKeeps(cfg, states, steps, i);
    var db := states[i].db;
    var o := db.orders[id];
    assert OrderSettled(o, FindPayment(db, o.orderId), id in db.jobs);
    if o.orderId in db.payments {
      assert PaymentSettled(db, o.orderId, db.payments[o.orderId]);
    }
  }

  /** In every reachable state payments and orders are linked one to one, and exactly completed payments are dated. */
  lemma PaymentCoupling(cfg: Config, states: seq<Sys>, steps: seq<Step>, i: nat, r: string, r': string)
    requires IsRun(cfg, states, steps) && i < |states| && r in states[i].db.payments && r' in states[i].db.payments
    ensures var db := states[i].db;
            var p := db.payments[r];
            && (p.orderId.Some? <==> r in db.orderIndex)
            && (p.orderId.Some? ==> p.orderId.value in db.orders && db.orders[p.orderId.value].orderId == r)
            && (p.orderId.Some? && db.payments[r'].orderId == p.orderId ==> r' == r)
            && (p.paidAt.Some? <==> p.status == PaymentCompleted)
  {
    hide Apply, Enabled;
    RunKeeps(cfg, states, steps, i);
    var db := states[i].db;
    assert PaymentSettled(db, r, db.payments[r]) && PaymentSettled(db, r', db.payments[r']);
  }

  /** An order that ever had a job stays paid, and its job is never cancelled. */
  lemma QueuedStaysPaid(cfg: Config, states: seq<Sys>, steps: seq<Step>, i: nat, j: nat, id: nat)
    requires IsRun(cfg, states, steps) && i <= j < |states| && id in states[i].db.jobs
    ensures id in states[j].db.orders && states[j].db.orders[id].state == OrderPaid
    ensures id in states[j].db.jobs && states[j].db.jobs[id].status != Cancelled
  {
    hide Apply, Enabled, Grows, Inv;
    RunAdvances(cfg, states, steps, i, j);
    RunKeeps(cfg, states, steps, j);
    GrowsKeepsJob(states[i].db, states[j].db, id);
    JobIsSound(states[j].db, id);
  }

  /** A committed shop event, sent again at any later point of the run, is a duplicate without effect. */
  lemma ShopReplay(cfg: Config, states: seq<Sys>, steps: seq<Step>, i: nat, j: nat, e: ShopEvent, at: int)
    requires IsRun(cfg, states, steps) && i < j < |states| && steps[i] == Shop(e)
    requires ProcessShop(states[i].db, e, states[i].now, cfg).Ok?
    ensures ProcessShop(states[j].db, e, at, cfg) == Ok(Committed(states[j].db, true))
  {
    hide ProcessShop, SysInv, Inv;
    var db, db1, later := states[i].db, states[i + 1].db, states[j].db;
    RunKeeps(cfg, states, steps, i);
    RunKeeps(cfg, states, steps, j);
    SysInvDb(cfg, states[i]);
    SysInvDb(cfg, states[j]);
    ShopCommitted(db, e, states[i].now, cfg);
    RunAdvances(cfg, states, steps, i + 1, j);
    ShopRemembered(db1, later, e);
    ShopRepeat(later, e, at, cfg);
  }

  ghost predicate ShopKnown(db: Db, e: ShopEvent) {
    e.eventId in db.shopEvents && FindOrder(db, e.orderId).Some? && SameOrder(FindOrder(db, e.orderId).value, e)
  }

  lemma ShopCommitted(db: Db, e: ShopEvent, now: int, cfg: Config)
    requires Inv(db) && ProcessShop(db, e, now, cfg).Ok?
    ensures ShopKnown(ShopTx(db, e, now, cfg), e)
  {
    hide ProcessShop;
    if e.orderId in db.orderIndex {
      ShopRepeat(db, e, now, cfg);
    } else if e.eventId !in db.shopEvents {
      ShopEffect(db, e, now, cfg);
    } else {
      ShopReuse(db, e, now, cfg);
    }
  }

  lemma ShopRemembered(db: Db, later: Db, e: ShopEvent)
    requires ShopKnown(db, e) && Grows(db, later)
    ensures ShopKnown(later, e)
  {
  }

  /** A committed payment event, sent again at any later point of the run, is a duplicate without effect. */
  lemma PaymentReplay(cfg: Config, states: seq<Sys>, steps: seq<Step>, i: nat, j: nat, e: PaymentEvent, at: int)
    requires IsRun(cfg, states, steps) && i < j < |states| && steps[i] == Pay(e)
    requires ProcessPayment(states[i].db, e, states[i].now, cfg).Ok?
    ensures ProcessPayment(states[j].db, e, at, cfg) == Ok(Committed(states[j].db, true))
  {
    hide ProcessPayment, SysInv, Inv;
    RunKeeps(cfg, states, steps, i);
    RunKeeps(cfg, states, steps, j);
    SysInvDb(cfg, states[i]);
    SysInvDb(cfg, states[j]);
    PaymentCommitted(states[i].db, e, states[i].now, cfg);
    RunAdvances(cfg, states, steps, i + 1, j);
    PaymentRepeat(states[j].db, e, at, cfg);
  }

  lemma PaymentCommitted(db: Db, e: PaymentEvent, now: int, cfg: Config)
    requires Inv(db) && ProcessPayment(db, e, now, cfg).Ok?
    ensures var db' := PaymentTx(db, e, now, cfg);
            e.eventId in db'.paymentEvents && SamePaymentPayload(db'.paymentEvents[e.eventId].payload, e)
  {
    hide ProcessPayment;
    if e.eventId in db.paymentEvents {
      PaymentRepeat(db, e, now, cfg);
    } else if Open(db, e.reference) {
      PaymentEffect(db, e, now, cfg);
    } else {
      PaymentAfterEnd(db, e, now, cfg);
    }
  }

  // ---------- the call budget ----------

  /** The calls made for a job from claims of one replay epoch. */
  ghost function CallsFor(calls: seq<Call>, job: nat, epoch: nat): set<nat> {
    set i: nat | i < |calls| && calls[i].job == job && calls[i].epoch == epoch
  }

  /** Numbers between 1 and n, no two alike, are at most n. */
  lemma {:induction false} Pigeonhole(calls: seq<Call>, chosen: set<nat>, n: nat)
    requires forall i :: i in chosen ==> i < |calls| && 1 <= calls[i].attempt <= n
    requires forall i, k :: i in chosen && k in chosen && i != k ==> calls[i].attempt != calls[k].attempt
    ensures |chosen| <= n
    decreases n
  {
    if n == 0 {
      if chosen != {} {
        var i := SomeMember(chosen);
        assert false;
      }
    } else if last :| last in chosen && calls[last].attempt == n {
      Pigeonhole(calls, chosen - {last}, n - 1);
    } else {
      Pigeonhole(calls, chosen, n - 1);
    }
  }

  /**
   SAP call budget: whatever workers crash, marks get lost or stale claims are
   taken over, one replay epoch never makes more calls than the attempt limit.
   */
  lemma CallBudget(cfg: Config, states: seq<Sys>, steps: seq<Step>, i: nat, job: nat, epoch: nat)
    requires IsRun(cfg, states, steps) && i < |states|
    ensures |CallsFor(states[i].calls, job, epoch)| <= cfg.MaxTotalAttempts()
  {
    hide Apply, Enabled, Inv;
    RunKeeps(cfg, states, steps, i);
    var calls := states[i].calls;
    var chosen := CallsFor(calls, job, epoch);
    forall k | k in chosen ensures 1 <= calls[k].attempt <= cfg.MaxTotalAttempts() {
      assert CallOk(cfg, states[i], calls[k]);
    }
    forall k, m | k in chosen && m in chosen && k != m ensures calls[k].attempt != calls[m].attempt {
      assert CallToken(calls[k]) != CallToken(calls[m]);
    }
    Pigeonhole(calls, chosen, cfg.MaxTotalAttempts());
  }

  /** Each replay epoch beyond the first was opened by an operator, so replays are the only way to more calls. */
  lemma {:induction false} EpochsCountReplays(cfg: Config, states: seq<Sys>, steps: seq<Step>, i: nat, job: nat)
    requires IsRun(cfg, states, steps) && i < |states|
    ensures EpochOf(states[i], job) == |Replays(states, steps, i, job)|
  {
    hide Apply, Enabled, Replays;
    if i > 0 {
      EpochsCountReplays(cfg, states, steps, i - 1, job);
      StepEpoch(cfg, states[i - 1], steps[i - 1], job);
      ReplaysStep(states, steps, i - 1, job);
    } else {
      NoReplaysYet(states, steps, job);
    }
  }

  lemma NoReplaysYet(states: seq<Sys>, steps: seq<Step>, job: nat)
    requires |states| == |steps| + 1
    ensures Replays(states, steps, 0, job) == {}
  {
  }

  lemma ReplaysStep(states: seq<Sys>, steps: seq<Step>, i: nat, job: nat)
    requires |states| == |steps| + 1 && i < |steps|
    ensures |Replays(states, steps, i + 1, job)| == |Replays(states, steps, i, job)| + if Reopens(states, steps, i, job) then 1 else 0
  {
    hide Reopens;
    var before, after := Replays(states, steps, i, job), Replays(states, steps, i + 1, job);
    if Reopens(states, steps, i, job) {
      assert after == before + {i};
    } else {
      assert after == before;
    }
  }

  lemma StepEpoch(cfg: Config, s: Sys, step: Step, job: nat)
    requires Enabled(s, step)
    ensures EpochOf(Apply(cfg, s, step), job) ==
            EpochOf(s, job) + if step == Replay(job) && job in s.db.jobs && s.db.jobs[job].status == Dead then 1 else 0
  {
  }

  /** Step `k` is an operator's replay that found the job DEAD. */
  ghost predicate Reopens(states: seq<Sys>, steps: seq<Step>, k: nat, job: nat)
    requires |states| == |steps| + 1 && k < |steps|
  {
    steps[k] == Replay(job) && job in states[k].db.jobs && states[k].db.jobs[job].status == Dead
  }

  ghost function Replays(states: seq<Sys>, steps: seq<Step>, i: nat, job: nat): set<nat>
    requires |states| == |steps| + 1 && i <= |steps|
  {
    set k: nat | k < i && Reopens(states, steps, k, job)
  }

  // ---------- payloads and dispatch times ----------

  /** Calls under one idempotency key carry one order: same job, email, paid instant and items. */
  lemma StablePayload(cfg: Config, states: seq<Sys>, steps: seq<Step>, i: nat, k: nat, m: nat)
    requires IsRun(cfg, states, steps) && i < |states| && k < |states[i].calls| && m < |states[i].calls|
    ensures var a, b := states[i].calls[k], states[i].calls[m];
            && (a.details.orderId == b.details.orderId <==> a.job == b.job)
            && (a.job == b.job ==>
                  && a.details.email == b.details.email && a.details.paidAt == b.details.paidAt
                  && multiset(a.details.items) == multiset(b.details.items))
  {
    hide Apply, Enabled;
    RunKeeps(cfg, states, steps, i);
    var s := states[i];
    assert CallOk(cfg, s, s.calls[k]) && CallOk(cfg, s, s.calls[m]);
  }

  /** Every call describes the order as the shop sent it and the payment dated it. */
  lemma TruthfulPayload(cfg: Config, states: seq<Sys>, steps: seq<Step>, i: nat, k: nat)
    requires IsRun(cfg, states, steps) && i < |states| && k < |states[i].calls|
    ensures var c := states[i].calls[k];
            c.job in states[i].db.orders && Matches(states[i].db.orders[c.job], c.details)
  {
    hide Apply, Enabled;
    RunKeeps(cfg, states, steps, i);
    assert CallOk(cfg, states[i], states[i].calls[k]);
  }

  /** No call starts before the job's scheduling time plus the hardware delay, on any attempt or replay. */
  lemma NoEarlyDispatch(cfg: Config, states: seq<Sys>, steps: seq<Step>, i: nat, k: nat)
    requires IsRun(cfg, states, steps) && i < |states| && k < |states[i].calls|
    ensures var db, c := states[i].db, states[i].calls[k];
            && c.job in db.jobs && c.job in db.orders
            && c.at >= db.jobs[c.job].createdAt + DelaySeconds(db.orders[c.job].items, cfg) * SECOND
  {
    hide Apply, Enabled;
    RunKeeps(cfg, states, steps, i);
    assert CallOk(cfg, states[i], states[i].calls[k]);
  }

  // ---------- SYNCED is earned ----------

  /** Before state `i` of the run SAP accepted a call of this job with this id. */
  ghost predicate AcceptedBefore(states: seq<Sys>, steps: seq<Step>, i: nat, id: nat, sapId: string)
    requires |states| == |steps| + 1 && i <= |steps|
  {
    exists k :: 0 <= k < i && AcceptedAt(states[k], steps[k], id, sapId)
  }

  ghost predicate AcceptedAt(s: Sys, step: Step, id: nat, sapId: string) {
    step.Respond? && step.answer == Accepted(sapId) && step.worker in s.claimants && s.claimants[step.worker].job == id
  }

  /** A worker about to store a success, and a row that shows one, both have SAP's word for it. */
  ghost predicate Acknowledged(states: seq<Sys>, steps: seq<Step>, i: nat)
    requires |states| == |steps| + 1 && i <= |steps|
  {
    && (forall w :: w in states[i].claimants && states[i].claimants[w].phase.Saving? ==>
          AcceptedBefore(states, steps, i, states[i].claimants[w].job, states[i].claimants[w].phase.sapId))
    && (forall id :: id in states[i].db.jobs && states[i].db.jobs[id].status == Synced ==>
          states[i].db.jobs[id].sapId.Some? && AcceptedBefore(states, steps, i, id, states[i].db.jobs[id].sapId.value))
  }

  /** Where one step's SYNCED rows come from. */
  lemma SyncedOrigin(cfg: Config, s: Sys, step: Step, id: nat)
    requires SysInv(cfg, s) && Enabled(s, step)
    requires id in Apply(cfg, s, step).db.jobs && Apply(cfg, s, step).db.jobs[id].status == Synced
    ensures var j' := Apply(cfg, s, step).db.jobs[id];
            || (id in s.db.jobs && s.db.jobs[id] == j')
            || (step.Mark? && s.claimants[step.worker].job == id && s.claimants[step.worker].phase.Saving?
                && j'.sapId == Some(s.claimants[step.worker].phase.sapId))
  {
    hide SysInv, Inv, ShopTx, PaymentTx, DoMark, DoDeliver, DoRespond, Claimable;
    match step {
      case Shop(e) => SysInvDb(cfg, s); ShopTxJobs(s.db, e, s.now, cfg);
      case Pay(e) => SysInvDb(cfg, s); PaymentTxJobs(s.db, e, s.now, cfg);
      case Mark(worker, applied, reported, delay) =>
        MarkTables(cfg, s, worker, applied, reported, delay);
        SavingFacts(cfg, s, worker);
      case Claim(_, _, _) =>
      case Replay(_) =>
      case _ => QuietSteps(cfg, s, step);
    }
  }

  lemma SavingFacts(cfg: Config, s: Sys, worker: nat)
    requires SysInv(cfg, s) && worker in s.claimants
    ensures s.claimants[worker].phase.Marking? ==> s.claimants[worker].phase.status != Synced
  {
  }

  /** Where one step's workers about to store a success come from. */
  lemma SavingOrigin(cfg: Config, s: Sys, step: Step, w: nat)
    requires Enabled(s, step)
    requires w in Apply(cfg, s, step).claimants && Apply(cfg, s, step).claimants[w].phase.Saving?
    ensures var c' := Apply(cfg, s, step).claimants[w];
            || (w in s.claimants && s.claimants[w] == c')
            || (w in s.claimants && s.claimants[w].job == c'.job && step == Respond(w, Accepted(c'.phase.sapId)))
  {
  }

  /** SYNCED is earned: whenever a job shows SYNCED, SAP accepted one of its calls with the stored id. */
  lemma {:induction false} SyncedMeansAccepted(cfg: Config, states: seq<Sys>, steps: seq<Step>, i: nat)
    requires IsRun(cfg, states, steps) && i < |states|
    ensures Acknowledged(states, steps, i)
  {
    hide Apply, Enabled, SysInv;
    if i > 0 {
      SyncedMeansAccepted(cfg, states, steps, i - 1);
      RunKeeps(cfg, states, steps, i - 1);
      var s, s', step := states[i - 1], states[i], steps[i - 1];
      forall w | w in s'.claimants && s'.claimants[w].phase.Saving?
        ensures AcceptedBefore(states, steps, i, s'.claimants[w].job, s'.claimants[w].phase.sapId)
      {
        SavingOrigin(cfg, s, step, w);
        if step == Respond(w, Accepted(s'.claimants[w].phase.sapId)) {
          assert AcceptedAt(states[i - 1], steps[i - 1], s'.claimants[w].job, s'.claimants[w].phase.sapId);
        } else {
          StillAccepted(states, steps, i - 1, s'.claimants[w].job, s'.claimants[w].phase.sapId);
        }
      }
      forall id | id in s'.db.jobs && s'.db.jobs[id].status == Synced
        ensures s'.db.jobs[id].sapId.Some? && AcceptedBefore(states, steps, i, id, s'.db.jobs[id].sapId.value)
      {
        SyncedOrigin(cfg, s, step, id);
        EnabledMark(s, step);
        StillAccepted(states, steps, i - 1, id, s'.db.jobs[id].sapId.value);
      }
    }
  }

  lemma EnabledMark(s: Sys, step: Step)
    requires Enabled(s, step)
    ensures step.Mark? ==> step.worker in s.claimants
  {
  }

  lemma StillAccepted(states: seq<Sys>, steps: seq<Step>, i: nat, id: nat, sapId: string)
    requires |states| == |steps| + 1 && i < |steps| && AcceptedBefore(states, steps, i, id, sapId)
    ensures AcceptedBefore(states, steps, i + 1, id, sapId)
  {
  }
}
