/** A reachable run that breaks the lease, and what it costs. */
module Witness {
  import opened Contracts
  import opened Tables
  import opened Webhooks
  import opened Lifecycle
  import opened System

  const CFG: Config := Config(30, {"NUKI-SL3", "NUKI-BRIDGE"}, 3, 5, 900, 1000)
  const ITEMS: seq<Item> := [Item("NUKI-SMART-HOSTING", 1, 500, None)]
  const ORDERED: ShopEvent := ShopEvent("s1", "ORD-1", "a@b.c", ITEMS)
  const PAID: PaymentEvent := PaymentEvent("p1", "ORD-1", PaymentCompleted, Timestamp("2026-01-01T00:00:00Z", 0))

  /** The tables after the order and its payment: one paid order, one job due at once. */
  lemma PaidOrder() returns (db: Db)
    ensures ShopTx(EMPTY_DB, ORDERED, 0, CFG).orderIndex == map["ORD-1" := 1]
    ensures db == PaymentTx(ShopTx(EMPTY_DB, ORDERED, 0, CFG), PAID, 0, CFG)
    ensures db.orders == map[1 := Order("ORD-1", "a@b.c", ITEMS, OrderPaid, Some(0), None)]
    ensures db.jobs == map[1 := NewJob(0, 0)]
  {
    hide ProcessShop, ProcessPayment, Inv;
    EmptyInv();
    ShopEffect(EMPTY_DB, ORDERED, 0, CFG);
    ShopTxKeepsInv(EMPTY_DB, ORDERED, 0, CFG);
    var stored := ShopTx(EMPTY_DB, ORDERED, 0, CFG);
    PaymentEffect(stored, PAID, 0, CFG);
    db := PaymentTx(stored, PAID, 0, CFG);
    assert DelaySeconds(ITEMS, CFG) == 0;
  }

  ghost predicate Reachable(s: Sys) {
    exists states, steps :: IsRun(CFG, states, steps) && states[|steps|] == s
  }

  lemma ReachStep(s: Sys, step: Step)
    requires Reachable(s) && Enabled(s, step)
    ensures Reachable(Apply(CFG, s, step))
  {
    hide Apply, Enabled;
    var states, steps :| IsRun(CFG, states, steps) && states[|steps|] == s;
    var states', steps' := states + [Apply(CFG, s, step)], steps + [step];
    assert IsRun(CFG, states', steps') && states'[|steps'|] == Apply(CFG, s, step);
  }

  const ROW: Order := Order("ORD-1", "a@b.c", ITEMS, OrderPaid, Some(0), None)

  ghost predicate Tables1(s: Sys, job: Job) {
    s.db.orders.Keys == {1} && s.db.orders[1] == ROW && s.db.jobs == map[1 := job]
  }

  /** The order is paid and its job due, before any worker has seen it. */
  lemma ReachPaid() returns (s: Sys)
    ensures Reachable(s) && s.now == 0 && s.claimants == map[] && Tables1(s, NewJob(0, 0))
  {
    hide ShopTx, PaymentTx;
    var db := PaidOrder();
    var s0 := Sys(EMPTY_DB, 0, map[], map[], []);
    var none: seq<Step> := [];
    assert IsRun(CFG, [s0], none) && [s0][|none|] == s0;
    ReachStep(s0, Shop(ORDERED));
    var s1 := Apply(CFG, s0, Shop(ORDERED));
    ReachStep(s1, Pay(PAID));
    s := Apply(CFG, s1, Pay(PAID));
  }

  /** Worker 1 claims the job, its call fails, and it stalls before its mark for two minutes. */
  lemma ReachStalled() returns (s: Sys)
    ensures Reachable(s) && s.now == 120 * SECOND && s.claimants.Keys == {1}
    ensures s.claimants[1].job == 1 && s.claimants[1].phase == Marking(Pending, 0)
    ensures Tables1(s, NewJob(0, 0).(status := Processing, lockedAt := Some(0), attempts := 1))
  {
    hide Reachable;
    s := ReachPaid();
    ReachStep(s, Claim(1, 1, ITEMS));
    s := Apply(CFG, s, Claim(1, 1, ITEMS));
    ReachStep(s, Deliver(1));
    s := Apply(CFG, s, Deliver(1));
    ReachStep(s, Respond(1, Refused(true, 0)));
    s := Apply(CFG, s, Respond(1, Refused(true, 0)));
    ReachStep(s, Tick(120 * SECOND));
    s := Apply(CFG, s, Tick(120 * SECOND));
  }

  /** Worker 2 takes the stalled job over and calls SAP. */
  lemma ReachTakenOver() returns (s: Sys)
    ensures Reachable(s) && s.now == 120 * SECOND && s.claimants.Keys == {1, 2}
    ensures s.claimants[1].job == 1 && s.claimants[1].phase == Marking(Pending, 0)
    ensures s.claimants[2].job == 1 && s.claimants[2].phase == Calling(120 * SECOND)
    ensures Tables1(s, NewJob(0, 0).(status := Processing, lockedAt := Some(120 * SECOND), attempts := 2))
  {
    hide Reachable;
    s := ReachStalled();
    ReachStep(s, Claim(2, 1, ITEMS));
    s := Apply(CFG, s, Claim(2, 1, ITEMS));
    ReachStep(s, Deliver(2));
    s := Apply(CFG, s, Deliver(2));
  }

  /** Worker 2 gets its answer and stores it; then comes the late mark of worker 1, guarded by the job id alone. */
  lemma LateMark(answer: Answer) returns (s: Sys, step: Step)
    requires answer == Accepted("SAP-1") || answer == Refused(false, 0)
    ensures Reachable(s) && Enabled(s, step)
    ensures 1 in s.db.jobs && s.db.jobs[1].status == if answer.Accepted? then Synced else Dead
    ensures step.Mark? && 1 in Apply(CFG, s, step).db.jobs && Apply(CFG, s, step).db.jobs[1].status == Pending
  {
    hide Reachable;
    s := ReachTakenOver();
    ReachStep(s, Respond(2, answer));
    s := Apply(CFG, s, Respond(2, answer));
    ReachStep(s, Mark(2, true, true, 0));
    s := Apply(CFG, s, Mark(2, true, true, 0));
    step := Mark(1, true, true, 0);
  }

  /** Without the lease SYNCED is not absorbing: after a takeover a late mark puts the job back to PENDING. */
  lemma LateMarkUndoesSynced() returns (s: Sys, step: Step)
    ensures Reachable(s) && Enabled(s, step)
    ensures 1 in s.db.jobs && s.db.jobs[1].status == Synced
    ensures 1 in Apply(CFG, s, step).db.jobs && Apply(CFG, s, step).db.jobs[1].status == Pending
  {
    hide Reachable, Apply, Enabled;
    s, step := LateMark(Accepted("SAP-1"));
  }

  /** Nor is DEAD left by replays only: the same late mark reopens a job that was given up. */
  lemma LateMarkReopensDead() returns (s: Sys, step: Step)
    ensures Reachable(s) && Enabled(s, step) && step.Mark?
    ensures 1 in s.db.jobs && s.db.jobs[1].status == Dead
    ensures 1 in Apply(CFG, s, step).db.jobs && Apply(CFG, s, step).db.jobs[1].status == Pending
  {
    hide Reachable, Apply, Enabled;
    s, step := LateMark(Refused(false, 0));
  }
}
