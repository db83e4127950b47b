/**
 What one delivery attempt does, from claim to stored mark, in every run: other
 workers, webhooks, replays and the clock may take any steps in between.
 */
module Attempts {
  import opened Contracts
  import opened Tables
  import opened Webhooks
  import opened Lifecycle
  import opened Queue
  import opened System
  import opened Invariant

  /** A step that worker `w` takes. */
  predicate By(step: Step, w: nat) {
    (step.Claim? || step.Deliver? || step.Respond? || step.Mark? || step.Crash?) && step.worker == w
  }

  /** Between the two points of the run the worker does nothing. */
  ghost predicate Idle(steps: seq<Step>, i: nat, j: nat, w: nat) {
    forall k :: i < k < j && k < |steps| ==> !By(steps[k], w)
  }

  lemma OthersLeaveClaimant(cfg: Config, s: Sys, step: Step, w: nat)
    requires Enabled(s, step) && w in s.claimants && !By(step, w)
    ensures w in Apply(cfg, s, step).claimants && Apply(cfg, s, step).claimants[w] == s.claimants[w]
  {
  }

  /** A claimant stays as it is while its worker does nothing. */
  lemma {:induction false} ClaimantKept(cfg: Config, states: seq<Sys>, steps: seq<Step>, i: nat, j: nat, w: nat)
    requires IsRun(cfg, states, steps) && i < j < |states| && Idle(steps, i, j, w)
    requires w in states[i + 1].claimants
    ensures w in states[j].claimants && states[j].claimants[w] == states[i + 1].claimants[w]
    decreases j
  {
    hide Apply, Enabled;
    if i + 1 < j {
      ClaimantKept(cfg, states, steps, i, j - 1, w);
      assert !By(steps[j - 1], w);
      OthersLeaveClaimant(cfg, states[j - 1], steps[j - 1], w);
    }
  }

  // ---------- from claim to call ----------

  /** Worker `w` claims job `id` at `c` and decides about it at `h`. */
  ghost predicate Decided(cfg: Config, states: seq<Sys>, steps: seq<Step>, c: nat, h: nat, id: nat, w: nat) {
    && IsRun(cfg, states, steps) && c < h < |steps|
    && steps[c].Claim? && steps[c].worker == w && steps[c].job == id && steps[h] == Deliver(w) && Idle(steps, c, h, w)
    && id in states[c].db.jobs && id in states[c].db.orders && states[c].db.orders[id].paidAt.Some?
  }

  /** The number of this attempt. */
  ghost function Number(states: seq<Sys>, c: nat, id: nat): int
    requires c < |states| && id in states[c].db.jobs
  {
    states[c].db.jobs[id].attempts + 1
  }

  /** Inside the recovery window, if one has started, and inside the attempt limit. */
  ghost predicate MayCall(cfg: Config, states: seq<Sys>, c: nat, h: nat, id: nat)
    requires c < |states| && h < |states| && id in states[c].db.jobs
  {
    && (states[c].db.jobs[id].waitingSince.Some? ==> states[h].now - states[c].db.jobs[id].waitingSince.value < cfg.RecoveryWindow())
    && Number(states, c, id) <= cfg.MaxTotalAttempts()
  }

  /** What a claim takes: a job that is due, or locked for two minutes; it locks the row and counts the attempt. */
  lemma ClaimTakes(cfg: Config, states: seq<Sys>, steps: seq<Step>, c: nat, id: nat, w: nat)
    requires IsRun(cfg, states, steps) && c < |steps| && steps[c].Claim? && steps[c].job == id && steps[c].worker == w
    ensures id in states[c].db.jobs && id in states[c].db.orders && states[c].db.orders[id].paidAt.Some?
    ensures var row := states[c].db.jobs[id];
            && (|| ((row.status == Pending || row.status == Waiting) && row.dueAt <= states[c].now)
                || (row.status == Processing && row.lockedAt.Some? && row.lockedAt.value + 120 * SECOND <= states[c].now))
            && states[c + 1].db == states[c].db.(jobs := states[c].db.jobs[id :=
                 row.(status := Processing, lockedAt := Some(states[c].now), attempts := row.attempts + 1)])
    ensures w in states[c + 1].claimants
    ensures var o, k := states[c].db.orders[id], states[c + 1].claimants[w];
            && k.job == id && k.phase == Claimed && k.epoch == EpochOf(states[c], id)
            && k.snapshot == Snapshot(states[c].db.jobs[id].status, Number(states, c, id), states[c].db.jobs[id].waitingSince,
                                      Details(o.orderId, o.email, o.paidAt.value, steps[c].items))
  {
    assert Enabled(states[c], steps[c]) && states[c + 1] == Apply(cfg, states[c], steps[c]);
  }

  /**
   SAP is called exactly when the job is inside its recovery window and its
   attempt limit; the call is one, made now, under the number, the epoch and the
   order data of the claim.
   */
  lemma CallDecision(cfg: Config, states: seq<Sys>, steps: seq<Step>, c: nat, h: nat, id: nat, w: nat)
    requires Decided(cfg, states, steps, c, h, id, w)
    ensures var row, o := states[c].db.jobs[id], states[c].db.orders[id];
            states[h + 1].calls ==
            if MayCall(cfg, states, c, h, id)
            then states[h].calls + [Call(id, EpochOf(states[c], id), Number(states, c, id), states[h].now, row.waitingSince,
                                         Details(o.orderId, o.email, o.paidAt.value, steps[c].items))]
            else states[h].calls
    ensures w in states[h + 1].claimants && states[h + 1].claimants[w].job == id
    ensures states[h + 1].claimants[w].snapshot.attempts == Number(states, c, id)
    ensures states[h + 1].claimants[w].phase == if MayCall(cfg, states, c, h, id) then Calling(states[h].now) else Marking(Dead, states[h].now)
  {
    hide Claimable, DoClaim, DoMark, DoRespond, ShopTx, PaymentTx;
    ClaimTakes(cfg, states, steps, c, id, w);
    ClaimantKept(cfg, states, steps, c, h, w);
    assert states[h + 1] == Apply(cfg, states[h], steps[h]);
  }

  // ---------- from answer to row ----------

  /** Row `id` after the mark at `m`. */
  ghost predicate Stored(states: seq<Sys>, m: nat, id: nat, j: Job) {
    m + 1 < |states| && id in states[m + 1].db.jobs && states[m + 1].db.jobs[id] == j
  }

  lemma MarkStores(cfg: Config, states: seq<Sys>, steps: seq<Step>, m: nat, w: nat, id: nat)
    requires IsRun(cfg, states, steps) && m < |steps| && steps[m].Mark? && steps[m].worker == w && steps[m].applied
    requires w in states[m].claimants && states[m].claimants[w].job == id
    ensures id in states[m].db.jobs && id in states[m].db.orders
    ensures states[m].claimants[w].phase.Marking? ==>
              var row, p := states[m].db.jobs[id], states[m].claimants[w].phase;
              && Stored(states, m, id, row.(status := p.status, dueAt := p.dueAt, lockedAt := None,
                   waitingSince := if p.status != Waiting then None
                                   else if row.waitingSince.Some? then row.waitingSince else Some(states[m].now)))
              && states[m + 1].db.orders == states[m].db.orders
    ensures states[m].claimants[w].phase.Saving? ==>
              var row, sapId := states[m].db.jobs[id], Some(states[m].claimants[w].phase.sapId);
              && Stored(states, m, id, row.(status := Synced, sapId := sapId, lockedAt := None, waitingSince := None))
              && states[m + 1].db.orders == states[m].db.orders[id := states[m].db.orders[id].(sapId := sapId)]
  {
    hide SysInv, DoMark;
    RunKeeps(cfg, states, steps, m);
    ClaimantHasRows(cfg, states[m], w);
    assert Enabled(states[m], steps[m]) && states[m + 1] == Apply(cfg, states[m], steps[m]);
    MarkTables(cfg, states[m], w, true, steps[m].reported, steps[m].delay);
  }

  lemma ClaimantHasRows(cfg: Config, s: Sys, w: nat)
    requires SysInv(cfg, s) && w in s.claimants
    ensures s.claimants[w].job in s.db.jobs && s.claimants[w].job in s.db.orders
  {
    assert ClaimantOk(cfg, s, s.claimants[w]);
  }

  /** A job outside its window or limit is given up: DEAD, due at the decision, no longer in recovery. */
  lemma GivenUp(cfg: Config, states: seq<Sys>, steps: seq<Step>, c: nat, h: nat, m: nat, id: nat, w: nat)
    requires Decided(cfg, states, steps, c, h, id, w) && !MayCall(cfg, states, c, h, id)
    requires h < m < |steps| && Idle(steps, h, m, w) && steps[m].Mark? && steps[m].worker == w && steps[m].applied
    ensures id in states[m].db.jobs
    ensures Stored(states, m, id, states[m].db.jobs[id].(status := Dead, dueAt := states[h].now, lockedAt := None, waitingSince := None))
  {
    hide Apply, Enabled;
    CallDecision(cfg, states, steps, c, h, id, w);
    ClaimantKept(cfg, states, steps, h, m, w);
    MarkStores(cfg, states, steps, m, w, id);
  }

  /** The worker decided at `h`, and SAP answered at `i`. */
  ghost predicate Answered(cfg: Config, states: seq<Sys>, steps: seq<Step>, c: nat, h: nat, i: nat, id: nat, w: nat, answer: Answer) {
    && Decided(cfg, states, steps, c, h, id, w)
    && h < i < |steps| && Idle(steps, h, i, w) && steps[i] == Respond(w, answer)
  }

  lemma AnswerTaken(cfg: Config, states: seq<Sys>, steps: seq<Step>, c: nat, h: nat, i: nat, id: nat, w: nat, answer: Answer)
    requires Answered(cfg, states, steps, c, h, i, id, w, answer)
    ensures MayCall(cfg, states, c, h, id)
    ensures w in states[i + 1].claimants && states[i + 1].claimants[w].job == id
    ensures states[i + 1].claimants[w].snapshot.attempts == Number(states, c, id)
    ensures states[i + 1].claimants[w].phase ==
            match answer
            case Accepted(sapId) => Saving(states[h].now, sapId)
            case Refused(retryable, d) =>
              if !retryable || Number(states, c, id) >= cfg.MaxTotalAttempts() then Marking(Dead, states[h].now)
              else if Number(states, c, id) >= cfg.MaxAttempts() then Marking(Waiting, states[h].now + d)
              else Marking(Pending, states[h].now + d)
  {
    hide Claimable, DoClaim, DoMark, DoDeliver, ShopTx, PaymentTx, MayCall, Decided;
    AnsweredRun(cfg, states, steps, c, h, i, id, w, answer);
    CallDecision(cfg, states, steps, c, h, id, w);
    ClaimantKept(cfg, states, steps, h, i, w);
    assert Enabled(states[i], steps[i]) && states[i + 1] == Apply(cfg, states[i], steps[i]);
  }

  lemma AnsweredRun(cfg: Config, states: seq<Sys>, steps: seq<Step>, c: nat, h: nat, i: nat, id: nat, w: nat, answer: Answer)
    requires Answered(cfg, states, steps, c, h, i, id, w, answer)
    ensures IsRun(cfg, states, steps) && c < h < i < |steps| && id in states[c].db.jobs
  {
  }

  /**
   A refusal, once stored: DEAD for good or at the attempt limit, else WAITING in
   recovery from the configured number of attempts on, else PENDING; a retry is due
   the drawn delay after the decision, to the nanosecond.
   */
  lemma RefusalStored(cfg: Config, states: seq<Sys>, steps: seq<Step>, c: nat, h: nat, i: nat, m: nat, id: nat, w: nat,
                      retryable: bool, d: int)
    requires Answered(cfg, states, steps, c, h, i, id, w, Refused(retryable, d))
    requires i < m < |steps| && Idle(steps, i, m, w) && steps[m].Mark? && steps[m].worker == w && steps[m].applied
    ensures id in states[m].db.jobs && id in states[m + 1].db.jobs
    ensures var n, row, row' := Number(states, c, id), states[m].db.jobs[id], states[m + 1].db.jobs[id];
            && (row'.status == Dead <==> !retryable || n >= cfg.MaxTotalAttempts())
            && (row'.status == Waiting <==> retryable && cfg.MaxAttempts() <= n < cfg.MaxTotalAttempts())
            && (row'.status == Pending <==> retryable && n < cfg.MaxAttempts() && n < cfg.MaxTotalAttempts())
            && row'.dueAt == (if row'.status == Dead then states[h].now else states[h].now + d)
            && row'.waitingSince == (if row'.status != Waiting then None
                                     else if row.waitingSince.Some? then row.waitingSince else Some(states[m].now))
            && row' == row.(status := row'.status, dueAt := row'.dueAt, waitingSince := row'.waitingSince, lockedAt := None)
  {
    hide Apply, Enabled, Answered;
    AnswerTaken(cfg, states, steps, c, h, i, id, w, Refused(retryable, d));
    AnsweredRun(cfg, states, steps, c, h, i, id, w, Refused(retryable, d));
    ClaimantKept(cfg, states, steps, i, m, w);
    MarkStores(cfg, states, steps, m, w, id);
  }

  /** An acceptance, once stored: SYNCED out of recovery, and SAP's id on the job and on the order. */
  lemma AcceptanceStored(cfg: Config, states: seq<Sys>, steps: seq<Step>, c: nat, h: nat, i: nat, m: nat, id: nat, w: nat, sapId: string)
    requires Answered(cfg, states, steps, c, h, i, id, w, Accepted(sapId))
    requires i < m < |steps| && Idle(steps, i, m, w) && steps[m].Mark? && steps[m].worker == w && steps[m].applied
    ensures id in states[m].db.jobs && id in states[m].db.orders
    ensures Stored(states, m, id, states[m].db.jobs[id].(status := Synced, sapId := Some(sapId), lockedAt := None, waitingSince := None))
    ensures states[m + 1].db.orders == states[m].db.orders[id := states[m].db.orders[id].(sapId := Some(sapId))]
  {
    hide Apply, Enabled, Answered;
    AnswerTaken(cfg, states, steps, c, h, i, id, w, Accepted(sapId));
    AnsweredRun(cfg, states, steps, c, h, i, id, w, Accepted(sapId));
    ClaimantKept(cfg, states, steps, i, m, w);
    MarkStores(cfg, states, steps, m, w, id);
  }

  /** An acceptance whose storing was reported to fail: DEAD at the attempt limit, else PENDING; due the drawn delay after the decision. */
  lemma UnsavedStored(cfg: Config, states: seq<Sys>, steps: seq<Step>, c: nat, h: nat, i: nat, m: nat, n: nat, id: nat, w: nat, sapId: string)
    requires Answered(cfg, states, steps, c, h, i, id, w, Accepted(sapId))
    requires i < m < |steps| && Idle(steps, i, m, w) && steps[m].Mark? && steps[m].worker == w && !steps[m].reported
    requires m < n < |steps| && Idle(steps, m, n, w) && steps[n].Mark? && steps[n].worker == w && steps[n].applied
    ensures id in states[n].db.jobs
    ensures Stored(states, n, id, states[n].db.jobs[id].(
              status := if Number(states, c, id) >= cfg.MaxTotalAttempts() then Dead else Pending,
              dueAt := states[h].now + steps[m].delay, lockedAt := None, waitingSince := None))
  {
    hide Apply, Enabled, Answered;
    AnswerTaken(cfg, states, steps, c, h, i, id, w, Accepted(sapId));
    AnsweredRun(cfg, states, steps, c, h, i, id, w, Accepted(sapId));
    ClaimantKept(cfg, states, steps, i, m, w);
    UnsavedTaken(cfg, states[m], w, steps[m]);
    ClaimantKept(cfg, states, steps, m, n, w);
    MarkStores(cfg, states, steps, n, w, id);
  }

  lemma UnsavedTaken(cfg: Config, s: Sys, w: nat, step: Step)
    requires Enabled(s, step) && step.Mark? && step.worker == w && !step.reported && w in s.claimants && s.claimants[w].phase.Saving?
    ensures var c, s' := s.claimants[w], Apply(cfg, s, step);
            && w in s'.claimants && s'.claimants[w].job == c.job
            && s'.claimants[w].phase == Marking(if c.snapshot.attempts >= cfg.MaxTotalAttempts() then Dead else Pending,
                                                c.phase.decidedAt + step.delay)
  {
    hide MarkSynced;
  }

  // ---------- the end of an attempt ----------

  /** The step ends worker `w`'s attempt: a crash, a mark reported as stored, or its last mark. */
  ghost predicate Ends(s: Sys, step: Step, w: nat) {
    || step == Crash(w)
    || (step.Mark? && step.worker == w && w in s.claimants && (step.reported || s.claimants[w].phase.Marking?))
  }

  lemma EndFrees(cfg: Config, s: Sys, step: Step, w: nat)
    requires Enabled(s, step)
    ensures Ends(s, step, w) ==> w !in Apply(cfg, s, step).claimants
    ensures step == Crash(w) ==> Apply(cfg, s, step) == s.(claimants := Apply(cfg, s, step).claimants)
    ensures w !in s.claimants && !(step.Claim? && step.worker == w) ==> w !in Apply(cfg, s, step).claimants
  {
    hide MarkSynced, MarkFailed, Claimable;
  }

  /** A worker that crashed or finished holds nothing until its next claim; a crash writes nothing. */
  lemma {:induction false} FreeUntilClaim(cfg: Config, states: seq<Sys>, steps: seq<Step>, i: nat, j: nat, w: nat)
    requires IsRun(cfg, states, steps) && i < j < |states| && Ends(states[i], steps[i], w)
    requires forall k :: i < k < j ==> !(steps[k].Claim? && steps[k].worker == w)
    ensures w !in states[j].claimants
    ensures steps[i] == Crash(w) ==> states[i + 1].db == states[i].db && states[i + 1].calls == states[i].calls
    decreases j
  {
    hide Apply, Enabled, Ends;
    if i + 1 < j {
      FreeUntilClaim(cfg, states, steps, i, j - 1, w);
      EndFrees(cfg, states[j - 1], steps[j - 1], w);
    }
    EndFrees(cfg, states[i], steps[i], w);
  }

  // ---------- nothing gets in the way ----------

  /** A due job can be claimed by any free worker, with its items in any order. */
  lemma DueCanBeClaimed(cfg: Config, states: seq<Sys>, steps: seq<Step>, i: nat, id: nat, w: nat, items: seq<Item>)
    requires IsRun(cfg, states, steps) && i < |states| && w !in states[i].claimants
    requires Claimable(states[i].db, states[i].now, id) && multiset(items) == multiset(states[i].db.orders[id].items)
    ensures Enabled(states[i], Claim(w, id, items))
  {
    hide Apply;
    RunKeeps(cfg, states, steps, i);
    var db := states[i].db;
    assert OrderSettled(db.orders[id], FindPayment(db, db.orders[id].orderId), id in db.jobs);
    if db.orders[id].orderId in db.payments {
      assert PaymentSettled(db, db.orders[id].orderId, db.payments[db.orders[id].orderId]);
    }
  }

  /** A claimant can always go on, whatever SAP answers and whatever becomes of its mark. */
  lemma ClaimantCanGoOn(s: Sys, w: nat)
    requires w in s.claimants
    ensures match s.claimants[w].phase
            case Claimed => Enabled(s, Deliver(w))
            case Calling(_) =>
              && (forall sapId: string :: Enabled(s, Respond(w, Accepted(sapId))))
              && (forall retryable: bool, d: int :: 0 <= d <= 60 * SECOND ==> Enabled(s, Respond(w, Refused(retryable, d))))
            case _ =>
              forall applied: bool, reported: bool, d: int :: 0 <= d <= 60 * SECOND ==> Enabled(s, Mark(w, applied, reported, d))
    ensures Enabled(s, Crash(w))
  {
  }

  /** The clock, the webhooks and the operator are never held up. */
  lemma EnvironmentIsFree(s: Sys, elapsed: nat, order: ShopEvent, payment: PaymentEvent, id: nat)
    ensures Enabled(s, Tick(elapsed)) && Enabled(s, Shop(order)) && Enabled(s, Pay(payment)) && Enabled(s, Replay(id))
  {
  }

  /** With unset limits a refused job waits in recovery from the third attempt, for a quarter of an hour, and dies at the fifth. */
  lemma DefaultLimits(cfg: Config, attempts: nat, since: int, now: int, d: int)
    requires cfg.maxAttempts <= 0 && cfg.maxTotalAttempts <= 0 && cfg.recoveryWindowSeconds <= 0 && cfg.reconnectMaxMs <= 0
    ensures FailureState(cfg, attempts, now, true, d) ==
            if attempts <= 2 then Marking(Pending, now + d) else if attempts <= 4 then Marking(Waiting, now + d) else Marking(Dead, now)
    ensures RecoveryWindowExpired(cfg, Some(since), now) <==> now - since >= 15 * 60 * SECOND
    ensures cfg.ReconnectMax() == SECOND
  {
  }

  // ---------- takeovers ----------

  predicate Claims(step: Step, id: nat) {
    step.Claim? && step.job == id
  }

  /** A row is PROCESSING only by a claim, and keeps its lock until the next claim or mark. */
  lemma LockStep(cfg: Config, s: Sys, step: Step, id: nat)
    requires SysInv(cfg, s) && Enabled(s, step) && !Claims(step, id)
    requires id in Apply(cfg, s, step).db.jobs && Apply(cfg, s, step).db.jobs[id].status == Processing
    ensures id in s.db.jobs && s.db.jobs[id] == Apply(cfg, s, step).db.jobs[id]
  {
    hide SysInv, Inv, ShopTx, PaymentTx, DoMark, DoDeliver, DoRespond, Claimable;
    match step {
      case Shop(e) => SysInvDb(cfg, s); ShopTxJobs(s.db, e, s.now, cfg);
      case Pay(e) => SysInvDb(cfg, s); PaymentTxJobs(s.db, e, s.now, cfg);
      case Mark(worker, applied, reported, delay) =>
        MarkTables(cfg, s, worker, applied, reported, delay);
        PendingMark(cfg, s, worker);
      case Claim(_, _, _) =>
      case Replay(_) =>
      case _ => QuietSteps(cfg, s, step);
    }
  }

  lemma PendingMark(cfg: Config, s: Sys, w: nat)
    requires SysInv(cfg, s) && w in s.claimants
    ensures s.claimants[w].phase.Marking? ==> s.claimants[w].phase.status != Processing
  {
    assert ClaimantOk(cfg, s, s.claimants[w]);
  }

  /** A locked row carries the time of its last claim. */
  lemma {:induction false} LockedByLastClaim(cfg: Config, states: seq<Sys>, steps: seq<Step>, i: nat, id: nat) returns (k: nat)
    requires IsRun(cfg, states, steps) && i < |states|
    requires id in states[i].db.jobs && states[i].db.jobs[id].status == Processing
    ensures k < i && Claims(steps[k], id) && states[i].db.jobs[id].lockedAt == Some(states[k].now)
    ensures forall n :: k < n < i ==> !Claims(steps[n], id)
  {
    hide Apply, Enabled, SysInv;
    if Claims(steps[i - 1], id) {
      k := i - 1;
      ClaimTakes(cfg, states, steps, k, id, steps[k].worker);
    } else {
      RunKeeps(cfg, states, steps, i - 1);
      LockStep(cfg, states[i - 1], steps[i - 1], id);
      k := LockedByLastClaim(cfg, states, steps, i - 1, id);
    }
  }

  /** A takeover comes at least two minutes after the claim it takes over. */
  lemma TakeoverWaits(cfg: Config, states: seq<Sys>, steps: seq<Step>, i: nat, id: nat) returns (k: nat)
    requires IsRun(cfg, states, steps) && i < |steps| && Claims(steps[i], id)
    requires id in states[i].db.jobs && states[i].db.jobs[id].status == Processing
    ensures k < i && Claims(steps[k], id) && states[k].now + 120 * SECOND <= states[i].now
    ensures forall n :: k < n < i ==> !Claims(steps[n], id)
  {
    hide Apply, Enabled;
    k := LockedByLastClaim(cfg, states, steps, i, id);
    ClaimTakes(cfg, states, steps, i, id, steps[i].worker);
  }
}
