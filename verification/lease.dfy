/**
 What additionally holds when every claimant finishes within two minutes of its
 claim and every mark that reports an error had no effect.
 */
module Lease {
  import opened Contracts
  import opened Webhooks
  import opened Lifecycle
  import opened Queue
  import opened System
  import opened Invariant
  import opened Attempts

  /** No claimant has outlived its lease. */
  ghost predicate InTime(s: Sys) {
    forall w :: w in s.claimants ==> s.now < s.claimants[w].claimedAt + STALE_AFTER
  }

  predicate HonestMark(step: Step) {
    step.Mark? ==> step.applied == step.reported
  }

  ghost predicate LeaseRun(cfg: Config, states: seq<Sys>, steps: seq<Step>) {
    && IsRun(cfg, states, steps)
    && (forall i :: 0 <= i < |states| ==> InTime(states[i]))
    && (forall i :: 0 <= i < |steps| ==> HonestMark(steps[i]))
  }

  /** The claimant's snapshot is the row, and the row is locked by this claim. */
  ghost predicate Holds(s: Sys, c: Claimant) {
    && c.job in s.db.jobs
    && var j := s.db.jobs[c.job];
       && j.status == Processing && j.lockedAt == Some(c.claimedAt)
       && j.attempts == c.snapshot.attempts && j.waitingSince == c.snapshot.waitingSince
       && c.epoch == EpochOf(s, c.job)
  }

  ghost predicate Exclusive(s: Sys) {
    && (forall w :: w in s.claimants ==> Holds(s, s.claimants[w]))
    && (forall w, w' :: w in s.claimants && w' in s.claimants && w != w' ==> s.claimants[w].job != s.claimants[w'].job)
  }

  lemma ClaimStaysExclusive(s: Sys, worker: nat, job: nat, items: seq<Item>)
    requires Exclusive(s) && InTime(s) && Enabled(s, Claim(worker, job, items))
    ensures Exclusive(DoClaim(s, worker, job, items))
  {
  }

  /** Steps that leave the rows of live claimants alone keep exclusivity for those that remain. */
  lemma UntouchedStaysExclusive(s: Sys, s': Sys)
    requires Exclusive(s)
    requires forall w :: w in s'.claimants ==> w in s.claimants && s'.claimants[w] == s.claimants[w].(phase := s'.claimants[w].phase)
    requires forall w :: w in s'.claimants ==>
               var id := s.claimants[w].job;
               id in s.db.jobs ==> id in s'.db.jobs && s'.db.jobs[id] == s.db.jobs[id] && EpochOf(s', id) == EpochOf(s, id)
    ensures Exclusive(s')
  {
  }

  lemma MarkStaysExclusive(cfg: Config, s: Sys, worker: nat, applied: bool, delay: int)
    requires Exclusive(s) && Enabled(s, Mark(worker, applied, applied, delay))
    ensures Exclusive(DoMark(cfg, s, worker, applied, applied, delay))
  {
  }

  lemma ReplayStaysExclusive(s: Sys, job: nat)
    requires Exclusive(s)
    ensures Exclusive(DoReplay(s, job))
  {
  }

  lemma WebhookStaysExclusive(cfg: Config, s: Sys, db': Db)
    requires Exclusive(s) && JobsOnlyAdded(s.db, db', s.now, cfg)
    ensures Exclusive(s.(db := db'))
  {
  }

  lemma StepStaysExclusive(cfg: Config, s: Sys, step: Step)
    requires Inv(s.db) && Exclusive(s) && InTime(s) && Enabled(s, step) && HonestMark(step)
    ensures Exclusive(Apply(cfg, s, step))
  {
    hide Inv, ShopTx, PaymentTx, Exclusive, DoClaim, DoMark, DoReplay, MarkSynced, MarkFailed;
    match step {
      case Shop(e) =>
        ShopTxJobs(s.db, e, s.now, cfg);
        WebhookStaysExclusive(cfg, s, ShopTx(s.db, e, s.now, cfg));
      case Pay(e) =>
        PaymentTxJobs(s.db, e, s.now, cfg);
        WebhookStaysExclusive(cfg, s, PaymentTx(s.db, e, s.now, cfg));
      case Claim(worker, job, items) => ClaimStaysExclusive(s, worker, job, items);
      case Mark(worker, applied, _, delay) => MarkStaysExclusive(cfg, s, worker, applied, delay);
      case Replay(job) => ReplayStaysExclusive(s, job);
      case _ => UntouchedStaysExclusive(s, Apply(cfg, s, step));
    }
  }

  lemma {:induction false} LeaseRunExclusive(cfg: Config, states: seq<Sys>, steps: seq<Step>, i: nat)
    requires LeaseRun(cfg, states, steps) && i < |states|
    ensures Exclusive(states[i])
  {
    hide Apply, Enabled, Exclusive, SysInv, Inv;
    if i == 0 {
      NobodyIsExclusive(states[0]);
    } else {
      LeaseRunExclusive(cfg, states, steps, i - 1);
      RunKeeps(cfg, states, steps, i - 1);
      SysInvDb(cfg, states[i - 1]);
      StepStaysExclusive(cfg, states[i - 1], steps[i - 1]);
    }
  }

  lemma NobodyIsExclusive(s: Sys)
    requires s.claimants == map[]
    ensures Exclusive(s)
  {
  }

  /** Lease safety: one live claimant per job, and its attempt number and claim time are the row's. */
  lemma LeaseSafety(cfg: Config, states: seq<Sys>, steps: seq<Step>, i: nat, w: nat, w': nat)
    requires LeaseRun(cfg, states, steps) && i < |states|
    requires w in states[i].claimants && w' in states[i].claimants
    ensures w != w' ==> states[i].claimants[w].job != states[i].claimants[w'].job
    ensures var c := states[i].claimants[w];
            && c.job in states[i].db.jobs
            && states[i].db.jobs[c.job].status == Processing
            && states[i].db.jobs[c.job].lockedAt == Some(c.claimedAt)
            && states[i].db.jobs[c.job].attempts == c.snapshot.attempts
  {
    hide Apply, Enabled;
    LeaseRunExclusive(cfg, states, steps, i);
    assert Holds(states[i], states[i].claimants[w]);
  }

  // ---------- how one job row moves ----------

  /** The moves a job row can make in one step under the lease. */
  ghost predicate RowMove(j: Job, j': Job, step: Step, id: nat, now: int) {
    || j' == j
    || (step.Claim? && step.job == id && j'.status == Processing && j'.waitingSince == j.waitingSince
        && (Awaiting(j.status) || j.status == Processing))
    || (step.Mark? && j.status == Processing && j'.status == Synced && j'.waitingSince.None?)
    || (step.Mark? && j.status == Processing && (j'.status == Pending || j'.status == Dead) && j'.waitingSince.None?)
    || (step.Mark? && j.status == Processing && j'.status == Waiting
        && j'.waitingSince == (if j.waitingSince.Some? then j.waitingSince else Some(now)))
    || (step == Replay(id) && j.status == Dead && j'.status == Pending && j'.waitingSince.None?)
  }

  lemma MarkMoves(cfg: Config, s: Sys, worker: nat, applied: bool, delay: int, id: nat)
    requires SysInv(cfg, s) && Exclusive(s) && Enabled(s, Mark(worker, applied, applied, delay)) && id in s.db.jobs
    ensures id in DoMark(cfg, s, worker, applied, applied, delay).db.jobs
    ensures RowMove(s.db.jobs[id], DoMark(cfg, s, worker, applied, applied, delay).db.jobs[id], Mark(worker, applied, applied, delay), id, s.now)
  {
    hide Inv, CallsOk, JobsHeld, TokensDistinct, DoMark;
    MarkTables(cfg, s, worker, applied, applied, delay);
    assert ClaimantOk(cfg, s, s.claimants[worker]);
    assert Holds(s, s.claimants[worker]);
  }

  lemma ClaimMoves(s: Sys, worker: nat, job: nat, items: seq<Item>, id: nat)
    requires Enabled(s, Claim(worker, job, items)) && id in s.db.jobs
    ensures id in DoClaim(s, worker, job, items).db.jobs
    ensures RowMove(s.db.jobs[id], DoClaim(s, worker, job, items).db.jobs[id], Claim(worker, job, items), id, s.now)
  {
  }

  lemma ReplayMoves(s: Sys, job: nat, id: nat)
    requires id in s.db.jobs
    ensures id in DoReplay(s, job).db.jobs
    ensures RowMove(s.db.jobs[id], DoReplay(s, job).db.jobs[id], Replay(job), id, s.now)
  {
  }

  lemma StepMoves(cfg: Config, s: Sys, step: Step, id: nat)
    requires SysInv(cfg, s) && Exclusive(s) && Enabled(s, step) && HonestMark(step) && id in s.db.jobs
    ensures id in Apply(cfg, s, step).db.jobs
    ensures RowMove(s.db.jobs[id], Apply(cfg, s, step).db.jobs[id], step, id, s.now)
  {
    hide SysInv, Inv, ShopTx, PaymentTx, DoMark, DoDeliver, DoRespond, DoClaim, DoReplay, Exclusive, Claimable;
    match step {
      case Shop(e) => SysInvDb(cfg, s); ShopTxJobs(s.db, e, s.now, cfg);
      case Pay(e) => SysInvDb(cfg, s); PaymentTxJobs(s.db, e, s.now, cfg);
      case Mark(worker, applied, _, delay) => MarkMoves(cfg, s, worker, applied, delay, id);
      case Claim(worker, job, items) => ClaimMoves(s, worker, job, items, id);
      case Replay(job) => ReplayMoves(s, job, id);
      case _ => QuietSteps(cfg, s, step);
    }
  }

  lemma RunMoves(cfg: Config, states: seq<Sys>, steps: seq<Step>, i: nat, id: nat)
    requires LeaseRun(cfg, states, steps) && i < |steps| && id in states[i].db.jobs
    ensures id in states[i + 1].db.jobs
    ensures RowMove(states[i].db.jobs[id], states[i + 1].db.jobs[id], steps[i], id, states[i].now)
  {
    hide Apply, Enabled, SysInv, Exclusive, RowMove;
    RunKeeps(cfg, states, steps, i);
    LeaseRunExclusive(cfg, states, steps, i);
    StepMoves(cfg, states[i], steps[i], id);
  }

  /** SYNCED is absorbing: the row never changes again. */
  lemma {:induction false} SyncedIsAbsorbing(cfg: Config, states: seq<Sys>, steps: seq<Step>, i: nat, j: nat, id: nat)
    requires LeaseRun(cfg, states, steps) && i <= j < |states|
    requires id in states[i].db.jobs && states[i].db.jobs[id].status == Synced
    ensures id in states[j].db.jobs && states[j].db.jobs[id] == states[i].db.jobs[id]
    decreases j
  {
    hide Apply, Enabled;
    if i < j {
      SyncedIsAbsorbing(cfg, states, steps, i, j - 1, id);
      RunMoves(cfg, states, steps, j - 1, id);
    }
  }

  /** DEAD is left only by the operator's replay. */
  lemma DeadLeftByReplayOnly(cfg: Config, states: seq<Sys>, steps: seq<Step>, i: nat, id: nat)
    requires LeaseRun(cfg, states, steps) && i < |steps|
    requires id in states[i].db.jobs && states[i].db.jobs[id].status == Dead
    ensures id in states[i + 1].db.jobs
    ensures states[i + 1].db.jobs[id] != states[i].db.jobs[id] ==> steps[i] == Replay(id)
  {
    hide Apply, Enabled;
    RunMoves(cfg, states, steps, i, id);
  }

  // ---------- attempt limits and back-off ----------

  ghost predicate LimitsOk(cfg: Config, s: Sys) {
    forall id :: id in s.db.jobs ==> WithinLimits(cfg, s.db.jobs[id].status, s.db.jobs[id].attempts)
  }

  lemma MarkKeepsLimits(cfg: Config, s: Sys, worker: nat, applied: bool, delay: int)
    requires SysInv(cfg, s) && Exclusive(s) && LimitsOk(cfg, s) && Enabled(s, Mark(worker, applied, applied, delay))
    ensures LimitsOk(cfg, DoMark(cfg, s, worker, applied, applied, delay))
  {
    hide Inv, CallsOk, JobsHeld, TokensDistinct, DoMark;
    MarkTables(cfg, s, worker, applied, applied, delay);
    assert ClaimantOk(cfg, s, s.claimants[worker]);
    assert Holds(s, s.claimants[worker]);
  }

  lemma WebhookKeepsLimits(cfg: Config, s: Sys, db': Db)
    requires LimitsOk(cfg, s) && JobsOnlyAdded(s.db, db', s.now, cfg)
    ensures LimitsOk(cfg, s.(db := db'))
  {
  }

  lemma StepKeepsLimits(cfg: Config, s: Sys, step: Step)
    requires SysInv(cfg, s) && Exclusive(s) && LimitsOk(cfg, s) && Enabled(s, step) && HonestMark(step)
    ensures LimitsOk(cfg, Apply(cfg, s, step))
  {
    hide SysInv, Inv, Exclusive, ShopTx, PaymentTx, DoMark, DoDeliver, DoRespond, Claimable;
    match step {
      case Shop(e) =>
        SysInvDb(cfg, s);
        ShopTxJobs(s.db, e, s.now, cfg);
        WebhookKeepsLimits(cfg, s, ShopTx(s.db, e, s.now, cfg));
      case Pay(e) =>
        SysInvDb(cfg, s);
        PaymentTxJobs(s.db, e, s.now, cfg);
        WebhookKeepsLimits(cfg, s, PaymentTx(s.db, e, s.now, cfg));
      case Mark(worker, applied, _, delay) => MarkKeepsLimits(cfg, s, worker, applied, delay);
      case Claim(_, _, _) =>
      case Replay(_) =>
      case _ => QuietSteps(cfg, s, step);
    }
  }

  /**
   A job that awaits another attempt has attempts left: one at the hard limit is
   never PENDING or WAITING, and WAITING means that at least the configured
   number of attempts was made before.
   */
  lemma {:induction false} LimitsRespected(cfg: Config, states: seq<Sys>, steps: seq<Step>, i: nat)
    requires LeaseRun(cfg, states, steps) && i < |states|
    ensures LimitsOk(cfg, states[i])
  {
    hide Apply, Enabled, SysInv, Exclusive;
    if i > 0 {
      LimitsRespected(cfg, states, steps, i - 1);
      RunKeeps(cfg, states, steps, i - 1);
      LeaseRunExclusive(cfg, states, steps, i - 1);
      StepKeepsLimits(cfg, states[i - 1], steps[i - 1]);
    }
  }

  /** A job that awaits its next attempt stays as it is until it is claimed. */
  lemma {:induction false} AwaitingUntilClaimed(cfg: Config, states: seq<Sys>, steps: seq<Step>, i: nat, j: nat, id: nat)
    requires LeaseRun(cfg, states, steps) && i <= j < |states|
    requires id in states[i].db.jobs && Awaiting(states[i].db.jobs[id].status)
    requires forall k :: i <= k < j ==> !Claims(steps[k], id)
    ensures id in states[j].db.jobs && states[j].db.jobs[id] == states[i].db.jobs[id]
    decreases j
  {
    hide Apply, Enabled;
    if i < j {
      AwaitingUntilClaimed(cfg, states, steps, i, j - 1, id);
      RunMoves(cfg, states, steps, j - 1, id);
      assert !Claims(steps[j - 1], id);
    }
  }

  /**
   Back-off is honoured: after a failed attempt was stored as PENDING or WAITING
   with a due time, the job's next claim does not happen before that time.
   */
  lemma RetryWaitsForDueTime(cfg: Config, states: seq<Sys>, steps: seq<Step>, m: nat, j: nat, id: nat)
    requires LeaseRun(cfg, states, steps) && m < j < |steps|
    requires steps[m].Mark? && steps[m].applied && steps[m].worker in states[m].claimants
    requires var c := states[m].claimants[steps[m].worker];
             c.job == id && c.phase.Marking? && Awaiting(c.phase.status)
    requires Claims(steps[j], id) && forall k :: m < k < j ==> !Claims(steps[k], id)
    ensures states[j].now >= states[m].claimants[steps[m].worker].phase.dueAt
  {
    hide SysInv, Exclusive, DoMark;
    var s, c := states[m], states[m].claimants[steps[m].worker];
    LeaseRunExclusive(cfg, states, steps, m);
    HeldRow(s, steps[m].worker);
    MarkTables(cfg, s, steps[m].worker, steps[m].applied, steps[m].reported, steps[m].delay);
    assert states[m + 1].db == MarkFailed(s.db, id, c.phase.status, c.phase.dueAt, s.now);
    AwaitingUntilClaimed(cfg, states, steps, m + 1, j, id);
    assert Enabled(states[j], steps[j]);
  }

  /** The steps with which a worker that waits to store a failure lets go of its job. */
  predicate LetsGo(step: Step, w: nat) {
    (step.Mark? || step.Crash?) && step.worker == w
  }

  /** Such a worker stays as it is until it does. */
  lemma {:induction false} MarkingUntilLetGo(cfg: Config, states: seq<Sys>, steps: seq<Step>, i: nat, m: nat, w: nat)
    requires IsRun(cfg, states, steps) && i <= m < |states|
    requires w in states[i].claimants && states[i].claimants[w].phase.Marking?
    requires forall k :: i <= k < m ==> !LetsGo(steps[k], w)
    ensures w in states[m].claimants && states[m].claimants[w] == states[i].claimants[w]
    decreases m
  {
    hide Apply, Enabled;
    if i < m {
      MarkingUntilLetGo(cfg, states, steps, i, m - 1, w);
      assert !LetsGo(steps[m - 1], w);
      OthersLeaveMarking(cfg, states[m - 1], steps[m - 1], w);
    }
  }

  lemma OthersLeaveMarking(cfg: Config, s: Sys, step: Step, w: nat)
    requires Enabled(s, step) && w in s.claimants && s.claimants[w].phase.Marking? && !LetsGo(step, w)
    ensures w in Apply(cfg, s, step).claimants && Apply(cfg, s, step).claimants[w] == s.claimants[w]
  {
  }

  /**
   From answer to next claim: a retryable refusal with attempts left, drawn delay
   `d` and a stored mark keeps the job unclaimed until the decision time plus `d`.
   */
  lemma RetrySpacing(cfg: Config, states: seq<Sys>, steps: seq<Step>, i: nat, m: nat, j: nat, w: nat, d: int)
    requires LeaseRun(cfg, states, steps) && i < m < j < |steps|
    requires steps[i] == Respond(w, Refused(true, d)) && w in states[i].claimants && states[i].claimants[w].phase.Calling?
    requires states[i].claimants[w].snapshot.attempts < cfg.MaxTotalAttempts()
    requires steps[m].Mark? && steps[m].worker == w && steps[m].applied
    requires forall k :: i < k < m ==> !LetsGo(steps[k], w)
    requires Claims(steps[j], states[i].claimants[w].job)
    requires forall k :: m < k < j ==> !Claims(steps[k], states[i].claimants[w].job)
    ensures states[j].now >= states[i].claimants[w].phase.decidedAt + d
  {
    hide DoMark, DoClaim, Claimable, ShopTx, PaymentTx;
    assert states[i + 1] == Apply(cfg, states[i], steps[i]);
    MarkingUntilLetGo(cfg, states, steps, i + 1, m, w);
    RetryWaitsForDueTime(cfg, states, steps, m, j, states[i].claimants[w].job);
  }

  lemma HeldRow(s: Sys, w: nat)
    requires Exclusive(s) && w in s.claimants
    ensures s.claimants[w].job in s.db.jobs
  {
  }

  // ---------- the recovery window ----------

  predicate Recovering(j: Job) {
    j.status == Waiting || j.status == Processing
  }

  /** The job has not left recovery between the two points of the run. */
  ghost predicate RecoveringThroughout(states: seq<Sys>, i: nat, j: nat, id: nat)
    requires i <= j < |states|
  {
    forall k :: i <= k <= j ==> id in states[k].db.jobs && Recovering(states[k].db.jobs[id])
  }

  /** `waiting_since` is constant through claims, takeovers and further WAITING marks. */
  lemma {:induction false} WaitingSinceConstant(cfg: Config, states: seq<Sys>, steps: seq<Step>, i: nat, j: nat, id: nat)
    requires LeaseRun(cfg, states, steps) && i <= j < |states| && RecoveringThroughout(states, i, j, id)
    requires states[i].db.jobs[id].waitingSince.Some?
    ensures states[j].db.jobs[id].waitingSince == states[i].db.jobs[id].waitingSince
    decreases j
  {
    hide Apply, Enabled;
    if i < j {
      WaitingSinceConstant(cfg, states, steps, i, j - 1, id);
      RunMoves(cfg, states, steps, j - 1, id);
    }
  }

  /**
   How a recovery starts and ends: the first WAITING mark stamps the instant of
   the mark; the stamp is then dropped only on the way to PENDING, SYNCED or DEAD.
   */
  lemma RecoveryStartsAndEnds(cfg: Config, states: seq<Sys>, steps: seq<Step>, i: nat, id: nat)
    requires LeaseRun(cfg, states, steps) && i < |steps| && id in states[i].db.jobs
    ensures id in states[i + 1].db.jobs
    ensures var j, j' := states[i].db.jobs[id], states[i + 1].db.jobs[id];
            && (j.waitingSince.None? && j'.waitingSince.Some? ==> j'.status == Waiting && j'.waitingSince == Some(states[i].now))
            && (j.waitingSince.Some? && j'.waitingSince != j.waitingSince ==>
                  j'.waitingSince.None? && (j'.status == Pending || j'.status == Synced || j'.status == Dead))
  {
    hide Apply, Enabled;
    RunMoves(cfg, states, steps, i, id);
  }

  /** What one step adds to the call log: at most one call, made now by a live claimant. */
  lemma StepCalls(cfg: Config, s: Sys, step: Step)
    requires Enabled(s, step)
    ensures var s' := Apply(cfg, s, step);
            || s'.calls == s.calls
            || exists w :: w in s.claimants && s'.calls == s.calls +
                 [Call(s.claimants[w].job, s.claimants[w].epoch, s.claimants[w].snapshot.attempts, s.now,
                       s.claimants[w].snapshot.waitingSince, s.claimants[w].snapshot.details)]
  {
  }

  lemma {:induction false} CallsOnlyGrow(cfg: Config, states: seq<Sys>, steps: seq<Step>, i: nat, j: nat)
    requires IsRun(cfg, states, steps) && i <= j < |states|
    ensures states[i].calls <= states[j].calls
    decreases j
  {
    hide Apply, Enabled;
    if i < j {
      CallsOnlyGrow(cfg, states, steps, i, j - 1);
      StepCalls(cfg, states[j - 1], steps[j - 1]);
    }
  }

  /**
   Recovery window: while the job stays in recovery, every call made for it
   starts strictly before `waiting_since` plus the window.
   */
  lemma {:induction false} CallsInsideWindow(cfg: Config, states: seq<Sys>, steps: seq<Step>, i: nat, j: nat, id: nat, k: nat)
    requires LeaseRun(cfg, states, steps) && i <= j < |states| && RecoveringThroughout(states, i, j, id)
    requires states[i].db.jobs[id].waitingSince.Some?
    requires |states[i].calls| <= k < |states[j].calls| && states[j].calls[k].job == id
    ensures states[j].calls[k].at < states[i].db.jobs[id].waitingSince.value + cfg.RecoveryWindow()
    decreases j
  {
    hide Apply, Enabled, Inv;
    CallsOnlyGrow(cfg, states, steps, j - 1, j);
    StepCalls(cfg, states[j - 1], steps[j - 1]);
    if k < |states[j - 1].calls| {
      CallsInsideWindow(cfg, states, steps, i, j - 1, id, k);
    } else {
      LatestCallInside(cfg, states, steps, i, j, id);
    }
  }

  lemma LatestCallInside(cfg: Config, states: seq<Sys>, steps: seq<Step>, i: nat, j: nat, id: nat)
    requires LeaseRun(cfg, states, steps) && i < j < |states| && RecoveringThroughout(states, i, j, id)
    requires states[i].db.jobs[id].waitingSince.Some?
    requires |states[j - 1].calls| < |states[j].calls| && states[j].calls[|states[j - 1].calls|].job == id
    ensures states[j].calls[|states[j - 1].calls|].at < states[i].db.jobs[id].waitingSince.value + cfg.RecoveryWindow()
  {
    hide Apply, Enabled, Inv;
    var s, s' := states[j - 1], states[j];
    StepCalls(cfg, s, steps[j - 1]);
    LeaseRunExclusive(cfg, states, steps, j - 1);
    WaitingSinceConstant(cfg, states, steps, i, j - 1, id);
    RunKeeps(cfg, states, steps, j);
    var w :| w in s.claimants && s'.calls[|s.calls|].job == s.claimants[w].job
             && s'.calls[|s.calls|].waitingSince == s.claimants[w].snapshot.waitingSince;
    assert Holds(s, s.claimants[w]);
    assert CallOk(cfg, s', s'.calls[|s.calls|]);
  }
}
