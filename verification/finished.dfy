/**
 SYNCED and DEAD without any lease. Marks are guarded by the job id alone, so a
 claimant that outlived its claim can still undo a finished row; here is exactly
 when that is possible.
 */
module Finished {
  import opened Contracts
  import opened Webhooks
  import opened Lifecycle
  import opened Queue
  import opened System
  import opened Invariant

  predicate IsFinished(status: SyncStatus) {
    status == Synced || status == Dead
  }

  // ---------- one step ----------

  /** The status that a claimant's pending mark stores. */
  function MarkedStatus(phase: Phase): SyncStatus {
    if phase.Marking? then phase.status else Synced
  }

  /** Step `step` stores the mark of a claimant of this job. */
  predicate MarksJob(s: Sys, step: Step, id: nat) {
    step.Mark? && step.applied && step.worker in s.claimants && s.claimants[step.worker].job == id
  }

  /**
   A finished row is written only by a replay of a DEAD job or by a claimant that
   is still alive, and its status changes exactly when such a write stores another one.
   */
  lemma FinishedRowChangesExactly(cfg: Config, s: Sys, step: Step, id: nat)
    requires SysInv(cfg, s) && Enabled(s, step) && id in s.db.jobs && IsFinished(s.db.jobs[id].status)
    ensures id in Apply(cfg, s, step).db.jobs
    ensures Apply(cfg, s, step).db.jobs[id] != s.db.jobs[id] ==>
              (step == Replay(id) && s.db.jobs[id].status == Dead) || MarksJob(s, step, id)
    ensures Apply(cfg, s, step).db.jobs[id].status != s.db.jobs[id].status
       <==> || (step == Replay(id) && s.db.jobs[id].status == Dead)
            || (MarksJob(s, step, id) && MarkedStatus(s.claimants[step.worker].phase) != s.db.jobs[id].status)
  {
    hide SysInv, Inv, Apply, Enabled, DoMark;
    match step {
      case Mark(worker, applied, reported, delay) => MarkStores(cfg, s, worker, applied, reported, delay, id);
      case Replay(job) => ReplayStores(s, job, id);
      case _ => OtherStepsKeepFinished(cfg, s, step, id);
    }
    ApplyMark(cfg, s, step);
  }

  lemma ApplyMark(cfg: Config, s: Sys, step: Step)
    requires Enabled(s, step)
    ensures step.Mark? ==>
              step.worker in s.claimants && Apply(cfg, s, step) == DoMark(cfg, s, step.worker, step.applied, step.reported, step.delay)
    ensures step.Replay? ==> Apply(cfg, s, step) == DoReplay(s, step.job)
  {
  }

  lemma ReplayStores(s: Sys, job: nat, id: nat)
    requires id in s.db.jobs
    ensures id in DoReplay(s, job).db.jobs
    ensures if job == id && s.db.jobs[id].status == Dead then DoReplay(s, job).db.jobs[id].status == Pending
            else DoReplay(s, job).db.jobs[id] == s.db.jobs[id]
  {
  }

  lemma OtherStepsKeepFinished(cfg: Config, s: Sys, step: Step, id: nat)
    requires SysInv(cfg, s) && Enabled(s, step) && !step.Mark? && !step.Replay?
    requires id in s.db.jobs && IsFinished(s.db.jobs[id].status)
    ensures id in Apply(cfg, s, step).db.jobs && Apply(cfg, s, step).db.jobs[id] == s.db.jobs[id]
  {
    hide SysInv, Inv, ShopTx, PaymentTx, DoMark, DoDeliver, DoRespond;
    match step {
      case Shop(e) => SysInvDb(cfg, s); ShopTxJobs(s.db, e, s.now, cfg);
      case Pay(e) => SysInvDb(cfg, s); PaymentTxJobs(s.db, e, s.now, cfg);
      case Claim(worker, job, items) =>
      case _ => QuietSteps(cfg, s, step);
    }
  }

  lemma MarkStores(cfg: Config, s: Sys, worker: nat, applied: bool, reported: bool, delay: int, id: nat)
    requires Enabled(s, Mark(worker, applied, reported, delay)) && id in s.db.jobs
    ensures id in DoMark(cfg, s, worker, applied, reported, delay).db.jobs
    ensures if applied && s.claimants[worker].job == id
            then DoMark(cfg, s, worker, applied, reported, delay).db.jobs[id].status == MarkedStatus(s.claimants[worker].phase)
            else DoMark(cfg, s, worker, applied, reported, delay).db.jobs[id] == s.db.jobs[id]
  {
    hide DoMark;
    MarkTables(cfg, s, worker, applied, reported, delay);
  }

  // ---------- a row that nobody holds ----------

  ghost predicate Unclaimed(s: Sys, id: nat) {
    forall w :: w in s.claimants ==> s.claimants[w].job != id
  }

  /** Nobody but a new claim comes to hold a job, and a claim takes no finished one. */
  lemma StepClaimants(cfg: Config, s: Sys, step: Step, w: nat)
    requires Enabled(s, step) && w in Apply(cfg, s, step).claimants
    ensures var c' := Apply(cfg, s, step).claimants[w];
            || (w in s.claimants && s.claimants[w].(phase := c'.phase) == c')
            || (step.Claim? && step.job == c'.job && Claimable(s.db, s.now, c'.job))
  {
    hide Claimable;
  }

  lemma StaysUnclaimed(cfg: Config, s: Sys, step: Step, id: nat)
    requires Enabled(s, step) && id in s.db.jobs && IsFinished(s.db.jobs[id].status) && Unclaimed(s, id)
    ensures Unclaimed(Apply(cfg, s, step), id)
  {
    hide Enabled, Apply;
    var s' := Apply(cfg, s, step);
    forall w | w in s'.claimants ensures s'.claimants[w].job != id {
      StepClaimants(cfg, s, step, w);
    }
  }

  /** A SYNCED row without a live claimant never changes again; a DEAD one only by a replay. */
  lemma {:induction false} UnclaimedNeverChanges(cfg: Config, states: seq<Sys>, steps: seq<Step>, i: nat, j: nat, id: nat)
    requires IsRun(cfg, states, steps) && i <= j < |states|
    requires id in states[i].db.jobs && IsFinished(states[i].db.jobs[id].status) && Unclaimed(states[i], id)
    requires states[i].db.jobs[id].status == Dead ==> forall k :: i <= k < j ==> steps[k] != Replay(id)
    ensures id in states[j].db.jobs && states[j].db.jobs[id] == states[i].db.jobs[id] && Unclaimed(states[j], id)
    decreases j
  {
    hide Apply, Enabled, SysInv, Unclaimed;
    if i < j {
      UnclaimedNeverChanges(cfg, states, steps, i, j - 1, id);
      RunKeeps(cfg, states, steps, j - 1);
      FinishedRowChangesExactly(cfg, states[j - 1], steps[j - 1], id);
      StaysUnclaimed(cfg, states[j - 1], steps[j - 1], id);
      NobodyMarks(states[j - 1], steps[j - 1], id);
    }
  }

  lemma NobodyMarks(s: Sys, step: Step, id: nat)
    requires Unclaimed(s, id)
    ensures !MarksJob(s, step, id)
  {
  }

  // ---------- when a finished status is final ----------

  /**
   The claimant can still store another status than `status`: any claimant over
   SYNCED; over DEAD, one that calls or may call SAP, or has another mark to store.
   */
  predicate MayUndo(cfg: Config, c: Claimant, now: int, status: SyncStatus) {
    || status == Synced
    || match c.phase
       case Claimed => Decide(cfg, c.snapshot.status, c.snapshot.attempts, c.snapshot.waitingSince, now) == Some(Calling(now))
       case Calling(_) => true
       case Saving(_, _) => true
       case Marking(pending, _) => pending != Dead
  }

  ghost predicate Final(cfg: Config, s: Sys, id: nat) {
    && id in s.db.jobs && IsFinished(s.db.jobs[id].status)
    && forall w :: w in s.claimants && s.claimants[w].job == id ==> !MayUndo(cfg, s.claimants[w], s.now, s.db.jobs[id].status)
  }

  /** A claimant that cannot undo DEAD does not come to be able to. */
  lemma StaysHarmless(cfg: Config, s: Sys, step: Step, w: nat)
    requires Enabled(s, step) && w in Apply(cfg, s, step).claimants && w in s.claimants
    requires !MayUndo(cfg, s.claimants[w], s.now, Dead)
    ensures !MayUndo(cfg, Apply(cfg, s, step).claimants[w], Apply(cfg, s, step).now, Dead)
  {
  }

  /** What it still has to store over DEAD is DEAD. */
  lemma HarmlessMark(cfg: Config, s: Sys, step: Step, id: nat)
    requires Enabled(s, step) && Final(cfg, s, id) && MarksJob(s, step, id)
    ensures MarkedStatus(s.claimants[step.worker].phase) == s.db.jobs[id].status
  {
  }

  lemma StaysFinal(cfg: Config, s: Sys, step: Step, id: nat)
    requires SysInv(cfg, s) && Enabled(s, step) && Final(cfg, s, id) && step != Replay(id)
    ensures Final(cfg, Apply(cfg, s, step), id) && Apply(cfg, s, step).db.jobs[id].status == s.db.jobs[id].status
  {
    hide SysInv, Apply, Enabled;
    FinishedRowChangesExactly(cfg, s, step, id);
    if MarksJob(s, step, id) {
      HarmlessMark(cfg, s, step, id);
    }
    var s' := Apply(cfg, s, step);
    forall w | w in s'.claimants && s'.claimants[w].job == id
      ensures !MayUndo(cfg, s'.claimants[w], s'.now, s.db.jobs[id].status)
    {
      StepClaimants(cfg, s, step, w);
      StaysHarmless(cfg, s, step, w);
    }
  }

  /** The run `states'`, `steps'` continues the run `states`, `steps` without a replay of this job. */
  ghost predicate Continues(cfg: Config, states: seq<Sys>, steps: seq<Step>, states': seq<Sys>, steps': seq<Step>, id: nat) {
    && IsRun(cfg, states', steps') && |states| == |steps| + 1 && states <= states' && steps <= steps'
    && forall k :: |steps| <= k < |steps'| ==> steps'[k] != Replay(id)
  }

  predicate HasStatus(s: Sys, id: nat, status: SyncStatus) {
    id in s.db.jobs && s.db.jobs[id].status == status
  }

  lemma {:induction false} FinalThroughout(cfg: Config, states: seq<Sys>, steps: seq<Step>, i: nat, j: nat, id: nat)
    requires IsRun(cfg, states, steps) && i <= j < |states| && Final(cfg, states[i], id)
    requires forall k :: i <= k < j ==> steps[k] != Replay(id)
    ensures Final(cfg, states[j], id) && states[j].db.jobs[id].status == states[i].db.jobs[id].status
    decreases j
  {
    hide Apply, Enabled, SysInv;
    if i < j {
      FinalThroughout(cfg, states, steps, i, j - 1, id);
      RunKeeps(cfg, states, steps, j - 1);
      StaysFinal(cfg, states[j - 1], steps[j - 1], id);
    }
  }

  lemma Extend(cfg: Config, states: seq<Sys>, steps: seq<Step>, step: Step, id: nat) returns (states': seq<Sys>, steps': seq<Step>)
    requires IsRun(cfg, states, steps) && Enabled(states[|steps|], step) && step != Replay(id)
    ensures Continues(cfg, states, steps, states', steps', id)
    ensures |steps'| == |steps| + 1 && states'[|steps'|] == Apply(cfg, states[|steps|], step)
  {
    hide Apply, Enabled;
    states', steps' := states + [Apply(cfg, states[|steps|], step)], steps + [step];
  }

  lemma ContinuesTransitive(cfg: Config, a: seq<Sys>, x: seq<Step>, b: seq<Sys>, y: seq<Step>, c: seq<Sys>, z: seq<Step>, id: nat)
    requires Continues(cfg, a, x, b, y, id) && Continues(cfg, b, y, c, z, id)
    ensures Continues(cfg, a, x, c, z, id)
  {
    hide IsRun;
  }

  /** The claimant's next step on its way to undoing the row. */
  function UndoStep(w: nat, c: Claimant, status: SyncStatus): Step {
    match c.phase
    case Claimed => Deliver(w)
    case Calling(_) => Respond(w, if status == Synced then Refused(false, 0) else Accepted(""))
    case Saving(_, _) => Mark(w, status == Dead, status == Dead, 0)
    case Marking(_, _) => Mark(w, true, true, 0)
  }

  /** How many such steps it needs at most. */
  function UndoSteps(c: Claimant, status: SyncStatus): nat {
    match c.phase
    case Claimed => 3
    case Calling(_) => 2
    case Saving(_, _) => if status == Synced then 2 else 1
    case Marking(_, _) => 1
  }

  /** The status has changed, or the claimant is closer to changing it. */
  ghost predicate Nearer(cfg: Config, s: Sys, s': Sys, w: nat)
    requires w in s.claimants && s.claimants[w].job in s.db.jobs
  {
    var c := s.claimants[w];
    var status := s.db.jobs[c.job].status;
    && c.job in s'.db.jobs
    && (s'.db.jobs[c.job].status == status ==>
          && w in s'.claimants && s'.claimants[w].job == c.job
          && MayUndo(cfg, s'.claimants[w], s'.now, status)
          && UndoSteps(s'.claimants[w], status) < UndoSteps(c, status))
  }

  lemma MarkIsNearer(cfg: Config, s: Sys, w: nat)
    requires SysInv(cfg, s) && w in s.claimants && (s.claimants[w].phase.Saving? || s.claimants[w].phase.Marking?)
    requires var id := s.claimants[w].job;
             id in s.db.jobs && IsFinished(s.db.jobs[id].status) && MayUndo(cfg, s.claimants[w], s.now, s.db.jobs[id].status)
    ensures var step := UndoStep(w, s.claimants[w], s.db.jobs[s.claimants[w].job].status);
            Enabled(s, step) && Nearer(cfg, s, DoMark(cfg, s, w, step.applied, step.reported, step.delay), w)
  {
    hide Inv, CallsOk, JobsHeld, TokensDistinct, DoMark;
    var c := s.claimants[w];
    assert ClaimantOk(cfg, s, c);
    var step := UndoStep(w, c, s.db.jobs[c.job].status);
    MarkStores(cfg, s, w, step.applied, step.reported, step.delay, c.job);
    if c.phase.Saving? {
      UnsavedTurnsToFailure(cfg, s, w, step.applied, step.delay);
    }
  }

  lemma UnsavedTurnsToFailure(cfg: Config, s: Sys, w: nat, applied: bool, delay: int)
    requires w in s.claimants && s.claimants[w].phase.Saving?
    ensures var s' := DoMark(cfg, s, w, applied, false, delay);
            && w in s'.claimants && s'.claimants[w].job == s.claimants[w].job
            && s'.claimants[w].phase.Marking? && s'.now == s.now
  {
  }

  lemma DeliverIsNearer(cfg: Config, s: Sys, w: nat)
    requires SysInv(cfg, s) && w in s.claimants && s.claimants[w].phase.Claimed?
    requires s.claimants[w].job in s.db.jobs
    requires MayUndo(cfg, s.claimants[w], s.now, s.db.jobs[s.claimants[w].job].status)
    ensures Nearer(cfg, s, DoDeliver(cfg, s, w), w)
  {
    hide Inv, CallsOk, JobsHeld, TokensDistinct;
    assert ClaimantOk(cfg, s, s.claimants[w]);
  }

  /** Each of these steps is enabled and either changes the status or comes closer to it. */
  lemma UndoStepWorks(cfg: Config, s: Sys, w: nat)
    requires SysInv(cfg, s) && w in s.claimants
    requires var id := s.claimants[w].job;
             id in s.db.jobs && IsFinished(s.db.jobs[id].status) && MayUndo(cfg, s.claimants[w], s.now, s.db.jobs[id].status)
    ensures var step := UndoStep(w, s.claimants[w], s.db.jobs[s.claimants[w].job].status);
            Enabled(s, step) && Nearer(cfg, s, Apply(cfg, s, step), w)
  {
    hide SysInv, DoMark, DoDeliver;
    match s.claimants[w].phase {
      case Claimed => DeliverIsNearer(cfg, s, w);
      case Calling(_) =>
      case _ => MarkIsNearer(cfg, s, w);
    }
  }

  /** A claimant that may undo the row does so in a continuation of at most three steps. */
  lemma {:induction false} Undone(cfg: Config, states: seq<Sys>, steps: seq<Step>, id: nat, w: nat)
    returns (states': seq<Sys>, steps': seq<Step>)
    requires IsRun(cfg, states, steps) && w in states[|steps|].claimants && states[|steps|].claimants[w].job == id
    requires id in states[|steps|].db.jobs && IsFinished(states[|steps|].db.jobs[id].status)
    requires MayUndo(cfg, states[|steps|].claimants[w], states[|steps|].now, states[|steps|].db.jobs[id].status)
    ensures Continues(cfg, states, steps, states', steps', id)
    ensures |steps'| <= |steps| + UndoSteps(states[|steps|].claimants[w], states[|steps|].db.jobs[id].status)
    ensures id in states'[|steps'|].db.jobs && states'[|steps'|].db.jobs[id].status != states[|steps|].db.jobs[id].status
    decreases UndoSteps(states[|steps|].claimants[w], states[|steps|].db.jobs[id].status)
  {
    hide Apply, Enabled, SysInv, MayUndo;
    var s := states[|steps|];
    RunKeeps(cfg, states, steps, |steps|);
    UndoStepWorks(cfg, s, w);
    var states1, steps1 := Extend(cfg, states, steps, UndoStep(w, s.claimants[w], s.db.jobs[id].status), id);
    if states1[|steps1|].db.jobs[id].status != s.db.jobs[id].status {
      return states1, steps1;
    }
    states', steps' := Undone(cfg, states1, steps1, id, w);
    ContinuesTransitive(cfg, states, steps, states1, steps1, states', steps', id);
  }

  /**
   A finished status outlasts every continuation of the run in which the operator
   does not replay the job, if and only if no live claimant of it may undo it. For
   SYNCED that means: no live claimant at all.
   */
  lemma FinishedForGood(cfg: Config, states: seq<Sys>, steps: seq<Step>, id: nat)
    requires IsRun(cfg, states, steps)
    requires id in states[|steps|].db.jobs && IsFinished(states[|steps|].db.jobs[id].status)
    ensures (forall states', steps' :: Continues(cfg, states, steps, states', steps', id) ==>
               HasStatus(states'[|steps'|], id, states[|steps|].db.jobs[id].status))
       <==> Final(cfg, states[|steps|], id)
    ensures states[|steps|].db.jobs[id].status == Synced ==> (Final(cfg, states[|steps|], id) <==> Unclaimed(states[|steps|], id))
  {
    var s := states[|steps|];
    if Final(cfg, s, id) {
      forall states', steps' | Continues(cfg, states, steps, states', steps', id)
        ensures HasStatus(states'[|steps'|], id, s.db.jobs[id].status)
      {
        FinalThroughout(cfg, states', steps', |steps|, |steps'|, id);
      }
    } else {
      var w :| w in s.claimants && s.claimants[w].job == id && MayUndo(cfg, s.claimants[w], s.now, s.db.jobs[id].status);
      var states', steps' := Undone(cfg, states, steps, id, w);
      assert !HasStatus(states'[|steps'|], id, s.db.jobs[id].status);
    }
  }
}
