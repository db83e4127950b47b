/**
 One worker draining the queue: claim, decide, call SAP, mark, until nothing is
 due. The environment supplies clock readings, SAP's answers and database errors.
 */
module Drain {
  import opened Contracts
  import opened Lifecycle
  import opened Queue
  import opened System
  import opened Invariant

  // ---------- the budget ----------

  predicate Unfinished(status: SyncStatus) {
    status == Pending || status == Waiting || status == Processing
  }

  /** How many more claims a job can absorb: what is left of its attempts, but at least one. */
  function Weight(cfg: Config, j: Job): nat {
    if !Unfinished(j.status) then 0
    else if cfg.MaxTotalAttempts() - j.attempts > 1 then cfg.MaxTotalAttempts() - j.attempts
    else 1
  }

  ghost function Budget(cfg: Config, jobs: map<nat, Job>): nat
    decreases |jobs|
  {
    if jobs == map[] then 0
    else
      var k :| k in jobs;
      Weight(cfg, jobs[k]) + Budget(cfg, jobs - {k})
  }

  /** The sum does not depend on the order of summation. */
  lemma {:induction false} BudgetSplit(cfg: Config, jobs: map<nat, Job>, id: nat)
    requires id in jobs
    ensures Budget(cfg, jobs) == Weight(cfg, jobs[id]) + Budget(cfg, jobs - {id})
    decreases |jobs|
  {
    var k :| k in jobs && Budget(cfg, jobs) == Weight(cfg, jobs[k]) + Budget(cfg, jobs - {k});
    if k != id {
      BudgetSplit(cfg, jobs - {k}, id);
      BudgetSplit(cfg, jobs - {id}, k);
      assert jobs - {k} - {id} == jobs - {id} - {k};
    }
  }

  lemma BudgetUpdate(cfg: Config, jobs: map<nat, Job>, id: nat, j: Job)
    requires id in jobs
    ensures Budget(cfg, jobs[id := j]) + Weight(cfg, jobs[id]) == Budget(cfg, jobs) + Weight(cfg, j)
  {
    BudgetSplit(cfg, jobs, id);
    BudgetSplit(cfg, jobs[id := j], id);
    assert jobs[id := j] - {id} == jobs - {id};
  }

  // ---------- one delivery ----------

  /** What the environment does during one round: clock readings, SAP's answer, and the fate of both marks. */
  datatype Reply =
    Reply(claimFails: bool, claimedAt: int, decidedAt: int, answer: Answer, saved: bool, stored: bool, delay: int, markedAt: int)

  /** The row after a claim at `now`. */
  function Locked(j: Job, now: int): Job {
    j.(status := Processing, lockedAt := Some(now), attempts := j.attempts + 1)
  }

  function Failed(j: Job, mark: Phase, now: int): Job {
    if !mark.Marking? then j
    else j.(status := mark.status, dueAt := mark.dueAt, lockedAt := None, waitingSince := WaitingSince(mark.status, j.waitingSince, now))
  }

  /** The row after the whole round, and whether it was left locked because its last mark was lost. */
  function AfterRound(cfg: Config, j: Job, r: Reply): (Job, bool) {
    var locked := Locked(j, r.claimedAt);
    match Decide(cfg, j.status, locked.attempts, j.waitingSince, r.decidedAt)
    case None => (locked, true)
    case Some(decision) =>
      if decision.Calling? && r.answer.Accepted? && r.saved then
        (locked.(status := Synced, sapId := Some(r.answer.sapId), lockedAt := None, waitingSince := None), false)
      else if !r.stored then (locked, true)
      else
        var mark :=
          if !decision.Calling? then decision
          else if r.answer.Accepted? then UnsavedState(cfg, locked.attempts, r.decidedAt, r.delay)
          else FailureState(cfg, locked.attempts, r.decidedAt, r.answer.retryable, r.answer.delay);
        (Failed(locked, mark, r.markedAt), false)
  }

  /** SAP's id, if the round ends with a stored success. */
  function SavedId(cfg: Config, j: Job, r: Reply): Option<string> {
    var decision := Decide(cfg, j.status, j.attempts + 1, j.waitingSince, r.decidedAt);
    if decision.Some? && decision.value.Calling? && r.answer.Accepted? && r.saved then Some(r.answer.sapId) else None
  }

  /** The tables after the whole round. */
  function AfterTables(cfg: Config, db: Db, id: nat, r: Reply): Db {
    if id !in db.jobs then db
    else
      var written, saved := db.(jobs := db.jobs[id := AfterRound(cfg, db.jobs[id], r).0]), SavedId(cfg, db.jobs[id], r);
      if saved.Some? then SetSapId(written, id, saved.value) else written
  }

  /** The tables after rounds on the picked jobs, one after the other, with the environment's replies in order. */
  ghost function Rounds(cfg: Config, db: Db, picks: seq<nat>, env: nat -> Reply): Db {
    if picks == [] then db
    else
      var n := |picks| - 1;
      AfterTables(cfg, Rounds(cfg, db, picks[..n], env), picks[n], env(n))
  }

  /** How many of these rounds left their job locked. */
  ghost function LostRounds(cfg: Config, db: Db, picks: seq<nat>, env: nat -> Reply): nat {
    if picks == [] then 0
    else
      var n := |picks| - 1;
      var before := Rounds(cfg, db, picks[..n], env);
      LostRounds(cfg, db, picks[..n], env)
      + if picks[n] in before.jobs && AfterRound(cfg, before.jobs[picks[n]], env(n)).1 then 1 else 0
  }

  /** Every pick was a least claimable job when the claim query ran, and no claim failed. */
  ghost predicate WellPicked(cfg: Config, db: Db, picks: seq<nat>, env: nat -> Reply) {
    forall k :: 0 <= k < |picks| ==> PickedRight(cfg, db, picks, env, k)
  }

  ghost predicate PickedRight(cfg: Config, db: Db, picks: seq<nat>, env: nat -> Reply, k: nat)
    requires k < |picks|
  {
    !env(k).claimFails && Selected(Rounds(cfg, db, picks[..k], env), env(k).claimedAt, picks[k])
  }

  lemma OneMoreRound(cfg: Config, db: Db, picks: seq<nat>, env: nat -> Reply, id: nat)
    requires WellPicked(cfg, db, picks, env)
    requires !env(|picks|).claimFails && Selected(Rounds(cfg, db, picks, env), env(|picks|).claimedAt, id)
    ensures WellPicked(cfg, db, picks + [id], env)
    ensures Rounds(cfg, db, picks + [id], env) == AfterTables(cfg, Rounds(cfg, db, picks, env), id, env(|picks|))
    ensures LostRounds(cfg, db, picks + [id], env) ==
            LostRounds(cfg, db, picks, env)
            + if AfterRound(cfg, Rounds(cfg, db, picks, env).jobs[id], env(|picks|)).1 then 1 else 0
  {
    hide AfterTables, AfterRound, Selected;
    Worker.SelectedMeaning(Rounds(cfg, db, picks, env), env(|picks|).claimedAt, id);
    var more, n := picks + [id], |picks|;
    assert more[..n] == picks;
    forall k | 0 <= k < |more| ensures PickedRight(cfg, db, more, env, k) {
      assert more[..k] == picks[..k];
      if k < n { assert PickedRight(cfg, db, picks, env, k); } else { assert picks[..k] == picks; }
    }
  }

  /** A round uses up one unit of the job's weight, unless its last mark was lost on an exhausted job. */
  lemma RoundCosts(cfg: Config, j: Job, r: Reply)
    requires Unfinished(j.status)
    ensures var (j', lost) := AfterRound(cfg, j, r);
            Weight(cfg, j') + 1 <= Weight(cfg, j) + (if lost then 1 else 0)
  {
  }

  class Worker {
    const cfg: Config
    var db: Db
    var running: bool

    constructor (cfg: Config, db: Db)
      ensures this.cfg == cfg && this.db == db && !running
    {
      this.cfg, this.db, running := cfg, db, false;
    }

    /** Locks a job with the least wake-up instant, if any is claimable. */
    method ClaimDue(now: int) returns (claimed: Option<nat>)
      requires Inv(db)
      modifies this`db
      ensures Inv(db)
      ensures claimed.None? <==> forall id :: !Claimable(old(db), now, id)
      ensures claimed.None? ==> db == old(db)
      ensures claimed.Some? ==> Selected(old(db), now, claimed.value) && db == LockJob(old(db), claimed.value, now)
    {
      hide Inv, Selected;
      ClaimAgreesWithNextWake(db, now);
      if exists id :: id in db.jobs && Claimable(db, now, id) {
        ghost var some :| Selected(db, now, some);
        SelectedMeaning(db, now, some);
        var id :| id in db.jobs && Claimable(db, now, id)
                  && forall k :: k in db.jobs ==> Claimable(db, now, k) ==> WakeAt(db, id).value <= WakeAt(db, k).value;
        SelectedIntro(db, now, id);
        LockWrites(db, id, now);
        db := LockJob(db, id, now);
        return Some(id);
      }
      return None;
    }

    static lemma SelectedMeaning(db: Db, now: int, id: nat)
      requires Selected(db, now, id)
      ensures id in db.jobs && Claimable(db, now, id)
      ensures forall k :: k in db.jobs ==> Claimable(db, now, k) ==> WakeAt(db, id).value <= WakeAt(db, k).value
    {
    }

    static lemma SelectedIntro(db: Db, now: int, id: nat)
      requires Claimable(db, now, id)
      requires forall k :: k in db.jobs ==> Claimable(db, now, k) ==> WakeAt(db, id).value <= WakeAt(db, k).value
      ensures Selected(db, now, id)
    {
    }

    /** The operator's replay: reports success exactly when one DEAD row was reset. */
    method ReplayDeadJob(id: nat, now: int) returns (replayed: bool)
      requires Inv(db)
      modifies this`db
      ensures Inv(db) && db == ReplayDead(old(db), id, now)
      ensures replayed <==> id in old(db).jobs && old(db).jobs[id].status == Dead
    {
      hide Inv;
      replayed := id in db.jobs && db.jobs[id].status == Dead;
      if replayed {
        ReplayWrites(db, id, now);
        var row := db.jobs[id].(status := Pending, dueAt := now, attempts := 0, lockedAt := None, waitingSince := None, sapId := None);
        db := db.(jobs := db.jobs[id := row]);
      }
    }

    method StoreFailure(id: nat, phase: Phase, r: Reply) returns (lost: bool)
      requires Inv(db) && id in db.jobs
      requires phase.Marking? && (phase.status == Pending || phase.status == Waiting || phase.status == Dead)
      modifies this`db
      ensures Inv(db) && lost == !r.stored
      ensures db == if r.stored then old(db).(jobs := old(db).jobs[id := Failed(old(db).jobs[id], phase, r.markedAt)]) else old(db)
    {
      hide Inv;
      lost := !r.stored;
      if r.stored {
        FailedWrites(db, id, phase.status, phase.dueAt, r.markedAt);
        db := MarkFailed(db, id, phase.status, phase.dueAt, r.markedAt);
      }
    }

    /** The delivery of a claimed job whose row was `before` the claim. */
    method Deliver(id: nat, before: Job, r: Reply) returns (lost: bool)
      requires Inv(db) && id in db.jobs && db.jobs[id] == Locked(before, r.claimedAt)
      modifies this`db
      ensures Inv(db)
      ensures lost == AfterRound(cfg, before, r).1
      ensures var written := old(db).(jobs := old(db).jobs[id := AfterRound(cfg, before, r).0]);
              var saved := SavedId(cfg, before, r);
              db == if saved.Some? then SetSapId(written, id, saved.value) else written
    {
      hide Inv;
      var attempts, waitingSince, now := db.jobs[id].attempts, db.jobs[id].waitingSince, r.decidedAt;
      assert db.jobs[id := db.jobs[id]] == db.jobs;
      if before.status == Dead {
        return true;
      }
      if waitingSince.Some? && now >= waitingSince.value + cfg.RecoveryWindow() {
        lost := StoreFailure(id, Marking(Dead, now), r);
        return;
      }
      if attempts > cfg.MaxTotalAttempts() {
        lost := StoreFailure(id, Marking(Dead, now), r);
        return;
      }
      match r.answer
      case Accepted(sapId) =>
        if r.saved {
          SyncedWrites(db, id, sapId);
          db := MarkSynced(db, id, sapId);
          return false;
        }
        var status := Pending;
        if attempts >= cfg.MaxTotalAttempts() {
          status := Dead;
        }
        lost := StoreFailure(id, Marking(status, now + r.delay), r);
      case Refused(retryable, delay) =>
        var mark := FailureMark(attempts, now, retryable, delay);
        lost := StoreFailure(id, mark, r);
    }

    /** Status and due time after a refusal. */
    method FailureMark(attempts: nat, now: int, retryable: bool, delay: int) returns (mark: Phase)
      ensures mark == FailureState(cfg, attempts, now, retryable, delay)
      ensures mark.Marking? && (mark.status == Pending || mark.status == Waiting || mark.status == Dead)
    {
      if !retryable {
        return Marking(Dead, now);
      }
      if attempts >= cfg.MaxTotalAttempts() {
        return Marking(Dead, now);
      }
      var status := Pending;
      if attempts >= cfg.MaxAttempts() {
        status := Waiting;
      }
      return Marking(status, now + delay);
    }

    /**
     Drains the queue: rounds on least claimable jobs, one after the other, until
     the claim query fails or finds nothing. Whatever SAP answers and however short
     the delays, the number of claims is bounded by the jobs' remaining attempts
     plus the marks that were lost; if from some round on no mark is lost, it stops.
     */
    method DrainDue(env: nat -> Reply, horizon: nat) returns (claims: nat, lostMarks: nat, drained: bool, ghost picks: seq<nat>)
      requires Inv(db)
      requires forall k :: k >= horizon ==> env(k).stored
      modifies this
      ensures Inv(db) && running == old(running)
      ensures claims == |picks| && (old(running) ==> claims == 0 && !drained)
      ensures db == Rounds(cfg, old(db), picks, env) && WellPicked(cfg, old(db), picks, env)
      ensures lostMarks == LostRounds(cfg, old(db), picks, env) <= horizon
      ensures claims + Budget(cfg, db.jobs) <= Budget(cfg, old(db).jobs) + lostMarks
      ensures !old(running) ==> (drained <==> !env(claims).claimFails)
      ensures drained ==> forall id :: !Claimable(db, env(claims).claimedAt, id)
    {
      hide Inv, AfterRound, Rounds, LostRounds, WellPicked, Selected;
      claims, lostMarks, drained, picks := 0, 0, false, [];
      NoRounds(cfg, db, env);
      if running {
        return;
      }
      running := true;
      while true
        invariant Inv(db) && running && claims == |picks|
        invariant db == Rounds(cfg, old(db), picks, env) && WellPicked(cfg, old(db), picks, env)
        invariant lostMarks == LostRounds(cfg, old(db), picks, env)
        invariant claims + Budget(cfg, db.jobs) <= Budget(cfg, old(db).jobs) + lostMarks
        invariant lostMarks <= claims && lostMarks <= horizon
        decreases Budget(cfg, db.jobs) + (if claims < horizon then horizon - claims else 0)
      {
        var r := env(claims);
        if r.claimFails {
          running := false;
          return;
        }
        ghost var start := db;
        var jobs := db.jobs;
        var claimed := ClaimDue(r.claimedAt);
        if claimed.None? {
          running, drained := false, true;
          return;
        }
        var id := claimed.value;
        SelectedMeaning(start, r.claimedAt, id);
        var before := jobs[id];
        var lost := Deliver(id, before, r);
        RoundTables(cfg, start, id, r);
        assert db == AfterTables(cfg, start, id, r);
        OneMoreRound(cfg, old(db), picks, env, id);
        BudgetUpdate(cfg, jobs, id, AfterRound(cfg, before, r).0);
        RoundCosts(cfg, before, r);
        LostOnlyUnstored(cfg, before, r);
        claims, picks := claims + 1, picks + [id];
        if lost {
          lostMarks := lostMarks + 1;
        }
      }
    }

    static lemma NoRounds(cfg: Config, db: Db, env: nat -> Reply)
      ensures Rounds(cfg, db, [], env) == db && LostRounds(cfg, db, [], env) == 0 && WellPicked(cfg, db, [], env)
    {
    }

    /** Locking first makes no difference to the tables after the round. */
    static lemma RoundTables(cfg: Config, db: Db, id: nat, r: Reply)
      requires id in db.jobs
      ensures LockJob(db, id, r.claimedAt).jobs[id := AfterRound(cfg, db.jobs[id], r).0] == db.jobs[id := AfterRound(cfg, db.jobs[id], r).0]
      ensures AfterTables(cfg, db, id, r).jobs == db.jobs[id := AfterRound(cfg, db.jobs[id], r).0]
      ensures LockJob(db, id, r.claimedAt).(jobs := db.jobs) == db
    {
      hide AfterRound;
    }

    static lemma LostOnlyUnstored(cfg: Config, j: Job, r: Reply)
      requires Unfinished(j.status)
      ensures AfterRound(cfg, j, r).1 ==> !r.stored
    {
    }
  }
}
