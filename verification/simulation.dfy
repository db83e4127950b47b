/** A drain of one worker is a run of the service: the same claims, decisions, answers and marks, as steps of the state machine. */
module Simulation {
  import opened Contracts
  import opened Tables
  import opened Lifecycle
  import opened Queue
  import opened System
  import opened Invariant
  import opened Drain

  /** The state after these steps, if each of them is enabled in turn. */
  ghost function After(cfg: Config, s: Sys, steps: seq<Step>): Option<Sys> {
    if steps == [] then Some(s)
    else
      var n := |steps| - 1;
      var mid := After(cfg, s, steps[..n]);
      if mid.Some? && Enabled(mid.value, steps[n]) then Some(Apply(cfg, mid.value, steps[n])) else None
  }

  /** The jobs that these steps claim, in order. */
  ghost function ClaimedJobs(steps: seq<Step>): seq<nat> {
    if steps == [] then []
    else
      var n := |steps| - 1;
      ClaimedJobs(steps[..n]) + if steps[n].Claim? then [steps[n].job] else []
  }

  lemma Then(cfg: Config, s: Sys, steps: seq<Step>, mid: Sys, step: Step)
    requires After(cfg, s, steps) == Some(mid) && Enabled(mid, step)
    ensures After(cfg, s, steps + [step]) == Some(Apply(cfg, mid, step))
    ensures ClaimedJobs(steps + [step]) == ClaimedJobs(steps) + if step.Claim? then [step.job] else []
  {
    assert (steps + [step])[..|steps|] == steps;
  }

  lemma {:induction false} Append(cfg: Config, s: Sys, a: seq<Step>, mid: Sys, b: seq<Step>)
    requires After(cfg, s, a) == Some(mid)
    ensures After(cfg, s, a + b) == After(cfg, mid, b)
    ensures ClaimedJobs(a + b) == ClaimedJobs(a) + ClaimedJobs(b)
    decreases |b|
  {
    if b == [] {
      assert a + b == a;
    } else {
      var n := |b| - 1;
      Append(cfg, s, a, mid, b[..n]);
      assert (a + b)[..|a| + n] == a + b[..n];
    }
  }

  predicate ValidReply(r: Reply) {
    && r.claimedAt <= r.decidedAt <= r.markedAt
    && ValidDelay(r.delay) && (r.answer.Refused? ==> ValidDelay(r.answer.delay))
  }

  lemma Nothing(cfg: Config, s: Sys)
    ensures After(cfg, s, []) == Some(s) && ClaimedJobs([]) == []
  {
  }

  /** What the claim at `now` makes of the state. */
  lemma ClaimStep(cfg: Config, s: Sys, w: nat, id: nat)
    requires SysInv(cfg, s) && w !in s.claimants && Claimable(s.db, s.now, id)
    ensures var claim := Claim(w, id, s.db.orders[id].items);
            && Enabled(s, claim)
            && var s' := Apply(cfg, s, claim);
               && s'.db == LockJob(s.db, id, s.now) && s'.now == s.now
               && w in s'.claimants && s'.claimants - {w} == s.claimants
               && s'.claimants[w].job == id && s'.claimants[w].phase.Claimed?
               && s'.claimants[w].snapshot.status == s.db.jobs[id].status
               && s'.claimants[w].snapshot.attempts == s.db.jobs[id].attempts + 1
               && s'.claimants[w].snapshot.waitingSince == s.db.jobs[id].waitingSince
  {
    hide SysInv, LockJob;
    PaidAtKnown(cfg, s, id);
  }

  lemma DecideStep(cfg: Config, s: Sys, w: nat)
    requires w in s.claimants && s.claimants[w].phase.Claimed?
    requires var c := s.claimants[w].snapshot; Decide(cfg, c.status, c.attempts, c.waitingSince, s.now).Some?
    ensures Enabled(s, Deliver(w))
    ensures var c, s' := s.claimants[w], Apply(cfg, s, Deliver(w));
            && s'.db == s.db && s'.now == s.now && w in s'.claimants && s'.claimants - {w} == s.claimants - {w}
            && s'.claimants[w] == c.(phase := Decide(cfg, c.snapshot.status, c.snapshot.attempts, c.snapshot.waitingSince, s.now).value)
  {
  }

  lemma TickStep(cfg: Config, s: Sys, now: int)
    requires s.now <= now
    ensures Enabled(s, Tick(now - s.now)) && Apply(cfg, s, Tick(now - s.now)) == s.(now := now)
  {
  }

  lemma LaterInv(cfg: Config, s: Sys, now: int)
    requires SysInv(cfg, s) && s.now <= now
    ensures SysInv(cfg, s.(now := now))
  {
    hide SysInv;
    TickKeeps(cfg, s, now - s.now);
  }

  /** Claim and decision of a round, as steps. */
  lemma RoundStarts(cfg: Config, s: Sys, w: nat, id: nat, r: Reply) returns (steps: seq<Step>, mid: Sys)
    requires SysInv(cfg, s) && w !in s.claimants && s.now <= r.claimedAt && ValidReply(r) && Claimable(s.db, r.claimedAt, id)
    ensures After(cfg, s, steps) == Some(mid) && ClaimedJobs(steps) == [id]
    ensures mid.db == LockJob(s.db, id, r.claimedAt) && mid.now == r.decidedAt
    ensures w in mid.claimants && mid.claimants - {w} == s.claimants && mid.claimants[w].job == id
    ensures mid.claimants[w].snapshot.attempts == s.db.jobs[id].attempts + 1
    ensures Decide(cfg, s.db.jobs[id].status, s.db.jobs[id].attempts + 1, s.db.jobs[id].waitingSince, r.decidedAt) == Some(mid.claimants[w].phase)
  {
    hide SysInv, Claimable, After, ClaimedJobs, Apply, Enabled, LockJob, Decide;
    ClaimableJob(s.db, r.claimedAt, id);
    Nothing(cfg, s);
    TickStep(cfg, s, r.claimedAt);
    Then(cfg, s, [], s, Tick(r.claimedAt - s.now));
    steps := [] + [Tick(r.claimedAt - s.now)];
    var s1 := s.(now := r.claimedAt);
    LaterInv(cfg, s, r.claimedAt);
    var claim := Claim(w, id, s.db.orders[id].items);
    ClaimStep(cfg, s1, w, id);
    Then(cfg, s, steps, s1, claim);
    var s2 := Apply(cfg, s1, claim);
    steps := steps + [claim];
    TickStep(cfg, s2, r.decidedAt);
    Then(cfg, s, steps, s2, Tick(r.decidedAt - s2.now));
    var s3 := s2.(now := r.decidedAt);
    steps := steps + [Tick(r.decidedAt - s2.now)];
    DecideShape(cfg, s.db.jobs[id], r.decidedAt);
    DecideStep(cfg, s3, w);
    Then(cfg, s, steps, s3, Deliver(w));
    mid := Apply(cfg, s3, Deliver(w));
    steps := steps + [Deliver(w)];
  }

  lemma PaidAtKnown(cfg: Config, s: Sys, id: nat)
    requires SysInv(cfg, s) && id in s.db.jobs
    ensures id in s.db.orders && s.db.orders[id].paidAt.Some?
  {
    var db := s.db;
    assert OrderSettled(db.orders[id], FindPayment(db, db.orders[id].orderId), id in db.jobs);
    assert db.orders[id].orderId in db.payments ==> PaymentSettled(db, db.orders[id].orderId, db.payments[db.orders[id].orderId]);
  }

  lemma AnswerStep(cfg: Config, s: Sys, w: nat, answer: Answer)
    requires w in s.claimants && s.claimants[w].phase.Calling? && (answer.Refused? ==> ValidDelay(answer.delay))
    ensures Enabled(s, Respond(w, answer))
    ensures var c := s.claimants[w];
            Apply(cfg, s, Respond(w, answer)) == SetPhase(s, w,
              if answer.Accepted? then Saving(c.phase.decidedAt, answer.sapId)
              else FailureState(cfg, c.snapshot.attempts, c.phase.decidedAt, answer.retryable, answer.delay))
  {
  }

  lemma MarkingStep(cfg: Config, s: Sys, w: nat, stored: bool)
    requires w in s.claimants && s.claimants[w].phase.Marking?
    ensures Enabled(s, Mark(w, stored, stored, 0))
    ensures var c := s.claimants[w];
            Apply(cfg, s, Mark(w, stored, stored, 0)) ==
            Leave(if stored then s.(db := MarkFailed(s.db, c.job, c.phase.status, c.phase.dueAt, s.now)) else s, w)
  {
    hide MarkFailed;
  }

  lemma SavingStep(cfg: Config, s: Sys, w: nat, saved: bool, delay: int)
    requires w in s.claimants && s.claimants[w].phase.Saving? && ValidDelay(delay)
    ensures Enabled(s, Mark(w, saved, saved, delay))
    ensures var c := s.claimants[w];
            Apply(cfg, s, Mark(w, saved, saved, delay)) ==
            if saved then Leave(s.(db := MarkSynced(s.db, c.job, c.phase.sapId)), w)
            else SetPhase(s, w, UnsavedState(cfg, c.snapshot.attempts, c.phase.decidedAt, delay))
  {
    hide MarkSynced;
  }

  /** The claimant's failure mark, stored or lost. */
  lemma MarkFollows(cfg: Config, s: Sys, w: nat, stored: bool) returns (steps: seq<Step>, end: Sys)
    requires w in s.claimants && s.claimants[w].phase.Marking?
    ensures After(cfg, s, steps) == Some(end) && ClaimedJobs(steps) == []
    ensures var c := s.claimants[w];
            end == Leave(if stored then s.(db := MarkFailed(s.db, c.job, c.phase.status, c.phase.dueAt, s.now)) else s, w)
  {
    hide After, ClaimedJobs, Apply, Enabled, MarkFailed;
    Nothing(cfg, s);
    MarkingStep(cfg, s, w, stored);
    Then(cfg, s, [], s, Mark(w, stored, stored, 0));
    steps, end := [] + [Mark(w, stored, stored, 0)], Apply(cfg, s, Mark(w, stored, stored, 0));
  }

  /** The mark that a round without a stored success tries to store. */
  function RoundMark(cfg: Config, phase: Phase, attempts: nat, r: Reply): Phase {
    if !phase.Calling? then phase
    else if r.answer.Accepted? then UnsavedState(cfg, attempts, r.decidedAt, r.delay)
    else FailureState(cfg, attempts, r.decidedAt, r.answer.retryable, r.answer.delay)
  }

  /** The tables after the marks of a round, from those after its claim. */
  function AfterMarks(cfg: Config, db: Db, id: nat, phase: Phase, attempts: nat, r: Reply): Db {
    if phase.Calling? && r.answer.Accepted? && r.saved then MarkSynced(db, id, r.answer.sapId)
    else
      var mark := RoundMark(cfg, phase, attempts, r);
      if r.stored && mark.Marking? then MarkFailed(db, id, mark.status, mark.dueAt, r.markedAt) else db
  }

  /** Answer and marks of a round, as steps. */
  lemma RoundEnds(cfg: Config, s: Sys, w: nat, r: Reply) returns (steps: seq<Step>, end: Sys)
    requires w in s.claimants && s.now == r.decidedAt && ValidReply(r)
    requires s.claimants[w].phase == Calling(r.decidedAt) || s.claimants[w].phase == Marking(Dead, r.decidedAt)
    ensures After(cfg, s, steps) == Some(end) && ClaimedJobs(steps) == []
    ensures end.claimants == s.claimants - {w} && end.now == r.markedAt
    ensures end.db == AfterMarks(cfg, s.db, s.claimants[w].job, s.claimants[w].phase, s.claimants[w].snapshot.attempts, r)
  {
    hide After, ClaimedJobs, Apply, Enabled, MarkFailed, MarkSynced;
    Nothing(cfg, s);
    var now := s;
    steps := [];
    if s.claimants[w].phase.Calling? {
      AnswerStep(cfg, s, w, r.answer);
      Then(cfg, s, steps, now, Respond(w, r.answer));
      now, steps := Apply(cfg, now, Respond(w, r.answer)), steps + [Respond(w, r.answer)];
    }
    TickStep(cfg, now, r.markedAt);
    Then(cfg, s, steps, now, Tick(r.markedAt - now.now));
    now, steps := now.(now := r.markedAt), steps + [Tick(r.markedAt - now.now)];
    if now.claimants[w].phase.Saving? {
      var mark := Mark(w, r.saved, r.saved, r.delay);
      SavingStep(cfg, now, w, r.saved, r.delay);
      Then(cfg, s, steps, now, mark);
      now, steps := Apply(cfg, now, mark), steps + [mark];
    }
    end := now;
    if w in now.claimants {
      var rest, last := MarkFollows(cfg, now, w, r.stored);
      Append(cfg, s, steps, now, rest);
      steps, end := steps + rest, last;
    }
  }

  /** A round of `DrainDue` is a run of the service's own steps that claims this job once and ends in the same tables. */
  lemma RoundIsRun(cfg: Config, s: Sys, w: nat, id: nat, r: Reply) returns (steps: seq<Step>, end: Sys)
    requires SysInv(cfg, s) && w !in s.claimants && s.now <= r.claimedAt && ValidReply(r) && Claimable(s.db, r.claimedAt, id)
    ensures After(cfg, s, steps) == Some(end) && ClaimedJobs(steps) == [id]
    ensures end.db == AfterTables(cfg, s.db, id, r) && end.claimants == s.claimants && end.now == r.markedAt
  {
    hide SysInv, Apply, Enabled, Claimable, After, ClaimedJobs, AfterTables, AfterMarks, LockJob, Decide;
    ClaimableJob(s.db, r.claimedAt, id);
    var first, mid := RoundStarts(cfg, s, w, id, r);
    DecideShape(cfg, s.db.jobs[id], r.decidedAt);
    var rest, last := RoundEnds(cfg, mid, w, r);
    Append(cfg, s, first, mid, rest);
    steps, end := first + rest, last;
    TablesAgree(cfg, s.db, id, r);
  }

  lemma ClaimableJob(db: Db, now: int, id: nat)
    requires Claimable(db, now, id)
    ensures id in db.jobs && id in db.orders && Unfinished(db.jobs[id].status)
  {
  }

  lemma DecideShape(cfg: Config, j: Job, now: int)
    requires Unfinished(j.status)
    ensures var d := Decide(cfg, j.status, j.attempts + 1, j.waitingSince, now);
            d == Some(Calling(now)) || d == Some(Marking(Dead, now))
  {
  }

  lemma LockThenFail(db: Db, id: nat, t: int, mark: Phase, now: int)
    requires id in db.jobs && mark.Marking?
    ensures MarkFailed(LockJob(db, id, t), id, mark.status, mark.dueAt, now) == db.(jobs := db.jobs[id := Failed(Locked(db.jobs[id], t), mark, now)])
  {
    assert db.jobs[id := Locked(db.jobs[id], t)][id := Failed(Locked(db.jobs[id], t), mark, now)]
        == db.jobs[id := Failed(Locked(db.jobs[id], t), mark, now)];
  }

  lemma LockThenSync(db: Db, id: nat, t: int, sapId: string)
    requires id in db.jobs
    ensures var row := Locked(db.jobs[id], t).(status := Synced, sapId := Some(sapId), lockedAt := None, waitingSince := None);
            MarkSynced(LockJob(db, id, t), id, sapId) == SetSapId(db.(jobs := db.jobs[id := row]), id, sapId)
  {
    var row := Locked(db.jobs[id], t).(status := Synced, sapId := Some(sapId), lockedAt := None, waitingSince := None);
    assert db.jobs[id := Locked(db.jobs[id], t)][id := row] == db.jobs[id := row];
  }

  /** The statements of a round compute the row of `AfterRound`. */
  lemma TablesAgree(cfg: Config, db: Db, id: nat, r: Reply)
    requires id in db.jobs && Unfinished(db.jobs[id].status)
    ensures var j := db.jobs[id];
            var decision := Decide(cfg, j.status, j.attempts + 1, j.waitingSince, r.decidedAt);
            decision.Some? && AfterTables(cfg, db, id, r) == AfterMarks(cfg, LockJob(db, id, r.claimedAt), id, decision.value, j.attempts + 1, r)
  {
    hide MarkFailed, MarkSynced, SetSapId, Decide;
    var j := db.jobs[id];
    DecideShape(cfg, j, r.decidedAt);
    var decision := Decide(cfg, j.status, j.attempts + 1, j.waitingSince, r.decidedAt);
    if decision.value.Calling? && r.answer.Accepted? && r.saved {
      LockThenSync(db, id, r.claimedAt, r.answer.sapId);
    } else {
      LockThenFail(db, id, r.claimedAt, RoundMark(cfg, decision.value, j.attempts + 1, r), r.markedAt);
    }
  }

  /** The environment's clock readings follow one another, from `now` on. */
  ghost predicate Ordered(env: nat -> Reply, n: nat, now: int) {
    && (n > 0 ==> now <= env(0).claimedAt)
    && (forall k :: 0 <= k < n ==> ValidReply(env(k)))
    && (forall k :: 0 < k < n ==> env(k - 1).markedAt <= env(k).claimedAt)
  }

  /**
   A whole drain, started by a free worker in any state of any run, is a run of the
   service's own steps: it claims the picked jobs in order and ends in the same tables.
   */
  lemma {:induction false} DrainIsRun(cfg: Config, s: Sys, w: nat, picks: seq<nat>, env: nat -> Reply) returns (steps: seq<Step>, end: Sys)
    requires SysInv(cfg, s) && w !in s.claimants && Ordered(env, |picks|, s.now) && WellPicked(cfg, s.db, picks, env)
    ensures After(cfg, s, steps) == Some(end) && ClaimedJobs(steps) == picks
    ensures end.db == Rounds(cfg, s.db, picks, env) && end.claimants == s.claimants
    ensures end.now == if picks == [] then s.now else env(|picks| - 1).markedAt
    decreases |picks|
  {
    hide SysInv, Selected, AfterTables, After, ClaimedJobs, Apply, Enabled;
    if picks == [] {
      Nothing(cfg, s);
      steps, end := [], s;
    } else {
      var n := |picks| - 1;
      var front := picks[..n];
      FrontWellPicked(cfg, s.db, picks, env);
      var first, mid := DrainIsRun(cfg, s, w, front, env);
      AfterKeeps(cfg, s, first);
      assert PickedRight(cfg, s.db, picks, env, n);
      SelectedClaimable(mid.db, env(n).claimedAt, picks[n]);
      var rest, last := RoundIsRun(cfg, mid, w, picks[n], env(n));
      Append(cfg, s, first, mid, rest);
      steps, end := first + rest, last;
    }
  }

  lemma FrontWellPicked(cfg: Config, db: Db, picks: seq<nat>, env: nat -> Reply)
    requires picks != [] && WellPicked(cfg, db, picks, env)
    ensures WellPicked(cfg, db, picks[..|picks| - 1], env)
  {
    hide Rounds, Selected;
    var front := picks[..|picks| - 1];
    forall k | 0 <= k < |front| ensures PickedRight(cfg, db, front, env, k) {
      assert PickedRight(cfg, db, picks, env, k);
      assert front[..k] == picks[..k];
    }
  }

  lemma SelectedClaimable(db: Db, now: int, id: nat)
    requires Selected(db, now, id)
    ensures Claimable(db, now, id)
  {
  }

  lemma {:induction false} AfterKeeps(cfg: Config, s: Sys, steps: seq<Step>)
    requires SysInv(cfg, s) && After(cfg, s, steps).Some?
    ensures SysInv(cfg, After(cfg, s, steps).value)
    decreases |steps|
  {
    hide SysInv, Apply, Enabled;
    if steps != [] {
      var n := |steps| - 1;
      AfterKeeps(cfg, s, steps[..n]);
      StepKeeps(cfg, After(cfg, s, steps[..n]).value, steps[n]);
    }
  }
}
