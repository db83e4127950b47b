/** The invariant of the whole service, kept by every step of every run. */
module Invariant {
  import opened Contracts
  import opened Tables
  import opened Webhooks
  import opened Lifecycle
  import opened Growth
  import opened Queue
  import opened System

  /** The request describes the paid order; items are compared as a multiset. */
  ghost predicate Matches(o: Order, d: Details) {
    && o.state == OrderPaid
    && d.orderId == o.orderId && d.email == o.email && o.paidAt == Some(d.paidAt)
    && multiset(d.items) == multiset(o.items)
  }

  /** The first instant at which the job may be dispatched. */
  ghost function Earliest(cfg: Config, db: Db, id: nat): int
    requires id in db.jobs && id in db.orders
  {
    db.jobs[id].createdAt + DelaySeconds(db.orders[id].items, cfg) * SECOND
  }

  /** An attempt number handed out for a job in a replay epoch. */
  datatype Token = Token(job: nat, epoch: nat, attempt: nat)

  function TokenOf(c: Claimant): Token {
    Token(c.job, c.epoch, c.snapshot.attempts)
  }

  function CallToken(k: Call): Token {
    Token(k.job, k.epoch, k.attempt)
  }

  /** The token was handed out: its epoch is not in the future, nor its number in this epoch. */
  ghost predicate Issued(s: Sys, t: Token) {
    && t.job in s.db.jobs && t.job in s.db.orders && t.attempt >= 1
    && t.epoch <= EpochOf(s, t.job)
    && (t.epoch == EpochOf(s, t.job) ==> t.attempt <= s.db.jobs[t.job].attempts)
  }

  /** The attempt numbers with which a job may wait for another attempt in this status. */
  ghost predicate WithinLimits(cfg: Config, status: SyncStatus, attempts: nat) {
    && (status == Pending ==> attempts < cfg.MaxTotalAttempts())
    && (status == Waiting ==> cfg.MaxAttempts() <= attempts < cfg.MaxTotalAttempts())
  }

  ghost predicate PhaseOk(cfg: Config, c: Claimant, now: int) {
    match c.phase
    case Claimed => true
    case Calling(decidedAt) => c.claimedAt <= decidedAt <= now
    case Saving(decidedAt, _) => c.claimedAt <= decidedAt <= now
    case Marking(status, _) =>
      (status == Pending || status == Waiting || status == Dead) && WithinLimits(cfg, status, c.snapshot.attempts)
  }

  ghost predicate ClaimantOk(cfg: Config, s: Sys, c: Claimant) {
    && Issued(s, TokenOf(c))
    && Matches(s.db.orders[c.job], c.snapshot.details)
    && Earliest(cfg, s.db, c.job) <= c.claimedAt <= s.now
    && (Awaiting(c.snapshot.status) || c.snapshot.status == Processing)
    && PhaseOk(cfg, c, s.now)
  }

  ghost predicate CallOk(cfg: Config, s: Sys, k: Call) {
    && Issued(s, CallToken(k))
    && k.attempt <= cfg.MaxTotalAttempts()
    && Matches(s.db.orders[k.job], k.details)
    && Earliest(cfg, s.db, k.job) <= k.at <= s.now
    && !RecoveryWindowExpired(cfg, k.waitingSince, k.at)
  }

  /** A job whose time has not come is still untouched and due no earlier than that. */
  ghost predicate Held(cfg: Config, s: Sys, id: nat)
    requires id in s.db.jobs && id in s.db.orders
  {
    || Earliest(cfg, s.db, id) <= s.now
    || (s.db.jobs[id].status == Pending && s.db.jobs[id].dueAt >= Earliest(cfg, s.db, id))
  }

  ghost predicate ClaimantsOk(cfg: Config, s: Sys) {
    forall w :: w in s.claimants ==> ClaimantOk(cfg, s, s.claimants[w])
  }

  ghost predicate CallsOk(cfg: Config, s: Sys) {
    forall i :: 0 <= i < |s.calls| ==> CallOk(cfg, s, s.calls[i])
  }

  ghost predicate JobsHeld(cfg: Config, s: Sys) {
    forall id :: id in s.db.jobs ==> id in s.db.orders && Held(cfg, s, id)
  }

  /** No attempt number is used twice, neither by two claimants nor by two calls. */
  ghost predicate TokensDistinct(s: Sys) {
    && (forall w, w' :: w in s.claimants && w' in s.claimants && w != w' ==> TokenOf(s.claimants[w]) != TokenOf(s.claimants[w']))
    && (forall i, k :: 0 <= i < k < |s.calls| ==> CallToken(s.calls[i]) != CallToken(s.calls[k]))
    && (forall w, i :: w in s.claimants && s.claimants[w].phase.Claimed? && 0 <= i < |s.calls| ==>
          TokenOf(s.claimants[w]) != CallToken(s.calls[i]))
  }

  ghost predicate SysInv(cfg: Config, s: Sys) {
    Inv(s.db) && ClaimantsOk(cfg, s) && CallsOk(cfg, s) && JobsHeld(cfg, s) && TokensDistinct(s)
  }

  lemma SysInvDb(cfg: Config, s: Sys)
    requires SysInv(cfg, s)
    ensures Inv(s.db)
  {
  }

  // ---------- what every step does to the past ----------

  ghost predicate RowAdvances(s: Sys, s': Sys, id: nat)
    requires id in s.db.jobs && id in s'.db.jobs
  {
    && s'.db.jobs[id].createdAt == s.db.jobs[id].createdAt
    && EpochOf(s', id) >= EpochOf(s, id)
    && (EpochOf(s', id) == EpochOf(s, id) ==> s'.db.jobs[id].attempts >= s.db.jobs[id].attempts)
  }

  ghost predicate Advances(s: Sys, s': Sys) {
    && s.now <= s'.now
    && Grows(s.db, s'.db)
    && forall id :: id in s.db.jobs ==> RowAdvances(s, s', id)
  }

  lemma ClaimantAdvances(cfg: Config, s: Sys, s': Sys, c: Claimant)
    requires Advances(s, s') && ClaimantOk(cfg, s, c)
    ensures ClaimantOk(cfg, s', c)
  {
  }

  lemma CallAdvances(cfg: Config, s: Sys, s': Sys, k: Call)
    requires Advances(s, s') && CallOk(cfg, s, k)
    ensures CallOk(cfg, s', k)
  {
  }

  lemma PastAdvances(cfg: Config, s: Sys, s': Sys)
    requires SysInv(cfg, s) && Advances(s, s')
    ensures forall w :: w in s.claimants ==> ClaimantOk(cfg, s', s.claimants[w])
    ensures forall i :: 0 <= i < |s.calls| ==> CallOk(cfg, s', s.calls[i])
  {
    forall w | w in s.claimants ensures ClaimantOk(cfg, s', s.claimants[w]) {
      ClaimantAdvances(cfg, s, s', s.claimants[w]);
    }
    forall i | 0 <= i < |s.calls| ensures CallOk(cfg, s', s.calls[i]) {
      CallAdvances(cfg, s, s', s.calls[i]);
    }
  }

  // ---------- steps that leave workers and calls alone ----------

  /** Webhooks, ticks and replays: only the tables, the clock and the epochs change. */
  lemma QuietStep(cfg: Config, s: Sys, s': Sys)
    requires SysInv(cfg, s) && Advances(s, s') && Inv(s'.db)
    requires s'.claimants == s.claimants && s'.calls == s.calls
    requires JobsHeld(cfg, s')
    ensures SysInv(cfg, s')
  {
    hide Inv, ClaimantOk, CallOk, Advances;
    PastAdvances(cfg, s, s');
  }

  lemma TickKeeps(cfg: Config, s: Sys, elapsed: nat)
    requires SysInv(cfg, s)
    ensures Advances(s, s.(now := s.now + elapsed))
    ensures SysInv(cfg, s.(now := s.now + elapsed))
  {
    hide Inv;
    var s' := s.(now := s.now + elapsed);
    forall id | id in s'.db.jobs ensures id in s'.db.orders && Held(cfg, s', id) {
      assert Held(cfg, s, id);
    }
    QuietStep(cfg, s, s');
  }

  lemma WebhookKeeps(cfg: Config, s: Sys, db': Db)
    requires SysInv(cfg, s)
    requires Inv(db') && Grows(s.db, db') && JobsOnlyAdded(s.db, db', s.now, cfg)
    ensures Advances(s, s.(db := db'))
    ensures SysInv(cfg, s.(db := db'))
  {
    hide Inv;
    var s' := s.(db := db');
    forall id | id in s'.db.jobs ensures id in s'.db.orders && Held(cfg, s', id) {
      if id in s.db.jobs {
        assert Held(cfg, s, id);
        assert OrderKept(s.db.orders[id], s'.db.orders[id]);
      } else {
        assert FreshJob(db'.jobs[id], db'.orders[id], s.now, cfg);
      }
    }
    QuietStep(cfg, s, s');
  }

  // ---------- steps that write one job row ----------

  /** A job-row write, possibly with SAP's id on the order. */
  ghost predicate RowWritten(db: Db, db': Db, id: nat) {
    && id in db.jobs && db'.jobs.Keys == db.jobs.Keys
    && (forall k :: k in db.jobs && k != id ==> db'.jobs[k] == db.jobs[k])
    && db'.jobs[id].createdAt == db.jobs[id].createdAt
    && db'.orderIndex == db.orderIndex && db'.payments == db.payments
    && db'.shopEvents == db.shopEvents && db'.paymentEvents == db.paymentEvents
    && db'.orders.Keys == db.orders.Keys
    && (forall k :: k in db.orders ==> db'.orders[k] == db.orders[k].(sapId := db'.orders[k].sapId))
  }

  lemma RowWrittenGrows(db: Db, db': Db, id: nat)
    requires RowWritten(db, db', id)
    ensures Grows(db, db')
  {
  }

  lemma LockWrites(db: Db, id: nat, now: int)
    requires Inv(db) && id in db.jobs
    ensures RowWritten(db, LockJob(db, id, now), id)
    ensures Inv(LockJob(db, id, now))
  {
    hide Inv;
    assert JobSound(db.jobs[id]) by { JobIsSound(db, id); }
    UpdateJobKeepsInv(db, id, LockJob(db, id, now).jobs[id]);
  }

  lemma JobIsSound(db: Db, id: nat)
    requires Inv(db) && id in db.jobs
    ensures JobSound(db.jobs[id]) && id in db.orders && db.orders[id].state == OrderPaid
  {
  }

  lemma SyncedWrites(db: Db, id: nat, sapId: string)
    requires Inv(db) && id in db.jobs
    ensures RowWritten(db, MarkSynced(db, id, sapId), id)
    ensures Inv(MarkSynced(db, id, sapId))
  {
    hide Inv;
    var j := db.jobs[id].(status := Synced, sapId := Some(sapId), lockedAt := None, waitingSince := None);
    UpdateJobKeepsInv(db, id, j);
    SetSapIdKeepsInv(UpdateJob(db, id, j), id, sapId);
  }

  lemma FailedWrites(db: Db, id: nat, status: SyncStatus, dueAt: int, now: int)
    requires Inv(db) && id in db.jobs
    requires status == Pending || status == Waiting || status == Dead
    ensures RowWritten(db, MarkFailed(db, id, status, dueAt, now), id)
    ensures Inv(MarkFailed(db, id, status, dueAt, now))
  {
    hide Inv;
    UpdateJobKeepsInv(db, id, MarkFailed(db, id, status, dueAt, now).jobs[id]);
  }

  lemma ReplayWrites(db: Db, id: nat, now: int)
    requires Inv(db) && id in db.jobs && db.jobs[id].status == Dead
    ensures RowWritten(db, ReplayDead(db, id, now), id)
    ensures Inv(ReplayDead(db, id, now))
  {
    hide Inv;
    UpdateJobKeepsInv(db, id, ReplayDead(db, id, now).jobs[id]);
  }

  /** Writing a row of a job whose time has come keeps every job held. */
  lemma RowWrittenHolds(cfg: Config, s: Sys, s': Sys, id: nat)
    requires JobsHeld(cfg, s) && RowWritten(s.db, s'.db, id) && s'.now == s.now
    requires Earliest(cfg, s.db, id) <= s.now
    ensures JobsHeld(cfg, s')
  {
  }

  lemma RowWrittenAdvances(s: Sys, s': Sys, id: nat)
    requires RowWritten(s.db, s'.db, id) && s'.now == s.now && s'.epochs == s.epochs
    requires s'.db.jobs[id].attempts >= s.db.jobs[id].attempts
    ensures Advances(s, s')
  {
  }

  lemma ReplayKeeps(cfg: Config, s: Sys, id: nat)
    requires SysInv(cfg, s)
    ensures Advances(s, DoReplay(s, id))
    ensures SysInv(cfg, DoReplay(s, id))
  {
    hide Inv, ClaimantsOk, CallsOk, TokensDistinct;
    var s' := DoReplay(s, id);
    if id in s.db.jobs && s.db.jobs[id].status == Dead {
      ReplayWrites(s.db, id, s.now);
      RowWrittenGrows(s.db, s'.db, id);
      assert Held(cfg, s, id);
      RowWrittenHolds(cfg, s, s', id);
    } else {
      assert Grows(s.db, s'.db);
    }
    QuietStep(cfg, s, s');
  }

  // ---------- claiming ----------

  lemma ClaimKeeps(cfg: Config, s: Sys, worker: nat, job: nat, items: seq<Item>)
    requires SysInv(cfg, s) && Enabled(s, Claim(worker, job, items))
    ensures Advances(s, DoClaim(s, worker, job, items))
    ensures SysInv(cfg, DoClaim(s, worker, job, items))
  {
    hide Inv, ClaimantsOk, CallsOk, TokensDistinct, Advances;
    var s' := DoClaim(s, worker, job, items);
    LockWrites(s.db, job, s.now);
    JobIsSound(s.db, job);
    assert Held(cfg, s, job);
    RowWrittenHolds(cfg, s, s', job);
    RowWrittenAdvances(s, s', job);
    NewClaimant(cfg, s, worker, job, items);
    ClaimedAfresh(cfg, s, worker, job, items);
  }

  lemma NewClaimant(cfg: Config, s: Sys, worker: nat, job: nat, items: seq<Item>)
    requires SysInv(cfg, s) && Enabled(s, Claim(worker, job, items))
    requires s.db.orders[job].state == OrderPaid && Advances(s, DoClaim(s, worker, job, items))
    ensures ClaimantsOk(cfg, DoClaim(s, worker, job, items))
    ensures CallsOk(cfg, DoClaim(s, worker, job, items))
  {
    hide Inv, ClaimantsOk, CallsOk, TokensDistinct, Advances;
    var s' := DoClaim(s, worker, job, items);
    PastAdvances(cfg, s, s');
    var c := s'.claimants[worker];
    assert Held(cfg, s, job);
    assert ClaimantOk(cfg, s', c);
    NewClaimantJoins(cfg, s, s', worker);
  }

  lemma NewClaimantJoins(cfg: Config, s: Sys, s': Sys, worker: nat)
    requires forall w :: w in s.claimants ==> ClaimantOk(cfg, s', s.claimants[w])
    requires forall i :: 0 <= i < |s.calls| ==> CallOk(cfg, s', s.calls[i])
    requires worker in s'.claimants && s'.claimants == s.claimants[worker := s'.claimants[worker]]
    requires ClaimantOk(cfg, s', s'.claimants[worker]) && s'.calls == s.calls
    ensures ClaimantsOk(cfg, s') && CallsOk(cfg, s')
  {
  }

  /** The claim's number is one above everything issued in this epoch. */
  lemma ClaimedAfresh(cfg: Config, s: Sys, worker: nat, job: nat, items: seq<Item>)
    requires SysInv(cfg, s) && Enabled(s, Claim(worker, job, items))
    ensures TokensDistinct(DoClaim(s, worker, job, items))
  {
  }

  // ---------- deciding, answering, leaving ----------

  /** Claimants and calls are judged by tables, clock and epochs alone. */
  lemma SameTables(cfg: Config, s: Sys, s': Sys)
    requires s'.db == s.db && s'.now == s.now && s'.epochs == s.epochs
    ensures forall c :: ClaimantOk(cfg, s', c) == ClaimantOk(cfg, s, c)
    ensures forall k :: CallOk(cfg, s', k) == CallOk(cfg, s, k)
    ensures JobsHeld(cfg, s) ==> JobsHeld(cfg, s')
  {
  }

  lemma LeaveKeeps(cfg: Config, s: Sys, worker: nat)
    requires SysInv(cfg, s)
    ensures SysInv(cfg, Leave(s, worker))
  {
    hide Inv, ClaimantOk, CallOk, JobsHeld;
    SameTables(cfg, s, Leave(s, worker));
  }

  lemma PhaseKeeps(cfg: Config, s: Sys, worker: nat, phase: Phase)
    requires SysInv(cfg, s) && worker in s.claimants
    requires !phase.Claimed? && PhaseOk(cfg, s.claimants[worker].(phase := phase), s.now)
    ensures SysInv(cfg, SetPhase(s, worker, phase))
  {
    hide Inv, CallOk, JobsHeld, TokensDistinct;
    var s' := SetPhase(s, worker, phase);
    SameTables(cfg, s, s');
    assert ClaimantOk(cfg, s, s.claimants[worker]);
    assert ClaimantOk(cfg, s, s'.claimants[worker]);
    NewClaimantJoins(cfg, s, s', worker);
    PhaseDistinct(s, worker, phase);
  }

  lemma PhaseDistinct(s: Sys, worker: nat, phase: Phase)
    requires TokensDistinct(s) && worker in s.claimants && !phase.Claimed?
    ensures TokensDistinct(SetPhase(s, worker, phase))
  {
  }

  lemma DeliverKeeps(cfg: Config, s: Sys, worker: nat)
    requires SysInv(cfg, s) && Enabled(s, Deliver(worker))
    ensures SysInv(cfg, DoDeliver(cfg, s, worker))
    ensures |s.calls| <= |DoDeliver(cfg, s, worker).calls| <= |s.calls| + 1
  {
    hide Inv, CallsOk, JobsHeld, TokensDistinct;
    var c := s.claimants[worker];
    assert ClaimantOk(cfg, s, c);
    match Decide(cfg, c.snapshot.status, c.snapshot.attempts, c.snapshot.waitingSince, s.now) {
      case None => LeaveKeeps(cfg, s, worker);
      case Some(phase) =>
        PhaseKeeps(cfg, s, worker, phase);
        if phase.Calling? {
          CallKeeps(cfg, s, worker);
        }
    }
  }

  /** A worker that decided to call adds one call, under its own unused number. */
  lemma CallKeeps(cfg: Config, s: Sys, worker: nat)
    requires SysInv(cfg, s) && Enabled(s, Deliver(worker))
    requires var shot := s.claimants[worker].snapshot;
             Decide(cfg, shot.status, shot.attempts, shot.waitingSince, s.now) == Some(Calling(s.now))
    requires SysInv(cfg, SetPhase(s, worker, Calling(s.now)))
    ensures SysInv(cfg, DoDeliver(cfg, s, worker))
  {
    hide Inv, JobsHeld, TokensDistinct, SetPhase;
    var s1, s' := SetPhase(s, worker, Calling(s.now)), DoDeliver(cfg, s, worker);
    var c, k := s.claimants[worker], s'.calls[|s.calls|];
    SetPhaseFields(s, worker, Calling(s.now));
    assert ClaimantOk(cfg, s, c);
    assert CallOk(cfg, s, k);
    SameTables(cfg, s, s');
    SameTables(cfg, s1, s');
    CallJoins(cfg, s1, s', k);
    CallDistinct(s, s', worker, k);
  }

  lemma SetPhaseFields(s: Sys, worker: nat, phase: Phase)
    requires worker in s.claimants
    ensures SetPhase(s, worker, phase) == s.(claimants := s.claimants[worker := s.claimants[worker].(phase := phase)])
  {
  }

  lemma CallJoins(cfg: Config, s: Sys, s': Sys, k: Call)
    requires ClaimantsOk(cfg, s) && CallsOk(cfg, s) && CallOk(cfg, s', k)
    requires forall c :: ClaimantOk(cfg, s', c) == ClaimantOk(cfg, s, c)
    requires forall c :: CallOk(cfg, s', c) == CallOk(cfg, s, c)
    requires s'.claimants == s.claimants && s'.calls == s.calls + [k]
    ensures ClaimantsOk(cfg, s') && CallsOk(cfg, s')
  {
  }

  lemma CallDistinct(s: Sys, s': Sys, worker: nat, k: Call)
    requires TokensDistinct(s) && worker in s.claimants && s.claimants[worker].phase.Claimed?
    requires s'.claimants == s.claimants[worker := s.claimants[worker].(phase := Calling(s.now))]
    requires s'.calls == s.calls + [k] && CallToken(k) == TokenOf(s.claimants[worker])
    ensures TokensDistinct(s')
  {
  }

  lemma RespondKeeps(cfg: Config, s: Sys, worker: nat, answer: Answer)
    requires SysInv(cfg, s) && Enabled(s, Respond(worker, answer))
    ensures SysInv(cfg, DoRespond(cfg, s, worker, answer))
  {
    hide Inv, CallsOk, JobsHeld, TokensDistinct, SetPhase;
    var c := s.claimants[worker];
    assert ClaimantOk(cfg, s, c);
    PhaseKeeps(cfg, s, worker,
               match answer
               case Accepted(sapId) => Saving(c.phase.decidedAt, sapId)
               case Refused(retryable, delay) => FailureState(cfg, c.snapshot.attempts, c.phase.decidedAt, retryable, delay));
  }

  // ---------- marks ----------

  /** A statement on the row of a claimant's job, whichever claimant it comes from. */
  lemma WriteKeeps(cfg: Config, s: Sys, db': Db, id: nat)
    requires SysInv(cfg, s) && Inv(db') && RowWritten(s.db, db', id)
    requires db'.jobs[id].attempts >= s.db.jobs[id].attempts
    requires id in s.db.orders && Earliest(cfg, s.db, id) <= s.now
    ensures Advances(s, s.(db := db'))
    ensures SysInv(cfg, s.(db := db'))
  {
    hide Inv, ClaimantsOk, CallsOk, TokensDistinct;
    RowWrittenAdvances(s, s.(db := db'), id);
    RowWrittenHolds(cfg, s, s.(db := db'), id);
    QuietStep(cfg, s, s.(db := db'));
  }

  lemma SavedKeeps(cfg: Config, s: Sys, worker: nat, applied: bool)
    requires SysInv(cfg, s) && worker in s.claimants && s.claimants[worker].phase.Saving?
    ensures var c := s.claimants[worker];
            var s1 := if applied then s.(db := MarkSynced(s.db, c.job, c.phase.sapId)) else s;
            Advances(s, s1) && SysInv(cfg, s1)
  {
    hide Inv, CallsOk, JobsHeld, TokensDistinct, MarkSynced, RowWritten;
    var c := s.claimants[worker];
    assert ClaimantOk(cfg, s, c);
    if applied {
      SyncedWrites(s.db, c.job, c.phase.sapId);
      SyncedAttempts(s.db, c.job, c.phase.sapId);
      WriteKeeps(cfg, s, MarkSynced(s.db, c.job, c.phase.sapId), c.job);
    }
  }

  lemma SyncedAttempts(db: Db, id: nat, sapId: string)
    requires id in db.jobs
    ensures id in MarkSynced(db, id, sapId).jobs && MarkSynced(db, id, sapId).jobs[id].attempts == db.jobs[id].attempts
  {
  }

  lemma FailedKeeps(cfg: Config, s: Sys, worker: nat, applied: bool)
    requires SysInv(cfg, s) && worker in s.claimants && s.claimants[worker].phase.Marking?
    ensures var c := s.claimants[worker];
            var s1 := if applied then s.(db := MarkFailed(s.db, c.job, c.phase.status, c.phase.dueAt, s.now)) else s;
            Advances(s, s1) && SysInv(cfg, s1)
  {
    hide Inv, CallsOk, JobsHeld, TokensDistinct, RowWritten;
    var c := s.claimants[worker];
    assert ClaimantOk(cfg, s, c);
    if applied {
      FailedWrites(s.db, c.job, c.phase.status, c.phase.dueAt, s.now);
      WriteKeeps(cfg, s, MarkFailed(s.db, c.job, c.phase.status, c.phase.dueAt, s.now), c.job);
    }
  }

  /** Advancing looks at tables, clock and epochs only. */
  lemma AdvancesAcross(s: Sys, s1: Sys, s': Sys)
    requires Advances(s, s1) && s'.db == s1.db && s'.now == s1.now && s'.epochs == s1.epochs
    ensures Advances(s, s')
  {
  }

  lemma MarkKeeps(cfg: Config, s: Sys, worker: nat, applied: bool, reported: bool, delay: int)
    requires SysInv(cfg, s) && Enabled(s, Mark(worker, applied, reported, delay))
    ensures Advances(s, DoMark(cfg, s, worker, applied, reported, delay))
    ensures SysInv(cfg, DoMark(cfg, s, worker, applied, reported, delay))
  {
    hide Inv, CallsOk, JobsHeld, TokensDistinct, Advances, MarkSynced, MarkFailed, ClaimantOk, ClaimantsOk;
    var c := s.claimants[worker];
    var s' := DoMark(cfg, s, worker, applied, reported, delay);
    match c.phase {
      case Saving(decidedAt, sapId) =>
        SavedKeeps(cfg, s, worker, applied);
        var s1 := if applied then s.(db := MarkSynced(s.db, c.job, sapId)) else s;
        AdvancesAcross(s, s1, s');
        if reported {
          LeaveKeeps(cfg, s1, worker);
        } else {
          PhaseKeeps(cfg, s1, worker, UnsavedState(cfg, c.snapshot.attempts, decidedAt, delay));
        }
      case Marking(status, dueAt) =>
        FailedKeeps(cfg, s, worker, applied);
        var s1 := if applied then s.(db := MarkFailed(s.db, c.job, status, dueAt, s.now)) else s;
        AdvancesAcross(s, s1, s');
        LeaveKeeps(cfg, s1, worker);
    }
  }

  // ---------- every step, every run ----------

  lemma StepKeeps(cfg: Config, s: Sys, step: Step)
    requires SysInv(cfg, s) && Enabled(s, step)
    ensures Advances(s, Apply(cfg, s, step))
    ensures SysInv(cfg, Apply(cfg, s, step))
  {
    hide SysInv, ShopTx, PaymentTx, DoClaim, DoMark, DoReplay;
    match step {
      case Tick(elapsed) => TickKeeps(cfg, s, elapsed);
      case Shop(e) => ShopStepKeeps(cfg, s, e);
      case Pay(e) => PayStepKeeps(cfg, s, e);
      case Claim(worker, job, items) => ClaimKeeps(cfg, s, worker, job, items);
      case Deliver(worker) => DeliverKeeps(cfg, s, worker);
      case Respond(worker, answer) => RespondKeeps(cfg, s, worker, answer);
      case Mark(worker, applied, reported, delay) => MarkKeeps(cfg, s, worker, applied, reported, delay);
      case Crash(worker) => LeaveKeeps(cfg, s, worker);
      case Replay(job) => ReplayKeeps(cfg, s, job);
    }
  }

  lemma ShopStepKeeps(cfg: Config, s: Sys, e: ShopEvent)
    requires SysInv(cfg, s)
    ensures Advances(s, s.(db := ShopTx(s.db, e, s.now, cfg)))
    ensures SysInv(cfg, s.(db := ShopTx(s.db, e, s.now, cfg)))
  {
    hide Inv, ShopTx, ClaimantsOk, CallsOk, TokensDistinct, JobsHeld;
    ShopTxKeepsInv(s.db, e, s.now, cfg);
    ShopTxGrows(s.db, e, s.now, cfg);
    ShopTxJobs(s.db, e, s.now, cfg);
    WebhookKeeps(cfg, s, ShopTx(s.db, e, s.now, cfg));
  }

  lemma PayStepKeeps(cfg: Config, s: Sys, e: PaymentEvent)
    requires SysInv(cfg, s)
    ensures Advances(s, s.(db := PaymentTx(s.db, e, s.now, cfg)))
    ensures SysInv(cfg, s.(db := PaymentTx(s.db, e, s.now, cfg)))
  {
    hide Inv, PaymentTx, ClaimantsOk, CallsOk, TokensDistinct, JobsHeld;
    PaymentTxKeepsInv(s.db, e, s.now, cfg);
    PaymentTxGrows(s.db, e, s.now, cfg);
    PaymentTxJobs(s.db, e, s.now, cfg);
    WebhookKeeps(cfg, s, PaymentTx(s.db, e, s.now, cfg));
  }

  lemma {:induction false} RunKeeps(cfg: Config, states: seq<Sys>, steps: seq<Step>, i: nat)
    requires IsRun(cfg, states, steps) && i < |states|
    ensures SysInv(cfg, states[i])
  {
    hide Apply, Enabled;
    if i == 0 {
      EmptyInv();
    } else {
      RunKeeps(cfg, states, steps, i - 1);
      StepKeeps(cfg, states[i - 1], steps[i - 1]);
    }
  }

  lemma AdvancesTransitive(a: Sys, b: Sys, c: Sys)
    requires Advances(a, b) && Advances(b, c)
    ensures Advances(a, c)
  {
  }

  lemma GrowsKeepsJob(a: Db, b: Db, id: nat)
    requires Grows(a, b) && id in a.jobs
    ensures id in b.jobs
  {
  }

  lemma {:induction false} RunAdvances(cfg: Config, states: seq<Sys>, steps: seq<Step>, i: nat, j: nat)
    requires IsRun(cfg, states, steps) && i <= j < |states|
    ensures Advances(states[i], states[j])
    decreases j
  {
    hide Apply, Enabled;
    if i < j {
      RunAdvances(cfg, states, steps, i, j - 1);
      RunKeeps(cfg, states, steps, j - 1);
      StepKeeps(cfg, states[j - 1], steps[j - 1]);
      AdvancesTransitive(states[i], states[j - 1], states[j]);
    }
  }
}
