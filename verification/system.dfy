/**
 The whole service as a state machine: webhook transactions, any number of
 workers that may crash between any two statements, operator replays and a
 clock. `epochs` and `calls` record history: replays per job and SAP calls.
 */
module System {
  import opened Contracts
  import opened Tables
  import opened Webhooks
  import opened Lifecycle
  import opened Queue
  import opened Backoff

  /** The request body; the order id doubles as the idempotency key. */
  datatype Details = Details(orderId: string, email: string, paidAt: int, items: seq<Item>)

  /** What the claim transaction handed to the worker. */
  datatype Snapshot = Snapshot(status: SyncStatus, attempts: nat, waitingSince: Option<int>, details: Details)

  datatype Phase =
    | Claimed
    | Calling(decidedAt: int)
    | Saving(decidedAt: int, sapId: string)
    | Marking(status: SyncStatus, dueAt: int)

  /** A worker between its claim and its last mark. */
  datatype Claimant = Claimant(job: nat, snapshot: Snapshot, claimedAt: int, epoch: nat, phase: Phase)

  datatype Call = Call(job: nat, epoch: nat, attempt: nat, at: int, waitingSince: Option<int>, details: Details)

  datatype Sys = Sys(db: Db, now: int, claimants: map<nat, Claimant>, epochs: map<nat, nat>, calls: seq<Call>)

  /** SAP's answer, with the delay drawn for a retry. */
  datatype Answer = Accepted(sapId: string) | Refused(retryable: bool, delay: int)

  datatype Step =
    | Tick(elapsed: nat)
    | Shop(shop: ShopEvent)
    | Pay(payment: PaymentEvent)
    | Claim(worker: nat, job: nat, items: seq<Item>)
    | Deliver(worker: nat)
    | Respond(worker: nat, answer: Answer)
    | Mark(worker: nat, applied: bool, reported: bool, delay: int)
    | Crash(worker: nat)
    | Replay(job: nat)

  // ---------- the worker's decisions ----------

  predicate RecoveryWindowExpired(cfg: Config, waitingSince: Option<int>, now: int) {
    waitingSince.Some? && now >= waitingSince.value + cfg.RecoveryWindow()
  }

  /** What `deliver` does first: skip a dead job, give up, or call SAP. */
  function Decide(cfg: Config, status: SyncStatus, attempts: nat, waitingSince: Option<int>, now: int): Option<Phase> {
    if status == Dead then None
    else if RecoveryWindowExpired(cfg, waitingSince, now) then Some(Marking(Dead, now))
    else if attempts > cfg.MaxTotalAttempts() then Some(Marking(Dead, now))
    else Some(Calling(now))
  }

  /** Status and due time after a failed call decided at `now`. */
  function FailureState(cfg: Config, attempts: nat, now: int, retryable: bool, delay: int): Phase {
    if !retryable || attempts >= cfg.MaxTotalAttempts() then Marking(Dead, now)
    else Marking(if attempts >= cfg.MaxAttempts() then Waiting else Pending, now + delay)
  }

  /** Status and due time after SAP accepted the order but storing that failed. */
  function UnsavedState(cfg: Config, attempts: nat, now: int, delay: int): Phase {
    Marking(if attempts >= cfg.MaxTotalAttempts() then Dead else Pending, now + delay)
  }

  function EpochOf(s: Sys, job: nat): nat {
    if job in s.epochs then s.epochs[job] else 0
  }

  predicate ValidDelay(delay: int) {
    0 <= delay <= MAX_RETRY_DELAY
  }

  // ---------- steps ----------

  predicate Enabled(s: Sys, step: Step) {
    match step
    case Tick(_) => true
    case Shop(_) => true
    case Pay(_) => true
    case Claim(worker, job, items) =>
      && worker !in s.claimants && Claimable(s.db, s.now, job)
      && s.db.orders[job].paidAt.Some? && multiset(items) == multiset(s.db.orders[job].items)
    case Deliver(worker) => worker in s.claimants && s.claimants[worker].phase.Claimed?
    case Respond(worker, answer) =>
      worker in s.claimants && s.claimants[worker].phase.Calling? && (answer.Refused? ==> ValidDelay(answer.delay))
    case Mark(worker, _, _, delay) =>
      worker in s.claimants && (s.claimants[worker].phase.Saving? || s.claimants[worker].phase.Marking?) && ValidDelay(delay)
    case Crash(worker) => worker in s.claimants
    case Replay(_) => true
  }

  function DoClaim(s: Sys, worker: nat, job: nat, items: seq<Item>): Sys
    requires Enabled(s, Claim(worker, job, items))
  {
    var row, o := s.db.jobs[job], s.db.orders[job];
    var snapshot := Snapshot(row.status, row.attempts + 1, row.waitingSince, Details(o.orderId, o.email, o.paidAt.value, items));
    s.(db := LockJob(s.db, job, s.now),
       claimants := s.claimants[worker := Claimant(job, snapshot, s.now, EpochOf(s, job), Claimed)])
  }

  function SetPhase(s: Sys, worker: nat, phase: Phase): Sys
    requires worker in s.claimants
  {
    s.(claimants := s.claimants[worker := s.claimants[worker].(phase := phase)])
  }

  function Leave(s: Sys, worker: nat): Sys {
    s.(claimants := s.claimants - {worker})
  }

  function DoDeliver(cfg: Config, s: Sys, worker: nat): Sys
    requires worker in s.claimants
  {
    var c := s.claimants[worker];
    match Decide(cfg, c.snapshot.status, c.snapshot.attempts, c.snapshot.waitingSince, s.now)
    case None => Leave(s, worker)
    case Some(phase) =>
      var s1 := SetPhase(s, worker, phase);
      if phase.Calling?
      then s1.(calls := s.calls + [Call(c.job, c.epoch, c.snapshot.attempts, s.now, c.snapshot.waitingSince, c.snapshot.details)])
      else s1
  }

  function DoRespond(cfg: Config, s: Sys, worker: nat, answer: Answer): Sys
    requires worker in s.claimants && s.claimants[worker].phase.Calling?
  {
    var c := s.claimants[worker];
    SetPhase(s, worker,
             match answer
             case Accepted(sapId) => Saving(c.phase.decidedAt, sapId)
             case Refused(retryable, delay) => FailureState(cfg, c.snapshot.attempts, c.phase.decidedAt, retryable, delay))
  }

  /**
   The pending UPDATE runs. `applied` says whether it took effect and
   `reported` whether the worker saw it succeed; after a lost connection the
   two can differ.
   */
  function DoMark(cfg: Config, s: Sys, worker: nat, applied: bool, reported: bool, delay: int): Sys
    requires worker in s.claimants && (s.claimants[worker].phase.Saving? || s.claimants[worker].phase.Marking?)
  {
    var c := s.claimants[worker];
    match c.phase
    case Saving(decidedAt, sapId) =>
      var s1 := if applied then s.(db := MarkSynced(s.db, c.job, sapId)) else s;
      if reported then Leave(s1, worker)
      else SetPhase(s1, worker, UnsavedState(cfg, c.snapshot.attempts, decidedAt, delay))
    case Marking(status, dueAt) =>
      Leave(if applied then s.(db := MarkFailed(s.db, c.job, status, dueAt, s.now)) else s, worker)
  }

  function DoReplay(s: Sys, job: nat): Sys {
    if job in s.db.jobs && s.db.jobs[job].status == Dead
    then s.(db := ReplayDead(s.db, job, s.now), epochs := s.epochs[job := EpochOf(s, job) + 1])
    else s
  }

  function Apply(cfg: Config, s: Sys, step: Step): Sys
    requires Enabled(s, step)
  {
    match step
    case Tick(elapsed) => s.(now := s.now + elapsed)
    case Shop(e) => s.(db := ShopTx(s.db, e, s.now, cfg))
    case Pay(e) => s.(db := PaymentTx(s.db, e, s.now, cfg))
    case Claim(worker, job, items) => DoClaim(s, worker, job, items)
    case Deliver(worker) => DoDeliver(cfg, s, worker)
    case Respond(worker, answer) => DoRespond(cfg, s, worker, answer)
    case Mark(worker, applied, reported, delay) => DoMark(cfg, s, worker, applied, reported, delay)
    case Crash(worker) => Leave(s, worker)
    case Replay(job) => DoReplay(s, job)
  }

  ghost predicate IsRun(cfg: Config, states: seq<Sys>, steps: seq<Step>) {
    && |states| == |steps| + 1
    && states[0] == Sys(EMPTY_DB, states[0].now, map[], map[], [])
    && forall i :: 0 <= i < |steps| ==> Enabled(states[i], steps[i]) && states[i + 1] == Apply(cfg, states[i], steps[i])
  }

  // ---------- how one step changes the tables ----------

  /** A job row as the webhook transactions insert it. */
  ghost predicate FreshJob(j: Job, o: Order, now: int, cfg: Config) {
    j == NewJob(now, now + DelaySeconds(o.items, cfg) * SECOND)
  }

  /** Webhook transactions leave existing jobs alone and add only fresh ones. */
  ghost predicate JobsOnlyAdded(db: Db, db': Db, now: int, cfg: Config) {
    && (forall id :: id in db.jobs ==> id in db'.jobs && db'.jobs[id] == db.jobs[id])
    && (forall id :: id in db'.jobs && id !in db.jobs ==> id in db'.orders && FreshJob(db'.jobs[id], db'.orders[id], now, cfg))
  }

  lemma ShopTxJobs(db: Db, e: ShopEvent, now: int, cfg: Config)
    requires Inv(db)
    ensures JobsOnlyAdded(db, ShopTx(db, e, now, cfg), now, cfg)
  {
    hide ProcessShop;
    if e.orderId in db.orderIndex {
      ShopRepeat(db, e, now, cfg);
    } else if e.eventId !in db.shopEvents {
      ShopEffect(db, e, now, cfg);
      ShopArrivesJobs(db, e, now, cfg);
    } else {
      ShopReuse(db, e, now, cfg);
    }
  }

  lemma ShopArrivesJobs(db: Db, e: ShopEvent, now: int, cfg: Config)
    requires Indexed(db) && JobsSound(db)
    ensures JobsOnlyAdded(db, ShopArrives(db, e, now, cfg), now, cfg)
  {
  }

  lemma PaymentTxJobs(db: Db, e: PaymentEvent, now: int, cfg: Config)
    requires Inv(db)
    ensures JobsOnlyAdded(db, PaymentTx(db, e, now, cfg), now, cfg)
  {
    hide ProcessPayment, PaymentArrives;
    if e.eventId in db.paymentEvents {
      PaymentRepeat(db, e, now, cfg);
    } else if Open(db, e.reference) {
      PaymentEffect(db, e, now, cfg);
      PaymentArrivesAddsJob(db, e, now, cfg);
    } else {
      PaymentAfterEnd(db, e, now, cfg);
    }
  }

  lemma PaymentArrivesAddsJob(db: Db, e: PaymentEvent, now: int, cfg: Config)
    requires Indexed(db) && OrdersSettled(db) && Open(db, e.reference)
    ensures JobsOnlyAdded(db, PaymentArrives(db, e, now, cfg), now, cfg)
  {
  }

  /** Deciding, answering, crashing and waiting write nothing. */
  lemma QuietSteps(cfg: Config, s: Sys, step: Step)
    requires Enabled(s, step) && (step.Tick? || step.Deliver? || step.Respond? || step.Crash?)
    ensures Apply(cfg, s, step).db == s.db
  {
  }

  /** The tables after a mark. */
  lemma MarkTables(cfg: Config, s: Sys, worker: nat, applied: bool, reported: bool, delay: int)
    requires Enabled(s, Mark(worker, applied, reported, delay))
    ensures var c := s.claimants[worker];
            DoMark(cfg, s, worker, applied, reported, delay).db ==
            if !applied then s.db
            else if c.phase.Saving? then MarkSynced(s.db, c.job, c.phase.sapId)
            else MarkFailed(s.db, c.job, c.phase.status, c.phase.dueAt, s.now)
  {
  }
}
