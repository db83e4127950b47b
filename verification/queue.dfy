/** The delivery queue: its SQL statements, and the agreement between claiming and waking up. */
module Queue {
  import opened Contracts
  import opened Tables
  import opened Lifecycle

  /** A claim older than this may be taken over. */
  const STALE_AFTER: int := 120 * SECOND

  predicate Awaiting(status: SyncStatus) {
    status == Pending || status == Waiting
  }

  /** The row filter of the claim query. */
  predicate Claimable(db: Db, now: int, id: nat) {
    && id in db.jobs && id in db.orders
    && db.orders[id].state != OrderCancelled
    && var j := db.jobs[id];
       || (Awaiting(j.status) && j.dueAt <= now)
       || (j.status == Processing && j.lockedAt.Some? && j.lockedAt.value <= now - STALE_AFTER)
  }

  /** The instant, if any, that the wake-up query reports for one job. */
  function WakeAt(db: Db, id: nat): Option<int> {
    if id !in db.jobs || id !in db.orders || db.orders[id].state == OrderCancelled then None
    else
      var j := db.jobs[id];
      if Awaiting(j.status) then Some(j.dueAt)
      else if j.status == Processing && j.lockedAt.Some? then Some(j.lockedAt.value + STALE_AFTER)
      else None
  }

  /** The claim query orders by wake-up instant and takes one row; ties are open. */
  ghost predicate Selected(db: Db, now: int, id: nat) {
    && Claimable(db, now, id)
    && forall k :: Claimable(db, now, k) ==> WakeAt(db, id).value <= WakeAt(db, k).value
  }

  ghost function WakeTimes(db: Db): set<int> {
    set id | id in db.jobs && WakeAt(db, id).Some? :: WakeAt(db, id).value
  }

  lemma SomeMember<T>(s: set<T>) returns (y: T)
    requires s != {}
    ensures y in s
  {
    y :| y in s;
  }

  lemma {:induction false} LeastExists(s: set<int>)
    requires s != {}
    ensures exists m :: m in s && forall x :: x in s ==> m <= x
    decreases |s|
  {
    var y := SomeMember(s);
    var rest := s - {y};
    if rest == {} {
      forall x | x in s ensures x == y {
        assert x == y || x in rest;
      }
    } else {
      LeastExists(rest);
      var m :| m in rest && forall x :: x in rest ==> m <= x;
      var least := if y < m then y else m;
      forall x | x in s ensures least <= x {
        assert x == y || x in rest;
      }
      assert least in s;
    }
  }

  ghost function Least(s: set<int>): (m: int)
    requires s != {}
    ensures m in s && forall x :: x in s ==> m <= x
  {
    LeastExists(s);
    var m :| m in s && forall x :: x in s ==> m <= x;
    m
  }

  /** The wake-up query: the minimum over all jobs, or NULL. */
  ghost function NextWake(db: Db): Option<int> {
    if WakeTimes(db) == {} then None else Some(Least(WakeTimes(db)))
  }

  lemma NextWakeBounds(db: Db, id: nat)
    requires WakeAt(db, id).Some?
    ensures NextWake(db).Some? && NextWake(db).value <= WakeAt(db, id).value
  {
    assert WakeAt(db, id).value in WakeTimes(db);
  }

  lemma NextWakeAttained(db: Db) returns (id: nat)
    requires NextWake(db).Some?
    ensures WakeAt(db, id) == NextWake(db)
  {
    id :| id in db.jobs && WakeAt(db, id) == NextWake(db);
  }

  /**
   Claiming and waking up agree: some job can be claimed exactly when the next
   wake-up is not in the future, and the claimed job attains that minimum.
   */
  lemma ClaimAgreesWithNextWake(db: Db, now: int)
    ensures (exists id :: Claimable(db, now, id)) <==> NextWake(db).Some? && NextWake(db).value <= now
    ensures (exists id :: Claimable(db, now, id)) ==> exists id :: Selected(db, now, id)
    ensures forall id :: Selected(db, now, id) ==> WakeAt(db, id) == NextWake(db)
  {
    if id :| Claimable(db, now, id) {
      NextWakeBounds(db, id);
    }
    if NextWake(db).Some? && NextWake(db).value <= now {
      var id := NextWakeAttained(db);
      assert Claimable(db, now, id);
      forall k | Claimable(db, now, k) ensures WakeAt(db, id).value <= WakeAt(db, k).value {
        NextWakeBounds(db, k);
      }
      assert Selected(db, now, id);
      forall k | Selected(db, now, k) ensures WakeAt(db, k) == NextWake(db) {
        NextWakeBounds(db, k);
      }
    }
  }

  /** No paid order is stranded: its job is delivered, dead, or has a wake-up instant. */
  lemma NoneStranded(db: Db, id: nat)
    requires Inv(db) && id in db.orders && db.orders[id].state == OrderPaid
    ensures id in db.jobs
    ensures db.jobs[id].status == Synced || db.jobs[id].status == Dead || WakeAt(db, id).Some?
    ensures db.jobs[id].status == Processing <==> db.jobs[id].lockedAt.Some?
  {
    assert OrderSettled(db.orders[id], FindPayment(db, db.orders[id].orderId), id in db.jobs);
  }

  // ---------- statements ----------

  function UpdateJob(db: Db, id: nat, j: Job): Db {
    if id in db.jobs then db.(jobs := db.jobs[id := j]) else db
  }

  function LockJob(db: Db, id: nat, now: int): Db {
    if id !in db.jobs then db
    else UpdateJob(db, id, db.jobs[id].(status := Processing, lockedAt := Some(now), attempts := db.jobs[id].attempts + 1))
  }

  function SetSapId(db: Db, id: nat, sapId: string): Db {
    if id in db.orders then db.(orders := db.orders[id := db.orders[id].(sapId := Some(sapId))]) else db
  }

  /** One statement over two tables: the job is done and the order carries SAP's id. */
  function MarkSynced(db: Db, id: nat, sapId: string): Db {
    if id !in db.jobs then db
    else SetSapId(UpdateJob(db, id, db.jobs[id].(status := Synced, sapId := Some(sapId), lockedAt := None, waitingSince := None)), id, sapId)
  }

  /** `waiting_since` starts on the first WAITING mark, survives further ones and is cleared by others. */
  function WaitingSince(status: SyncStatus, since: Option<int>, now: int): Option<int> {
    if status == Waiting && since.None? then Some(now) else if status == Waiting then since else None
  }

  function MarkFailed(db: Db, id: nat, status: SyncStatus, dueAt: int, now: int): Db {
    if id !in db.jobs then db
    else UpdateJob(db, id, db.jobs[id].(status := status, dueAt := dueAt, lockedAt := None,
                                        waitingSince := WaitingSince(status, db.jobs[id].waitingSince, now)))
  }

  /** The operator's replay: only a DEAD job goes back to fresh PENDING work. */
  function ReplayDead(db: Db, id: nat, now: int): Db {
    if id in db.jobs && db.jobs[id].status == Dead
    then UpdateJob(db, id, db.jobs[id].(status := Pending, dueAt := now, attempts := 0, lockedAt := None,
                                        waitingSince := None, sapId := None))
    else db
  }

  // ---------- they keep the lifecycle invariant ----------

  lemma UpdateJobKeepsInv(db: Db, id: nat, j: Job)
    requires Inv(db) && (id in db.jobs ==> JobSound(j))
    ensures Inv(UpdateJob(db, id, j))
  {
  }

  lemma SetSapIdKeepsInv(db: Db, id: nat, sapId: string)
    requires Inv(db)
    ensures Inv(SetSapId(db, id, sapId))
  {
    hide EventsStored, PaymentsSettled, OrdersSettled, JobSound;
    SameOrdersKeepEvents(db, SetSapId(db, id, sapId));
    SetSapIdKeepsSettled(db, id, sapId);
    SetSapIdKeepsIndex(db, id, sapId);
  }

  lemma SetSapIdKeepsIndex(db: Db, id: nat, sapId: string)
    requires Indexed(db)
    ensures Indexed(SetSapId(db, id, sapId))
  {
  }

  lemma SetSapIdKeepsSettled(db: Db, id: nat, sapId: string)
    requires PaymentsSettled(db) && OrdersSettled(db)
    ensures PaymentsSettled(SetSapId(db, id, sapId)) && OrdersSettled(SetSapId(db, id, sapId))
  {
  }

  lemma SameOrdersKeepEvents(db: Db, db': Db)
    requires EventsStored(db)
    requires db'.shopEvents == db.shopEvents && db'.paymentEvents == db.paymentEvents
    requires db'.payments == db.payments && db'.orderIndex == db.orderIndex && db'.orders.Keys == db.orders.Keys
    requires forall k :: k in db.orders ==> db'.orders[k].email == db.orders[k].email && db'.orders[k].items == db.orders[k].items
    ensures EventsStored(db')
  {
  }
}
