/**
 The worker's main loop beside the database: LISTEN/NOTIFY with a one-slot
 token channel, the timer armed from the wake-up query, listener loss and
 reconnection. Every interleaving with the service's own steps is allowed.
 */
module Wakeup {
  import opened Contracts
  import opened Webhooks
  import opened Lifecycle
  import opened Queue
  import opened System
  import opened Invariant
  import opened Backoff

  const RECONNECT_MIN: int := 250 * MILLISECOND

  /**
   The loop's listener. `queued`: how many notifications have reached the
   connection and are not forwarded yet; `token`: the channel's slot is taken;
   `lost`: the forwarding goroutine has ended, so its error and the closed
   channels can be seen.
   */
  datatype Listener = Down | Up(queued: nat, token: bool, lost: bool)

  /** Why the timer is set as it is: the wake-up query's answer, or a back-off. */
  datatype Plan = Wake(at: Option<int>) | Backoff

  datatype Pc =
    | Starting
    | Draining
    | Arming
    | Queried(plan: Plan)
    | Blocked(plan: Plan, timer: Option<int>, armedAt: int)

  datatype Loop = Loop(sys: Sys, listener: Listener, pc: Pc, reconnectDelay: int)

  datatype Move =
    | Service(step: Step)
    | Forward
    | LoseListener
    | FirstWatch(ok: bool)
    | DrainReturns
    | Query(ok: bool)
    | Arm
    | TakeToken
    | SeeClosed
    | SeeError
    | TimerFires(watched: bool)

  /** The trigger on `sync_jobs`: an insert, or an update that names status or due_at. */
  predicate Notifies(cfg: Config, s: Sys, step: Step)
    requires Enabled(s, step)
  {
    match step
    case Shop(_) => Apply(cfg, s, step).db.jobs != s.db.jobs
    case Pay(_) => Apply(cfg, s, step).db.jobs != s.db.jobs
    case Claim(_, _, _) => true
    case Mark(_, applied, _, _) => applied
    case Replay(job) => job in s.db.jobs && s.db.jobs[job].status == Dead
    case _ => false
  }

  /** No timer for a NULL wake-up; otherwise the wait is at least zero. */
  function ArmTimer(wakeAt: Option<int>, now: int): Option<int> {
    match wakeAt
    case None => None
    case Some(t) => Some(if t > now then t else now)
  }

  function Expired(timer: Option<int>, now: int): bool {
    timer.Some? && timer.value <= now
  }

  function Doubled(cfg: Config, delay: int): int {
    if 2 * delay > cfg.ReconnectMax() then cfg.ReconnectMax() else 2 * delay
  }

  predicate CanMove(l: Loop, m: Move) {
    match m
    case Service(step) => Enabled(l.sys, step)
    case Forward => l.listener.Up? && l.listener.queued > 0 && !l.listener.lost
    case LoseListener => l.listener.Up?
    case FirstWatch(_) => l.pc.Starting?
    case DrainReturns => l.pc.Draining?
    case Query(_) => l.pc.Arming?
    case Arm => l.pc.Queried?
    case TakeToken => l.pc.Blocked? && l.listener.Up? && l.listener.token
    case SeeClosed => l.pc.Blocked? && l.listener.Up? && l.listener.lost && !l.listener.token
    case SeeError => l.pc.Blocked? && l.listener.Up? && l.listener.lost
    case TimerFires(_) => l.pc.Blocked? && Expired(l.pc.timer, l.sys.now)
  }

  ghost function Moved(cfg: Config, l: Loop, m: Move): Loop
    requires CanMove(l, m)
  {
    match m
    case Service(step) =>
      var heard := l.listener.Up? && !l.listener.lost && Notifies(cfg, l.sys, step);
      l.(sys := Apply(cfg, l.sys, step),
         listener := if heard then l.listener.(queued := l.listener.queued + 1) else l.listener)
    case Forward => l.(listener := l.listener.(queued := l.listener.queued - 1, token := true))
    case LoseListener => l.(listener := l.listener.(queued := 0, lost := true))
    case FirstWatch(ok) => l.(listener := if ok then Up(0, false, false) else Down, pc := Draining)
    case DrainReturns => l.(pc := Arming)
    case Query(ok) => l.(pc := Queried(if l.listener.Up? && ok then Wake(NextWake(l.sys.db)) else Backoff))
    case Arm =>
      var wanted := if l.pc.plan.Wake? then l.pc.plan.at else Some(l.sys.now + l.reconnectDelay);
      l.(pc := Blocked(l.pc.plan, ArmTimer(wanted, l.sys.now), l.sys.now))
    case TakeToken => l.(listener := l.listener.(token := false), pc := Draining)
    case SeeClosed => l.(listener := Down, pc := Arming)
    case SeeError => l.(listener := Down, pc := Arming)
    case TimerFires(watched) =>
      if l.listener.Up? then l.(pc := Draining)
      else if watched then l.(listener := Up(0, false, false), pc := Arming, reconnectDelay := RECONNECT_MIN)
      else l.(pc := Arming, reconnectDelay := Doubled(cfg, l.reconnectDelay))
  }

  ghost predicate IsLoopRun(cfg: Config, states: seq<Loop>, moves: seq<Move>) {
    && |states| == |moves| + 1
    && SysInv(cfg, states[0].sys)
    && states[0] == Loop(states[0].sys, Down, Starting, RECONNECT_MIN)
    && forall i :: 0 <= i < |moves| ==> CanMove(states[i], moves[i]) && states[i + 1] == Moved(cfg, states[i], moves[i])
  }

  // ---------- the invariant ----------

  /** No job wakes before `at`, where no instant at all means no job wakes. */
  ghost predicate NoneBefore(at: Option<int>, db: Db) {
    forall id :: WakeAt(db, id).Some? ==> at.Some? && at.value <= WakeAt(db, id).value
  }

  ghost predicate Signalled(listener: Listener) {
    listener.Up? && (listener.queued > 0 || listener.token || listener.lost)
  }

  ghost function LongestPause(cfg: Config): int {
    if cfg.ReconnectMax() > RECONNECT_MIN then cfg.ReconnectMax() else RECONNECT_MIN
  }

  /** What was planned still covers every job, unless something is already on its way to the loop. */
  ghost predicate PlanCovers(l: Loop, plan: Plan) {
    plan.Wake? ==> l.listener.Up? && (Signalled(l.listener) || NoneBefore(plan.at, l.sys.db))
  }

  ghost predicate LoopInv(cfg: Config, l: Loop) {
    && SysInv(cfg, l.sys)
    && 0 < l.reconnectDelay <= LongestPause(cfg)
    && match l.pc
       case Queried(plan) => PlanCovers(l, plan)
       case Blocked(plan, timer, armedAt) =>
         && PlanCovers(l, plan)
         && armedAt <= l.sys.now
         && (plan.Wake? ==> timer == ArmTimer(plan.at, armedAt))
         && (plan.Backoff? ==> timer.Some? && timer.value <= armedAt + LongestPause(cfg))
       case _ => true
  }

  lemma NextWakeCovers(db: Db)
    ensures NoneBefore(NextWake(db), db)
  {
    forall id | WakeAt(db, id).Some? ensures NextWake(db).Some? && NextWake(db).value <= WakeAt(db, id).value {
      NextWakeBounds(db, id);
    }
  }

  /** A step that notifies nobody moves no wake-up forward: it can only remove some. */
  lemma SilentStepsOnlyDelay(cfg: Config, s: Sys, step: Step, at: Option<int>)
    requires SysInv(cfg, s) && Enabled(s, step) && !Notifies(cfg, s, step) && NoneBefore(at, s.db)
    ensures NoneBefore(at, Apply(cfg, s, step).db)
  {
    hide SysInv, Inv, ShopTx, PaymentTx;
    var s' := Apply(cfg, s, step);
    if step.Shop? || step.Pay? {
      StepKeeps(cfg, s, step);
      SysInvDb(cfg, s);
      SysInvDb(cfg, s');
      forall id | WakeAt(s'.db, id).Some? ensures WakeAt(s.db, id) == WakeAt(s'.db, id) {
        JobIsSound(s.db, id);
        JobIsSound(s'.db, id);
      }
    }
  }

  lemma ServiceKeepsLoop(cfg: Config, l: Loop, step: Step)
    requires LoopInv(cfg, l) && Enabled(l.sys, step)
    ensures LoopInv(cfg, Moved(cfg, l, Service(step)))
  {
    hide SysInv, Apply, Enabled, NoneBefore;
    StepKeeps(cfg, l.sys, step);
    assert l.sys.now <= Apply(cfg, l.sys, step).now;
    if (l.pc.Queried? || l.pc.Blocked?) && l.pc.plan.Wake? && !Signalled(l.listener) && !Notifies(cfg, l.sys, step) {
      SilentStepsOnlyDelay(cfg, l.sys, step, l.pc.plan.at);
    }
  }

  lemma MoveKeepsLoop(cfg: Config, l: Loop, m: Move)
    requires LoopInv(cfg, l) && CanMove(l, m)
    ensures LoopInv(cfg, Moved(cfg, l, m))
  {
    hide SysInv, Apply, Enabled, NoneBefore, NextWake, Notifies;
    match m {
      case Service(step) => ServiceKeepsLoop(cfg, l, step);
      case Query(ok) => NextWakeCovers(l.sys.db);
      case _ =>
    }
  }

  lemma {:induction false} LoopRunKeeps(cfg: Config, states: seq<Loop>, moves: seq<Move>, i: nat)
    requires IsLoopRun(cfg, states, moves) && i < |states|
    ensures LoopInv(cfg, states[i])
  {
    hide SysInv, Moved, CanMove;
    if i > 0 {
      LoopRunKeeps(cfg, states, moves, i - 1);
      MoveKeepsLoop(cfg, states[i - 1], moves[i - 1]);
    }
  }

  // ---------- no lost wake-up ----------

  lemma ClaimableHasWoken(db: Db, now: int, id: nat)
    requires Claimable(db, now, id)
    ensures WakeAt(db, id).Some? && WakeAt(db, id).value <= now
  {
  }

  /** The loop is blocked and nothing is ready or on its way: no signal, no expired timer. */
  ghost predicate Asleep(l: Loop) {
    l.pc.Blocked? && !Signalled(l.listener) && !Expired(l.pc.timer, l.sys.now)
  }

  /**
   No lost wake-up. While the loop sleeps on the answer of the wake-up query,
   no job is claimable and the timer goes off no later than the first job;
   while it sleeps on a back-off, the timer goes off within the longest pause.
   */
  lemma NoLostWakeup(cfg: Config, states: seq<Loop>, moves: seq<Move>, i: nat)
    requires IsLoopRun(cfg, states, moves) && i < |states| && Asleep(states[i])
    ensures var l := states[i];
            if l.pc.plan.Wake? then
              forall id :: !Claimable(l.sys.db, l.sys.now, id)
                        && (WakeAt(l.sys.db, id).Some? ==> l.pc.timer.Some? && l.pc.timer.value <= WakeAt(l.sys.db, id).value)
            else
              l.pc.timer.Some? && l.sys.now < l.pc.timer.value <= l.sys.now + LongestPause(cfg)
  {
    hide SysInv, Moved, CanMove;
    LoopRunKeeps(cfg, states, moves, i);
    var l := states[i];
    if l.pc.plan.Wake? {
      forall id ensures !Claimable(l.sys.db, l.sys.now, id)
                     && (WakeAt(l.sys.db, id).Some? ==> l.pc.timer.Some? && l.pc.timer.value <= WakeAt(l.sys.db, id).value)
      {
        assert NoneBefore(l.pc.plan.at, l.sys.db);
        if Claimable(l.sys.db, l.sys.now, id) {
          ClaimableHasWoken(l.sys.db, l.sys.now, id);
        }
      }
    }
  }

  /** The loop never sleeps on the query's answer without a listener: losing it is always noticed. */
  lemma DisconnectedMeansBackoff(cfg: Config, states: seq<Loop>, moves: seq<Move>, i: nat)
    requires IsLoopRun(cfg, states, moves) && i < |states|
    requires states[i].pc.Blocked? && states[i].listener.Down?
    ensures states[i].pc.plan.Backoff? && states[i].pc.timer.Some?
  {
    hide SysInv, Moved, CanMove;
    LoopRunKeeps(cfg, states, moves, i);
  }

  /** The loop and its listener are never stuck: unless asleep, one of them can move on its own. */
  lemma NeverStuck(l: Loop)
    requires !Asleep(l)
    ensures exists m: Move :: !m.Service? && !m.LoseListener? && CanMove(l, m)
  {
    var m := match l.pc
             case Starting => FirstWatch(true)
             case Draining => DrainReturns
             case Arming => Query(true)
             case Queried(_) => Arm
             case Blocked(_, timer, _) =>
               if Expired(timer, l.sys.now) then TimerFires(true)
               else if l.listener.token then TakeToken
               else if l.listener.lost then SeeError
               else Forward;
    assert CanMove(l, m);
  }

  // ---------- what the loop does when it wakes ----------

  /** The moves of the loop itself, as opposed to the service's and the listener's. */
  predicate Own(m: Move) {
    !m.Service? && !m.Forward? && !m.LoseListener?
  }

  /** Between the two points of the run the loop itself does nothing. */
  ghost predicate Quiet(moves: seq<Move>, i: nat, j: nat) {
    forall k :: i < k < j && k < |moves| ==> !Own(moves[k])
  }

  lemma OthersLeaveLoop(cfg: Config, l: Loop, m: Move)
    requires CanMove(l, m) && !Own(m)
    ensures var l' := Moved(cfg, l, m);
            l'.pc == l.pc && l'.reconnectDelay == l.reconnectDelay && l'.listener.Up? == l.listener.Up?
  {
    hide Apply, Notifies;
  }

  lemma {:induction false} LoopKept(cfg: Config, states: seq<Loop>, moves: seq<Move>, i: nat, j: nat)
    requires IsLoopRun(cfg, states, moves) && i < j < |states| && Quiet(moves, i, j)
    ensures states[j].pc == states[i + 1].pc && states[j].reconnectDelay == states[i + 1].reconnectDelay
    ensures states[j].listener.Up? == states[i + 1].listener.Up?
    decreases j
  {
    hide CanMove, Moved;
    if i + 1 < j {
      LoopKept(cfg, states, moves, i, j - 1);
      assert !Own(moves[j - 1]);
      OthersLeaveLoop(cfg, states[j - 1], moves[j - 1]);
    }
  }

  /** The loop is woken by this move: a token, a timer with the listener up, or the start. */
  predicate Wakes(l: Loop, m: Move) {
    m.TakeToken? || m.FirstWatch? || (m.TimerFires? && l.listener.Up?)
  }

  /** Whatever woke the loop, it drains the queue before it does anything else. */
  lemma WakingDrains(cfg: Config, states: seq<Loop>, moves: seq<Move>, i: nat, j: nat)
    requires IsLoopRun(cfg, states, moves) && i < j < |states| && Wakes(states[i], moves[i])
    requires forall k :: i < k < j ==> !moves[k].DrainReturns?
    ensures states[j].pc.Draining?
    decreases j
  {
    hide Apply, Notifies, NextWake;
    if i + 1 < j {
      WakingDrains(cfg, states, moves, i, j - 1);
    }
    assert CanMove(states[j - 1], moves[j - 1]) && states[j] == Moved(cfg, states[j - 1], moves[j - 1]);
  }

  /**
   The loop's cycle: a drain or a change of the listener is followed by the wake-up
   query, the query by arming the timer, and that by the selection of one event;
   a token and a timer with the listener up lead back to a drain.
   */
  lemma Cycle(cfg: Config, states: seq<Loop>, moves: seq<Move>, i: nat, j: nat)
    requires IsLoopRun(cfg, states, moves) && i < j < |moves| && Own(moves[i]) && Own(moves[j]) && Quiet(moves, i, j)
    ensures moves[j].DrainReturns? <==> Wakes(states[i], moves[i])
    ensures moves[j].Query? <==>
            (moves[i].DrainReturns? || moves[i].SeeClosed? || moves[i].SeeError? || (moves[i].TimerFires? && states[i].listener.Down?))
    ensures moves[j].Arm? <==> moves[i].Query?
    ensures (moves[j].TakeToken? || moves[j].SeeClosed? || moves[j].SeeError? || moves[j].TimerFires?) <==> moves[i].Arm?
  {
    hide Apply, Notifies, NextWake;
    LoopKept(cfg, states, moves, i, j);
    assert CanMove(states[i], moves[i]) && states[i + 1] == Moved(cfg, states[i], moves[i]);
    assert CanMove(states[j], moves[j]);
  }

  /**
   The timer, exactly: with a listener and an answered query it goes off at the next
   wake-up, or at once if that has passed, or never if there is none; otherwise after
   the current back-off.
   */
  lemma TimerExactly(cfg: Config, states: seq<Loop>, moves: seq<Move>, i: nat, j: nat)
    requires IsLoopRun(cfg, states, moves) && i < j < |moves| && Quiet(moves, i, j)
    requires moves[i].Query? && moves[j].Arm?
    ensures states[j + 1].pc.Blocked?
    ensures var wake := NextWake(states[i].sys.db);
            states[j + 1].pc.timer ==
            if states[i].listener.Down? || !moves[i].ok then Some(states[j].sys.now + states[i].reconnectDelay)
            else if wake.None? then None
            else if wake.value <= states[j].sys.now then Some(states[j].sys.now)
            else wake
  {
    hide Apply, Notifies, NextWake;
    LoopKept(cfg, states, moves, i, j);
    LoopRunKeeps(cfg, states, moves, j);
    assert CanMove(states[i], moves[i]) && states[i + 1] == Moved(cfg, states[i], moves[i]);
    assert CanMove(states[j], moves[j]) && states[j + 1] == Moved(cfg, states[j], moves[j]);
  }

  // ---------- reconnecting ----------

  predicate Reconnects(l: Loop, m: Move) {
    m.TimerFires? && l.listener.Down? && m.watched
  }

  predicate ReconnectFails(l: Loop, m: Move) {
    m.TimerFires? && l.listener.Down? && !m.watched
  }

  /** Failed reconnections since the last successful one. */
  ghost function Failures(states: seq<Loop>, moves: seq<Move>, i: nat): nat
    requires |states| == |moves| + 1 && i <= |moves|
  {
    if i == 0 then 0
    else if Reconnects(states[i - 1], moves[i - 1]) then 0
    else Failures(states, moves, i - 1) + if ReconnectFails(states[i - 1], moves[i - 1]) then 1 else 0
  }

  /** The back-off after `n` failures: doubled each time from a quarter of a second, up to the configured longest pause. */
  function ReconnectDelay(cfg: Config, n: nat): int {
    if n == 0 then 250_000_000
    else if 250_000_000 * Pow2(n) > cfg.ReconnectMax() then cfg.ReconnectMax()
    else 250_000_000 * Pow2(n)
  }

  lemma DelayDoubles(cfg: Config, n: nat)
    ensures ReconnectDelay(cfg, n + 1) == Doubled(cfg, ReconnectDelay(cfg, n))
  {
    Pow2Grows(n, n);
  }

  lemma DelayStep(cfg: Config, l: Loop, m: Move)
    requires CanMove(l, m)
    ensures Moved(cfg, l, m).reconnectDelay ==
            if Reconnects(l, m) then RECONNECT_MIN else if ReconnectFails(l, m) then Doubled(cfg, l.reconnectDelay) else l.reconnectDelay
    ensures Reconnects(l, m) ==> Moved(cfg, l, m).listener == Up(0, false, false)
  {
    hide Apply, Notifies, NextWake;
  }

  /** The pause between two attempts to reconnect depends only on the failures since the last success. */
  lemma {:induction false} ReconnectBackoff(cfg: Config, states: seq<Loop>, moves: seq<Move>, i: nat)
    requires IsLoopRun(cfg, states, moves) && i < |states|
    ensures states[i].reconnectDelay == ReconnectDelay(cfg, Failures(states, moves, i))
  {
    hide CanMove, Moved;
    if i > 0 {
      ReconnectBackoff(cfg, states, moves, i - 1);
      DelayStep(cfg, states[i - 1], moves[i - 1]);
      DelayDoubles(cfg, Failures(states, moves, i - 1));
    }
  }

  /** A connected listener counts as up, and still counts when it breaks, until the loop sees that it did. */
  lemma {:induction false} UpUntilSeen(cfg: Config, states: seq<Loop>, moves: seq<Move>, i: nat, j: nat)
    requires IsLoopRun(cfg, states, moves) && i < j < |states|
    requires (moves[i].FirstWatch? && moves[i].ok) || Reconnects(states[i], moves[i])
    requires forall k :: i < k < j ==> !moves[k].SeeClosed? && !moves[k].SeeError?
    ensures states[j].listener.Up? && !states[j].pc.Starting?
    decreases j
  {
    hide Apply, Notifies, NextWake;
    if i + 1 < j {
      UpUntilSeen(cfg, states, moves, i, j - 1);
    }
    assert CanMove(states[j - 1], moves[j - 1]) && states[j] == Moved(cfg, states[j - 1], moves[j - 1]);
  }

  /** A listener that could not be started, or was seen to be lost, stays down until a reconnection succeeds. */
  lemma {:induction false} DownUntilReconnected(cfg: Config, states: seq<Loop>, moves: seq<Move>, i: nat, j: nat)
    requires IsLoopRun(cfg, states, moves) && i < j < |states|
    requires moves[i].SeeClosed? || moves[i].SeeError? || (moves[i].FirstWatch? && !moves[i].ok)
    requires forall k :: i < k < j ==> !Reconnects(states[k], moves[k])
    ensures states[j].listener.Down? && !states[j].pc.Starting?
    decreases j
  {
    hide Apply, Notifies, NextWake;
    if i + 1 < j {
      DownUntilReconnected(cfg, states, moves, i, j - 1);
      assert !Reconnects(states[j - 1], moves[j - 1]);
    }
    assert CanMove(states[j - 1], moves[j - 1]) && states[j] == Moved(cfg, states[j - 1], moves[j - 1]);
  }

  // ---------- tokens are neither lost nor made up ----------

  /** The trigger fires whenever a job row changes, and never without a write. */
  lemma TriggerFires(cfg: Config, s: Sys, step: Step)
    requires Enabled(s, step)
    ensures Apply(cfg, s, step).db.jobs != s.db.jobs ==> Notifies(cfg, s, step)
    ensures step.Tick? || step.Deliver? || step.Respond? || step.Crash? ==> !Notifies(cfg, s, step)
    ensures (step.Shop? || step.Pay?) && Notifies(cfg, s, step) ==> Apply(cfg, s, step).db.jobs != s.db.jobs
  {
    hide ShopTx, PaymentTx, DoMark, Claimable;
    if step.Mark? {
      MarkTables(cfg, s, step.worker, step.applied, step.reported, step.delay);
    }
  }

  /** Notifications sent, forwarded and taken as tokens since the listener was connected. */
  datatype Counts = Counts(sent: nat, forwarded: nat, taken: nat)

  ghost function Counted(cfg: Config, states: seq<Loop>, moves: seq<Move>, i: nat): Counts
    requires IsLoopRun(cfg, states, moves) && i <= |moves|
  {
    if i == 0 then Counts(0, 0, 0)
    else
      var l, m, before := states[i - 1], moves[i - 1], Counted(cfg, states, moves, i - 1);
      if m.FirstWatch? || Reconnects(l, m) then Counts(0, 0, 0)
      else if m.Forward? then before.(forwarded := before.forwarded + 1)
      else if m.TakeToken? then before.(taken := before.taken + 1)
      else if m.Service? && Notifies(cfg, l.sys, m.step) then before.(sent := before.sent + 1)
      else before
  }

  /** Every notification is forwarded or still queued, and no more tokens are taken than forwarded. */
  ghost predicate Balanced(listener: Listener, n: Counts) {
    listener.Up? ==>
      && (!listener.lost ==> n.sent == n.forwarded + listener.queued)
      && n.forwarded <= n.sent
      && n.taken + (if listener.token then 1 else 0) <= n.forwarded
      && (n.forwarded > 0 && n.taken == 0 ==> listener.token)
  }

  lemma {:induction false} NotificationsBalance(cfg: Config, states: seq<Loop>, moves: seq<Move>, i: nat)
    requires IsLoopRun(cfg, states, moves) && i < |states|
    ensures Balanced(states[i].listener, Counted(cfg, states, moves, i))
  {
    hide SysInv, Apply, Enabled, Notifies, NextWake;
    if i > 0 {
      NotificationsBalance(cfg, states, moves, i - 1);
      assert CanMove(states[i - 1], moves[i - 1]) && states[i] == Moved(cfg, states[i - 1], moves[i - 1]);
    }
  }
}
