/**
 In-flight SAP calls, coalesced per idempotency key: the first caller owns the
 call and posts it, later callers with the same body wait for its result.
 */
module Coalescing {
  import opened Contracts

  type Key = string
  type Body = string

  /** What SyncOrder returns: SAP's id, or an error. */
  datatype Response = Synchronized(sapId: string) | Failure(message: string)

  /** A call record; `result` is set when its `done` channel is closed. */
  datatype CallRecord = CallRecord(key: Key, body: Body, owner: nat, result: Option<Response>)

  datatype Outcome =
    | Got(call: nat, response: Response)
    | EmptyKey
    | ReusedKey
    | Interrupted

  datatype Stage =
    | Owning(call: nat)
    | Posting(call: nat)
    | Finishing(call: nat, response: Response)
    | Waiting(call: nat)
    | Returned(outcome: Outcome)

  datatype Caller = Caller(key: Key, body: Body, stage: Stage)

  /** The client's map, every call record ever made, and every caller ever seen. */
  datatype State = State(inflight: map<Key, nat>, calls: seq<CallRecord>, callers: map<nat, Caller>)

  const INITIAL: State := State(map[], [], map[])

  /** Each step is atomic: it runs under the mutex or touches one caller only. */
  datatype Step =
    | Enter(caller: nat, key: Key, body: Body)
    | Post(caller: nat)
    | Answer(caller: nat, response: Response)
    | Finish(caller: nat)
    | Observe(caller: nat)
    | GiveUp(caller: nat)

  predicate Enabled(s: State, step: Step) {
    match step
    case Enter(c, _, _) => c !in s.callers
    case Post(c) => c in s.callers && s.callers[c].stage.Owning?
    case Answer(c, _) => c in s.callers && (s.callers[c].stage.Owning? || s.callers[c].stage.Posting?)
    case Finish(c) =>
      c in s.callers && s.callers[c].stage.Finishing? && s.callers[c].stage.call < |s.calls|
    case Observe(c) =>
      && c in s.callers && s.callers[c].stage.Waiting? && s.callers[c].stage.call < |s.calls|
      && s.calls[s.callers[c].stage.call].result.Some?
    case GiveUp(c) => c in s.callers && s.callers[c].stage.Waiting?
  }

  function SetStage(s: State, c: nat, stage: Stage): State
    requires c in s.callers
  {
    s.(callers := s.callers[c := s.callers[c].(stage := stage)])
  }

  function DoEnter(s: State, c: nat, key: Key, body: Body): State {
    if key == "" then s.(callers := s.callers[c := Caller(key, body, Returned(EmptyKey))])
    else if key in s.inflight && s.inflight[key] < |s.calls| then
      var call := s.inflight[key];
      if s.calls[call].body != body then s.(callers := s.callers[c := Caller(key, body, Returned(ReusedKey))])
      else s.(callers := s.callers[c := Caller(key, body, Stage.Waiting(call))])
    else
      var call := |s.calls|;
      State(s.inflight[key := call], s.calls + [CallRecord(key, body, c, None)],
            s.callers[c := Caller(key, body, Owning(call))])
  }

  /** The deferred block: publish the result, forget the key, close the channel. */
  function DoFinish(s: State, c: nat): State
    requires c in s.callers && s.callers[c].stage.Finishing? && s.callers[c].stage.call < |s.calls|
  {
    var call, response := s.callers[c].stage.call, s.callers[c].stage.response;
    State(s.inflight - {s.callers[c].key},
          s.calls[call := s.calls[call].(result := Some(response))],
          s.callers[c := s.callers[c].(stage := Returned(Got(call, response)))])
  }

  function Apply(s: State, step: Step): State
    requires Enabled(s, step)
  {
    match step
    case Enter(c, key, body) => DoEnter(s, c, key, body)
    case Post(c) => SetStage(s, c, Posting(s.callers[c].stage.call))
    case Answer(c, response) => SetStage(s, c, Finishing(s.callers[c].stage.call, response))
    case Finish(c) => DoFinish(s, c)
    case Observe(c) =>
      var call := s.callers[c].stage.call;
      SetStage(s, c, Returned(Got(call, s.calls[call].result.value)))
    case GiveUp(c) => SetStage(s, c, Returned(Interrupted))
  }

  ghost predicate IsRun(states: seq<State>, steps: seq<Step>) {
    && |states| == |steps| + 1 && states[0] == INITIAL
    && forall i :: 0 <= i < |steps| ==> Enabled(states[i], steps[i]) && states[i + 1] == Apply(states[i], steps[i])
  }

  // ---------- the invariant ----------

  /** The call a caller is responsible for and has not finished. */
  predicate Owns(caller: Caller, call: nat) {
    && (caller.stage.Owning? || caller.stage.Posting? || caller.stage.Finishing?)
    && caller.stage.call == call
  }

  predicate SameRequest(caller: Caller, record: CallRecord) {
    caller.key == record.key && caller.body == record.body
  }

  /** Every call belongs to its owner; it is open, and in the map, until the owner returns with its result. */
  ghost predicate CallOk(s: State, call: nat)
    requires call < |s.calls|
  {
    var r := s.calls[call];
    && r.owner in s.callers && SameRequest(s.callers[r.owner], r)
    && match r.result
       case None => Owns(s.callers[r.owner], call) && r.key in s.inflight && s.inflight[r.key] == call
       case Some(response) => s.callers[r.owner].stage == Returned(Got(call, response))
  }

  ghost predicate CallerOk(s: State, c: nat)
    requires c in s.callers
  {
    var caller := s.callers[c];
    match caller.stage
    case Waiting(call) => call < |s.calls| && SameRequest(caller, s.calls[call])
    case Returned(Got(call, response)) =>
      call < |s.calls| && SameRequest(caller, s.calls[call]) && s.calls[call].result == Some(response)
    case Returned(_) => true
    case _ =>
      && caller.stage.call < |s.calls| && s.calls[caller.stage.call].owner == c
      && s.calls[caller.stage.call].result.None?
  }

  ghost predicate MapOk(s: State, key: Key)
    requires key in s.inflight
  {
    s.inflight[key] < |s.calls| && s.calls[s.inflight[key]].key == key && s.calls[s.inflight[key]].result.None?
  }

  ghost predicate Inv(s: State) {
    && (forall call: nat :: call < |s.calls| ==> CallOk(s, call))
    && (forall c :: c in s.callers ==> CallerOk(s, c))
    && (forall key :: key in s.inflight ==> MapOk(s, key))
  }

  lemma EnterKeeps(s: State, c: nat, key: Key, body: Body)
    requires Inv(s) && c !in s.callers
    ensures Inv(DoEnter(s, c, key, body))
  {
    var s' := DoEnter(s, c, key, body);
    forall call: nat | call < |s'.calls| ensures CallOk(s', call) {
      if call < |s.calls| { assert CallOk(s, call); }
    }
    forall k | k in s'.callers ensures CallerOk(s', k) {
      if k != c { assert CallerOk(s, k); }
    }
    forall k | k in s'.inflight ensures MapOk(s', k) {
      if k in s.inflight { assert MapOk(s, k); }
    }
  }

  /** A caller moves on without touching call records or the map. */
  lemma StageKeeps(s: State, c: nat, stage: Stage)
    requires Inv(s) && c in s.callers
    requires var was := s.callers[c].stage;
             || (Owns(s.callers[c], if was.Returned? then 0 else was.call)
                 && (stage.Posting? || stage.Finishing?) && stage.call == was.call)
             || (was.Waiting? && stage == Returned(Interrupted))
             || (was.Waiting? && was.call < |s.calls| && s.calls[was.call].result.Some?
                 && stage == Returned(Got(was.call, s.calls[was.call].result.value)))
    ensures Inv(SetStage(s, c, stage))
  {
    var s' := SetStage(s, c, stage);
    assert CallerOk(s, c);
    forall call: nat | call < |s'.calls| ensures CallOk(s', call) {
      assert CallOk(s, call);
    }
    forall k | k in s'.callers ensures CallerOk(s', k) {
      assert CallerOk(s, k);
    }
    forall k | k in s'.inflight ensures MapOk(s', k) {
      assert MapOk(s, k);
    }
  }

  lemma FinishKeeps(s: State, c: nat)
    requires Inv(s) && Enabled(s, Finish(c))
    ensures Inv(DoFinish(s, c))
    ensures s.calls[s.callers[c].stage.call].result.None?
  {
    var s' := DoFinish(s, c);
    assert CallerOk(s, c);
    var done := s.callers[c].stage.call;
    assert CallOk(s, done);
    forall call: nat | call < |s'.calls| ensures CallOk(s', call) {
      assert CallOk(s, call);
    }
    forall k | k in s'.callers ensures CallerOk(s', k) {
      assert CallerOk(s, k);
    }
    forall k | k in s'.inflight ensures MapOk(s', k) {
      assert MapOk(s, k);
    }
  }

  lemma StepKeeps(s: State, step: Step)
    requires Inv(s) && Enabled(s, step)
    ensures Inv(Apply(s, step))
  {
    hide Inv, DoEnter, DoFinish, SetStage;
    match step {
      case Enter(c, key, body) => EnterKeeps(s, c, key, body);
      case Finish(c) => FinishKeeps(s, c);
      case Post(c) => StageKeeps(s, c, Posting(s.callers[c].stage.call));
      case Answer(c, response) => StageKeeps(s, c, Finishing(s.callers[c].stage.call, response));
      case Observe(c) => StageKeeps(s, c, Returned(Got(s.callers[c].stage.call, s.calls[s.callers[c].stage.call].result.value)));
      case GiveUp(c) => StageKeeps(s, c, Returned(Interrupted));
    }
  }

  lemma {:induction false} RunKeeps(states: seq<State>, steps: seq<Step>, i: nat)
    requires IsRun(states, steps) && i < |states|
    ensures Inv(states[i])
  {
    hide Apply, Enabled;
    if i > 0 {
      RunKeeps(states, steps, i - 1);
      StepKeeps(states[i - 1], steps[i - 1]);
    }
  }

  // ---------- theorems ----------

  /** A key is in the map exactly when one caller owns an unfinished call for it; two never do. */
  lemma MapHoldsActiveOwners(states: seq<State>, steps: seq<Step>, i: nat, key: Key)
    requires IsRun(states, steps) && i < |states|
    ensures key in states[i].inflight <==> exists c: nat, call: nat :: ActiveOwner(states[i], key, c, call)
    ensures forall c: nat, call: nat, c': nat, call': nat ::
              ActiveOwner(states[i], key, c, call) && ActiveOwner(states[i], key, c', call') ==> c == c' && call == call'
  {
    hide Apply, Enabled;
    RunKeeps(states, steps, i);
    var s := states[i];
    if key in s.inflight {
      assert MapOk(s, key);
      var call := s.inflight[key];
      assert CallOk(s, call);
      assert ActiveOwner(s, key, s.calls[call].owner, call);
    }
    forall c: nat, call: nat | ActiveOwner(s, key, c, call)
      ensures call < |s.calls| && s.calls[call].owner == c && key in s.inflight && s.inflight[key] == call
    {
      assert CallerOk(s, c);
      assert CallOk(s, call);
    }
  }

  ghost predicate ActiveOwner(s: State, key: Key, c: nat, call: nat) {
    c in s.callers && s.callers[c].key == key && Owns(s.callers[c], call)
  }

  /** At most one POST is on the wire per key. */
  lemma OnePostPerKey(states: seq<State>, steps: seq<Step>, i: nat, c: nat, c': nat)
    requires IsRun(states, steps) && i < |states|
    requires c in states[i].callers && c' in states[i].callers
    requires states[i].callers[c].stage.Posting? && states[i].callers[c'].stage.Posting?
    requires states[i].callers[c].key == states[i].callers[c'].key
    ensures c == c'
  {
    hide Apply, Enabled;
    var s, key := states[i], states[i].callers[c].key;
    MapHoldsActiveOwners(states, steps, i, key);
    assert ActiveOwner(s, key, c, s.callers[c].stage.call) && ActiveOwner(s, key, c', s.callers[c'].stage.call);
  }

  /** Each call is completed exactly once: the owner finds it open, and afterwards its result never changes. */
  lemma {:induction false} CompletedOnce(states: seq<State>, steps: seq<Step>, i: nat, j: nat, call: nat)
    requires IsRun(states, steps) && i <= j < |states| && call < |states[i].calls|
    ensures call < |states[j].calls|
    ensures states[i].calls[call].result.Some? ==> states[j].calls[call] == states[i].calls[call]
    decreases j
  {
    hide Apply, Enabled;
    if i < j {
      CompletedOnce(states, steps, i, j - 1, call);
      RunKeeps(states, steps, j - 1);
      ResultFixed(states[j - 1], steps[j - 1], call);
    }
  }

  lemma ResultFixed(s: State, step: Step, call: nat)
    requires Inv(s) && Enabled(s, step) && call < |s.calls|
    ensures call < |Apply(s, step).calls|
    ensures s.calls[call].result.Some? ==> Apply(s, step).calls[call] == s.calls[call]
  {
  }

  /**
   Whoever returns with a result got the result its call's owner returned with,
   for a request equal to its own in key and body.
   */
  lemma WaitersGetTheOwnersResult(states: seq<State>, steps: seq<Step>, i: nat, c: nat)
    requires IsRun(states, steps) && i < |states| && c in states[i].callers
    requires states[i].callers[c].stage.Returned? && states[i].callers[c].stage.outcome.Got?
    ensures var s, got := states[i], states[i].callers[c].stage.outcome;
            && got.call < |s.calls|
            && SameRequest(s.callers[c], s.calls[got.call])
            && s.calls[got.call].owner in s.callers
            && SameRequest(s.callers[s.calls[got.call].owner], s.calls[got.call])
            && s.callers[s.calls[got.call].owner].stage == Returned(got)
  {
    hide Apply, Enabled;
    RunKeeps(states, steps, i);
    assert CallerOk(states[i], c);
    assert CallOk(states[i], states[i].callers[c].stage.outcome.call);
  }

  // ---------- where every outcome comes from ----------

  /** The owner of the call hears this response from SAP. */
  ghost predicate AnsweredAt(s: State, step: Step, call: nat, r: Response) {
    && step.Answer? && step.response == r && step.caller in s.callers && Owns(s.callers[step.caller], call)
    && call < |s.calls| && s.calls[call].owner == step.caller
  }

  ghost predicate AnsweredBefore(states: seq<State>, steps: seq<Step>, i: nat, call: nat, r: Response)
    requires |states| == |steps| + 1 && i <= |steps|
  {
    exists k :: 0 <= k < i && AnsweredAt(states[k], steps[k], call, r)
  }

  lemma StillAnswered(states: seq<State>, steps: seq<Step>, i: nat, call: nat, r: Response)
    requires |states| == |steps| + 1 && i < |steps| && AnsweredBefore(states, steps, i, call, r)
    ensures AnsweredBefore(states, steps, i + 1, call, r)
  {
  }

  lemma FinishingOrigin(s: State, step: Step, c: nat)
    requires Inv(s) && Enabled(s, step) && c in Apply(s, step).callers && Apply(s, step).callers[c].stage.Finishing?
    ensures var stage := Apply(s, step).callers[c].stage;
            (c in s.callers && s.callers[c].stage == stage) || AnsweredAt(s, step, stage.call, stage.response)
  {
    assert c in s.callers ==> CallerOk(s, c);
  }

  lemma ResultOrigin(s: State, step: Step, call: nat)
    requires Enabled(s, step) && call < |Apply(s, step).calls| && Apply(s, step).calls[call].result.Some?
    ensures var r := Apply(s, step).calls[call].result.value;
            || (call < |s.calls| && s.calls[call].result == Some(r))
            || (step.Finish? && s.callers[step.caller].stage == Finishing(call, r))
  {
  }

  /** Responses about to be published, and published ones, are SAP's. */
  ghost predicate Truthful(states: seq<State>, steps: seq<Step>, i: nat)
    requires |states| == |steps| + 1 && i <= |steps|
  {
    && (forall c :: c in states[i].callers && states[i].callers[c].stage.Finishing? ==>
          AnsweredBefore(states, steps, i, states[i].callers[c].stage.call, states[i].callers[c].stage.response))
    && (forall call :: 0 <= call < |states[i].calls| && states[i].calls[call].result.Some? ==>
          AnsweredBefore(states, steps, i, call, states[i].calls[call].result.value))
  }

  lemma {:induction false} RunTruthful(states: seq<State>, steps: seq<Step>, i: nat)
    requires IsRun(states, steps) && i < |states|
    ensures Truthful(states, steps, i)
  {
    hide Apply, Enabled, Inv, AnsweredAt;
    if i > 0 {
      RunTruthful(states, steps, i - 1);
      RunKeeps(states, steps, i - 1);
      var s, s', step := states[i - 1], states[i], steps[i - 1];
      forall c | c in s'.callers && s'.callers[c].stage.Finishing?
        ensures AnsweredBefore(states, steps, i, s'.callers[c].stage.call, s'.callers[c].stage.response)
      {
        FinishingOrigin(s, step, c);
        if c in s.callers && s.callers[c].stage == s'.callers[c].stage {
          StillAnswered(states, steps, i - 1, s'.callers[c].stage.call, s'.callers[c].stage.response);
        }
      }
      forall call | 0 <= call < |s'.calls| && s'.calls[call].result.Some?
        ensures AnsweredBefore(states, steps, i, call, s'.calls[call].result.value)
      {
        ResultOrigin(s, step, call);
        FinisherKnown(s, step);
        StillAnswered(states, steps, i - 1, call, s'.calls[call].result.value);
      }
    }
  }

  lemma FinisherKnown(s: State, step: Step)
    requires Enabled(s, step)
    ensures step.Finish? ==> step.caller in s.callers
  {
  }

  /** Whoever returns a result, owner or waiter, returns what SAP answered to the owner of that call before. */
  lemma ResultsAreSaps(states: seq<State>, steps: seq<Step>, i: nat, c: nat)
    requires IsRun(states, steps) && i < |states| && c in states[i].callers
    requires states[i].callers[c].stage.Returned? && states[i].callers[c].stage.outcome.Got?
    ensures AnsweredBefore(states, steps, i, states[i].callers[c].stage.outcome.call, states[i].callers[c].stage.outcome.response)
  {
    hide Apply, Enabled;
    RunKeeps(states, steps, i);
    RunTruthful(states, steps, i);
    assert CallerOk(states[i], c);
  }

  /** The newcomer finds another body in flight under its key. */
  ghost predicate FindsOther(s: State, key: Key, body: Body) {
    key in s.inflight && s.inflight[key] < |s.calls| && s.calls[s.inflight[key]].body != body
  }

  lemma CallerStep(s: State, step: Step, c: nat)
    requires Inv(s) && Enabled(s, step) && c in Apply(s, step).callers
    ensures var caller := Apply(s, step).callers[c];
            if c in s.callers then
              && caller.key == s.callers[c].key && caller.body == s.callers[c].body
              && (caller.stage == Returned(EmptyKey) <==> s.callers[c].stage == Returned(EmptyKey))
              && (caller.stage == Returned(ReusedKey) <==> s.callers[c].stage == Returned(ReusedKey))
              && (caller.stage == Returned(Interrupted) <==> s.callers[c].stage == Returned(Interrupted) || step == GiveUp(c))
            else
              && step == Enter(c, caller.key, caller.body)
              && (caller.stage == Returned(EmptyKey) <==> caller.key == "")
              && (caller.stage == Returned(ReusedKey) <==> caller.key != "" && FindsOther(s, caller.key, caller.body))
              && caller.stage != Returned(Interrupted)
  {
    assert c in s.callers ==> CallerOk(s, c);
  }

  /**
   Calls without a result: every caller entered once with its own key and body; it
   is refused exactly for an empty key, or for another body in flight under its key
   when it entered; and it is interrupted exactly when it gave up waiting.
   */
  lemma {:induction false} OutcomesExplained(states: seq<State>, steps: seq<Step>, i: nat, c: nat) returns (k: nat)
    requires IsRun(states, steps) && i < |states| && c in states[i].callers
    ensures var caller := states[i].callers[c];
            && k < i && steps[k] == Enter(c, caller.key, caller.body) && c !in states[k].callers
            && (caller.stage == Returned(EmptyKey) <==> caller.key == "")
            && (caller.stage == Returned(ReusedKey) <==> caller.key != "" && FindsOther(states[k], caller.key, caller.body))
            && (caller.stage == Returned(Interrupted) <==> exists n :: k < n < i && steps[n] == GiveUp(c))
  {
    hide Apply, Enabled, Inv;
    RunKeeps(states, steps, i - 1);
    CallerStep(states[i - 1], steps[i - 1], c);
    if c in states[i - 1].callers {
      k := OutcomesExplained(states, steps, i - 1, c);
      if n :| k < n < i && steps[n] == GiveUp(c) {
        assert n < i - 1 || steps[i - 1] == GiveUp(c);
      }
    } else {
      k := i - 1;
    }
  }

  /** The protocol never deadlocks: an unreturned caller, or the owner it waits for, can move; and every answer is possible. */
  lemma SomeoneCanMove(states: seq<State>, steps: seq<Step>, i: nat, c: nat)
    requires IsRun(states, steps) && i < |states| && c in states[i].callers && !states[i].callers[c].stage.Returned?
    ensures states[i].callers[c].stage.call < |states[i].calls|
    ensures var s := states[i];
            var mover := if s.callers[c].stage.Waiting? && s.calls[s.callers[c].stage.call].result.None?
                         then s.calls[s.callers[c].stage.call].owner else c;
            && mover in s.callers
            && match s.callers[mover].stage
               case Owning(_) => Enabled(s, Post(mover)) && forall r: Response :: Enabled(s, Answer(mover, r))
               case Posting(_) => forall r: Response :: Enabled(s, Answer(mover, r))
               case Finishing(_, _) => Enabled(s, Finish(mover))
               case Waiting(_) => Enabled(s, Observe(mover))
               case Returned(_) => false
  {
    hide Apply;
    RunKeeps(states, steps, i);
    var s := states[i];
    assert CallerOk(s, c);
    if s.callers[c].stage.Waiting? {
      assert CallOk(s, s.callers[c].stage.call);
      assert CallerOk(s, s.calls[s.callers[c].stage.call].owner);
    }
  }

  // ---------- what starting and completing mean for the open requests ----------

  datatype Verdict = Join | Reuse | Open

  /** A newcomer's fate depends only on the bodies in flight. */
  function VerdictOn(open: map<Key, Body>, key: Key, body: Body): Verdict {
    if key !in open then Open else if open[key] == body then Join else Reuse
  }

  function OpenAfter(open: map<Key, Body>, key: Key, body: Body): map<Key, Body> {
    if key in open then open else open[key := body]
  }

  ghost function OpenRequests(s: State): map<Key, Body>
    requires Inv(s)
  {
    map key | key in s.inflight :: assert MapOk(s, key); s.calls[s.inflight[key]].body
  }

  /** Entering follows the verdict and opens at most the newcomer's own request. */
  lemma EnterFollowsVerdict(s: State, c: nat, key: Key, body: Body)
    requires Inv(s) && c !in s.callers && key != ""
    ensures Inv(DoEnter(s, c, key, body))
    ensures OpenRequests(DoEnter(s, c, key, body)) == OpenAfter(OpenRequests(s), key, body)
    ensures match VerdictOn(OpenRequests(s), key, body)
            case Join => DoEnter(s, c, key, body).callers[c].stage == Stage.Waiting(s.inflight[key])
            case Reuse => DoEnter(s, c, key, body).callers[c].stage == Returned(ReusedKey)
            case Open => DoEnter(s, c, key, body).callers[c].stage == Owning(|s.calls|)
  {
    EnterKeeps(s, c, key, body);
    assert key in s.inflight ==> MapOk(s, key);
    var s' := DoEnter(s, c, key, body);
    forall k | k in s'.inflight && k in s.inflight ensures s'.calls[s'.inflight[k]].body == s.calls[s.inflight[k]].body {
      assert MapOk(s, k);
    }
  }

  /** Finishing closes the owner's request and no other. */
  lemma FinishCloses(s: State, c: nat)
    requires Inv(s) && Enabled(s, Finish(c))
    ensures Inv(DoFinish(s, c))
    ensures OpenRequests(DoFinish(s, c)) == OpenRequests(s) - {s.callers[c].key}
  {
    FinishKeeps(s, c);
    var s' := DoFinish(s, c);
    forall k | k in s'.inflight ensures s'.calls[s'.inflight[k]].body == s.calls[s.inflight[k]].body {
      assert MapOk(s, k) && MapOk(s', k);
    }
  }

  // ---------- the client object ----------

  /** A call record on the heap, shared by its owner and its waiters. */
  class SyncOrderCall {
    const body: Body
    var done: bool
    var result: Option<Response>

    constructor (body: Body)
      ensures this.body == body && !done && result.None?
    {
      this.body := body;
      done, result := false, None;
    }
  }

  datatype Started = Joined(call: SyncOrderCall) | Owned(call: SyncOrderCall) | Conflict

  class Client {
    var inflight: map<Key, SyncOrderCall>

    /** Calls in the map are open, and no two keys share one. */
    ghost predicate Valid()
      reads this, inflight.Values
    {
      && (forall k :: k in inflight ==> !inflight[k].done && inflight[k].result.None?)
      && (forall k, k' :: k in inflight && k' in inflight && k != k' ==> inflight[k] != inflight[k'])
    }

    /** The bodies in flight, as the protocol sees them. */
    ghost function OpenBodies(): map<Key, Body>
      reads this, inflight.Values
    {
      map k | k in inflight :: inflight[k].body
    }

    constructor ()
      ensures Valid() && inflight == map[]
    {
      inflight := map[];
    }

    /** Joins the call in flight if the bodies agree, refuses if they differ, else opens a new one. */
    method StartCall(key: Key, body: Body) returns (started: Started)
      requires Valid()
      modifies this
      ensures Valid()
      ensures OpenBodies() == OpenAfter(old(OpenBodies()), key, body)
      ensures match VerdictOn(old(OpenBodies()), key, body)
              case Join => started == Joined(old(inflight)[key]) && inflight == old(inflight)
              case Reuse => started == Conflict && inflight == old(inflight)
              case Open => started.Owned? && fresh(started.call) && inflight == old(inflight)[key := started.call]
    {
      if key in inflight {
        if inflight[key].body != body {
          return Conflict;
        }
        return Joined(inflight[key]);
      }
      var call := new SyncOrderCall(body);
      inflight := inflight[key := call];
      return Owned(call);
    }

    /** The owner publishes its response; no other call is affected and the key is free again. */
    method Complete(key: Key, call: SyncOrderCall, response: Response)
      requires Valid() && key in inflight && inflight[key] == call
      modifies this, call
      ensures Valid() && inflight == old(inflight) - {key} && OpenBodies() == old(OpenBodies()) - {key}
      ensures call.done && call.result == Some(response)
    {
      call.result := Some(response);
      inflight := inflight - {key};
      call.done := true;
    }
  }
}
