/**
 * What the protocol guarantees when the check and the update of an approval are not interleaved
 * with those of another handler: one token, exact metrics, faithful resumes, stable step records.
 */
module ApprovalAccounting {
  import opened Wrappers
  import opened Metrics
  import opened Approvals
  import opened Types
  import opened Protocol
  import L = AgentLoop
  import P = LoopProperties
  import T = Transcript
  import G = ApprovalGating

  predicate IsDecider(a: Activity) {
    a.Deciding? || a.Expiring?
  }

  /** No handler is between its check and its update of the approval. */
  predicate Unlocked(c: Cell) {
    forall i :: 0 <= i < |c.acts| ==> !IsDecider(c.acts[i])
  }

  /** A run in which a handler checks the approval only when no other is about to update it. */
  predicate Exclusive(actions: seq<Action>)
    requires Run(actions).Some?
  {
    actions == [] ||
    (Exclusive(actions[..|actions| - 1]) &&
     (actions[|actions| - 1].Decide? || actions[|actions| - 1].Fire? ==> Unlocked(Run(actions[..|actions| - 1]).value)))
  }

  // ---- no stale decision ----

  /** At most one handler is deciding, it decides a pending approval, and its copy is current. */
  ghost predicate LockHeld(c: Cell) {
    && c.past.stale == 0
    && (forall i :: 0 <= i < |c.acts| && IsDecider(c.acts[i]) ==> IsPending(c) && c.acts[i].read == c.approval.value)
    && (forall i, j :: 0 <= i < j < |c.acts| ==> !(IsDecider(c.acts[i]) && IsDecider(c.acts[j])))
  }

  /** The activities after a swap, one by one. */
  lemma SwapAt(acts: seq<Activity>, i: nat, put: seq<Activity>)
    requires i < |acts| && |put| <= 1
    ensures forall j :: 0 <= j < i ==> Swap(acts, i, put)[j] == acts[j]
    ensures |Swap(acts, i, put)| == |acts| - 1 + |put|
    ensures |put| == 1 ==> Swap(acts, i, put)[i] == put[0]
    ensures |put| == 1 ==> forall j :: i < j < |acts| ==> Swap(acts, i, put)[j] == acts[j]
    ensures |put| == 0 ==> forall j :: i <= j < |acts| - 1 ==> Swap(acts, i, put)[j] == acts[j + 1]
  {
  }

  /** An activity that is not a decider ends or becomes another one that is not. */
  lemma LockMove(c: Cell, c': Cell, i: nat, put: seq<Activity>)
    requires LockHeld(c) && i < |c.acts| && !IsDecider(c.acts[i])
    requires |put| <= 1 && (|put| == 1 ==> !IsDecider(put[0])) && c'.acts == Swap(c.acts, i, put)
    requires c'.past.stale == 0 && (c.approval.Some? ==> c'.approval == c.approval)
    ensures LockHeld(c')
  {
    SwapAt(c.acts, i, put);
    if |put| == 0 {
      forall j, k | 0 <= j < k < |c'.acts| ensures !(IsDecider(c'.acts[j]) && IsDecider(c'.acts[k])) {
        var j0, k0 := if j < i then j else j + 1, if k < i then k else k + 1;
        assert c'.acts[j] == c.acts[j0] && c'.acts[k] == c.acts[k0];
      }
    }
  }

  /** The handler that held the lock lets go: now nobody holds it. */
  lemma LockReleased(c: Cell, c': Cell, i: nat, next: Activity)
    requires LockHeld(c) && i < |c.acts| && IsDecider(c.acts[i]) && !IsDecider(next)
    requires c'.acts == Swap(c.acts, i, [next]) && c'.past.stale == 0
    ensures LockHeld(c') && Unlocked(c')
  {
    SwapAt(c.acts, i, [next]);
    forall j | 0 <= j < |c'.acts| ensures !IsDecider(c'.acts[j]) {
      if j < i {
        assert c'.acts[j] == c.acts[j];
      } else if j > i {
        assert c'.acts[j] == c.acts[j];
      }
    }
  }

  lemma LockTaken(c: Cell, c': Cell, i: nat, next: Activity)
    requires LockHeld(c) && Unlocked(c) && IsPending(c) && i < |c.acts|
    requires IsDecider(next) && next.read == c.approval.value
    requires c'.acts == Swap(c.acts, i, [next]) && c'.approval == c.approval && c'.past.stale == 0
    ensures LockHeld(c')
  {
    SwapAt(c.acts, i, [next]);
  }

  lemma EndLegLock(c: Cell, i: nat, world: L.World, delivered: bool)
    requires LockHeld(c) && EndTheLeg(c, i, world, delivered).Some?
    ensures LockHeld(EndTheLeg(c, i, world, delivered).value)
  {
    var req := c.acts[i].req;
    var leg := L.RunLeg(req, world);
    var put := if !delivered then [] else if leg.outcome.Suspended? then [Checkpointing(req, leg)] else [Completing(FinalPayload(req, leg))];
    LockMove(c, EndTheLeg(c, i, world, delivered).value, i, put);
  }

  lemma CallbackLock(c: Cell, a: Action)
    requires LockHeld(c) && CallbackNext(c, a).Some?
    ensures LockHeld(CallbackNext(c, a).value)
  {
    hide L.RunLeg, Swap, Reviewed, Accumulated, NewApproval, CheckpointStep, FinalPayload;
    var c' := CallbackNext(c, a).value;
    match a {
      case EndLeg(i, world, delivered) => EndLegLock(c, i, world, delivered);
      case ReadStep(i) => LockMove(c, c', i, [CheckpointRead(c.acts[i].req, c.acts[i].leg, c.step)]);
      case WriteStep(i) => LockMove(c, c', i, [Recording(c.acts[i].req, c.acts[i].leg)]);
      case CreateApproval(i) =>
        LockMove(c, c', i, if c.approval.None? && c'.approval.value.timeoutMS > 0 then [Timer(c'.approval.value.timeoutBehavior)] else []);
      case Accumulate(i) => LockMove(c, c', i, [Signalling(Accumulated(Reviewed(c.acts[i].payload), c.approval))]);
      case LookUp(i) => LockMove(c, c', i, if c.registered then [Sending(c.acts[i].payload)] else []);
      case Send(i) => LockMove(c, c', i, []);
    }
  }

  lemma WriteLock(c: Cell, i: nat)
    requires LockHeld(c) && WriteIt(c, i).Some?
    ensures LockHeld(WriteIt(c, i).value)
  {
    hide FailedPayload;
    var c' := WriteIt(c, i).value;
    assert c'.acts[i] == Swap(c.acts, i, [c'.acts[i]])[i];
    assert c'.acts == Swap(c.acts, i, [c'.acts[i]]);
    LockReleased(c, c', i, c'.acts[i]);
  }

  lemma DecisionLock(c: Cell, a: Action)
    requires LockHeld(c) && DecisionNext(c, a).Some?
    requires a.Decide? || a.Fire? ==> Unlocked(c)
    ensures LockHeld(DecisionNext(c, a).value)
  {
    hide WriteIt, FailedPayload, ResumeRequest;
    var c' := DecisionNext(c, a).value;
    match a {
      case Decide(approve) =>
      case Fire(i) =>
        if IsPending(c) {
          LockTaken(c, c', i, Expiring(c.acts[i].behavior, c.approval.value));
        } else {
          LockMove(c, c', i, []);
        }
      case Write(i) => WriteLock(c, i);
      case Repost(i, accepted) =>
        var failed := Signalling(FailedPayload(c.acts[i].approval, "approval rejected (recover dispatch failed)"));
        LockMove(c, c', i,
          if accepted then [RunningLeg(ResumeRequest(c, c.acts[i]))] else if c.acts[i].Redispatching? then [] else [failed]);
    }
  }

  lemma {:induction false} NoStaleDecision(actions: seq<Action>)
    requires Run(actions).Some? && Exclusive(actions)
    ensures LockHeld(Run(actions).value)
  {
    if actions != [] {
      var front, a := actions[..|actions| - 1], actions[|actions| - 1];
      NoStaleDecision(front);
      var c := Run(front).value;
      if CallbackNext(c, a).Some? {
        CallbackLock(c, a);
      } else if DecisionNext(c, a).Some? {
        DecisionLock(c, a);
      }
    }
  }

  lemma {:induction false} WeightAt(acts: seq<Activity>, i: nat)
    requires i < |acts|
    ensures Weight(acts[i]) <= Total(acts)
  {
    if i > 0 {
      WeightAt(acts[1..], i - 1);
    }
  }

  lemma {:induction false} WeightOfTwo(acts: seq<Activity>, i: nat, j: nat)
    requires i < j < |acts|
    ensures Weight(acts[i]) + Weight(acts[j]) <= Total(acts)
  {
    if i == 0 {
      WeightAt(acts[1..], j - 1);
    } else {
      WeightOfTwo(acts[1..], i - 1, j - 1);
    }
  }

  lemma OneTokenAtMost(c: Cell)
    requires Conserved(c) && c.past.stale == 0
    ensures Tokens(c) + c.past.lost == c.past.posts <= 1
    ensures forall i :: 0 <= i < |c.acts| && Weight(c.acts[i]) == 1 ==>
      c.slot == [] && !c.dispatch.Received? && !IsPending(c)
    ensures forall i, j :: 0 <= i < j < |c.acts| ==> Weight(c.acts[i]) == 0 || Weight(c.acts[j]) == 0
  {
    forall i | 0 <= i < |c.acts| && Weight(c.acts[i]) == 1 ensures c.slot == [] && !c.dispatch.Received? && !IsPending(c) {
      WeightAt(c.acts, i);
    }
    forall i, j | 0 <= i < j < |c.acts| ensures Weight(c.acts[i]) == 0 || Weight(c.acts[j]) == 0 {
      WeightOfTwo(c.acts, i, j);
    }
  }

  /**
   * Single token. In every exclusive run the step has at most one of: a leg or handler in
   * progress, an undecided approval, a payload in the slot, a payload received; it has exactly
   * one from the first accepted POST on, unless it got lost. So at most one payload is ever sent
   * and the one-slot send never waits, whether or not the dispatch was cancelled.
   */
  lemma SingleToken(actions: seq<Action>)
    requires Run(actions).Some? && Exclusive(actions)
    ensures var c := Run(actions).value;
      && Tokens(c) + c.past.lost == c.past.posts <= 1
      && |c.slot| + Consumed(c) <= 1
      && forall i :: 0 <= i < |c.acts| && c.acts[i].Sending? ==> c.slot == [] && !c.dispatch.Received?
  {
    NoStaleDecision(actions);
    TokenConservation(actions);
    OneTokenAtMost(Run(actions).value);
  }

  // ---- metrics and checkpoints ----

  function Turns(c: Cell): nat {
    if c.past.origin.Some? then L.MaxTurns(c.past.origin.value) else 0
  }

  /** The dispatch still waits and the runner recorded the step. */
  predicate Watched(c: Cell) {
    c.dispatch.Waiting? && c.step.Some?
  }

  /** The record says that the step waits for an approval, and holds the suspended leg's metrics and transcript. */
  predicate Saved(step: StepRecord, leg: L.Leg) {
    step.status == PendingApproval && step.metrics == leg.state.metrics && step.messages == leg.state.messages
  }

  function LegOf(r: LegRecord): L.Leg {
    L.RunLeg(r.req, r.world)
  }

  /** `leg` is how one of the finished legs went. */
  ghost predicate Ended(legs: seq<LegRecord>, req: L.Request, leg: L.Leg) {
    exists r :: r in legs && r.req == req && leg == L.RunLeg(r.req, r.world)
  }

  /** The approval is that of the suspended leg, which made all calls so far. */
  ghost predicate Recorded(c: Cell) {
    && c.approval.Some? && c.past.suspended.Some? && c.past.origin.Some?
    && var (a, leg) := (c.approval.value, c.past.suspended.value);
       && Ended(c.past.legs, c.past.origin.value, leg)
       && leg.outcome.Suspended? && a.call == leg.outcome.pending.call && a.originalRequest == c.past.origin.value
       && a.partialMetrics == leg.state.metrics == c.past.spent
       && c.past.spent.counts.reflectCalls == 0 && c.past.spent.counts.llmCalls <= Turns(c)
       && leg.state.messages != []
       && (Watched(c) ==> Saved(c.step.value, leg))
       && (c.step.Some? ==> c.step.value.messages == [] || c.step.value.messages == leg.state.messages)
  }

  /** No transcript has been saved yet. */
  predicate Unsaved(step: Option<StepRecord>) {
    step.Some? ==> step.value.messages == []
  }

  ghost predicate FirstLegDone(c: Cell, req: L.Request, leg: L.Leg) {
    && c.approval.None? && Fresh(req) && c.past.origin == Some(req) && leg.outcome.Suspended?
    && Ended(c.past.legs, req, leg)
    && leg.state.metrics == c.past.spent && c.past.spent.counts.reflectCalls == 0 && c.past.spent.counts.llmCalls <= Turns(c)
    && leg.state.messages != []
  }

  ghost predicate Totalled(c: Cell, m: Metrics) {
    m == c.past.spent && m.counts.llmCalls <= 2 * Turns(c) + 2
  }

  ghost predicate SameTurns(c: Cell, req: L.Request) {
    c.past.origin.Some? && L.MaxTurns(req) == Turns(c)
  }

  /** What the one token knows about the calls made so far. */
  ghost predicate TokenOK(c: Cell, a: Activity) {
    match a
    case RunningLeg(req) =>
      && SameTurns(c, req)
      && (if req.isResume then Recorded(c) && !IsPending(c)
          else c.approval.None? && Fresh(req) && c.past.origin == Some(req) && c.past.spent == ZERO && Unsaved(c.step))
    case Checkpointing(req, leg) => c.approval.None? ==> FirstLegDone(c, req, leg) && Unsaved(c.step)
    case CheckpointRead(req, leg, copy) =>
      && (c.approval.None? ==> FirstLegDone(c, req, leg) && Unsaved(c.step) && Unsaved(copy))
      && (c.dispatch.Waiting? ==> copy.Some? == c.step.Some?)
    case Recording(req, leg) =>
      c.approval.None? ==>
        && FirstLegDone(c, req, leg)
        && (Watched(c) ==> Saved(c.step.value, leg))
        && (c.step.Some? ==> c.step.value.messages == [] || c.step.value.messages == leg.state.messages)
    case Completing(p) =>
      && c.past.spent.counts.llmCalls <= 2 * Turns(c) + 2
      && (if p.isResume then c.approval.Some? && p.metrics.Plus(Partial(c.approval.value.partialMetrics)) == c.past.spent
          else p.metrics == c.past.spent)
    case Signalling(p) => Totalled(c, p.metrics)
    case Sending(p) => Totalled(c, p.metrics)
    case Redispatching(approval) => c.approval == Some(approval) && Recorded(c) && !IsPending(c)
    case Recovering(approval) => c.approval == Some(approval) && Recorded(c) && !IsPending(c)
    case _ => true
  }

  ghost predicate Account(c: Cell) {
    && (forall i :: 0 <= i < |c.acts| && Weight(c.acts[i]) == 1 ==> TokenOK(c, c.acts[i]))
    && (IsPending(c) ==> Recorded(c))
    && (c.slot != [] ==> Totalled(c, c.slot[0].metrics))
    && (c.dispatch.Received? ==> Totalled(c, c.dispatch.payload.metrics))
    && (c.dispatch.Idle? || c.dispatch.Posting? ==> c.past.spent == ZERO && Unsaved(c.step))
  }

  /** The invariant of exclusive runs. */
  ghost predicate Books(c: Cell) {
    Conserved(c) && c.past.stale == 0 && LockHeld(c) && Account(c)
  }

  /** The token moves on: what it knows afterwards is all there is to know. */
  lemma AccountMove(c: Cell, c': Cell, i: nat, next: Activity)
    requires i < |c.acts| && c'.acts == Swap(c.acts, i, [next]) && Weight(next) == 1
    requires Conserved(c') && c'.past.stale == 0 && !c'.dispatch.Idle? && !c'.dispatch.Posting?
    requires TokenOK(c', next)
    ensures Account(c')
  {
    SwapAt(c.acts, i, [next]);
    OneTokenAtMost(c');
  }

  /** The token left the activities: only timers and a decider remain. */
  lemma AccountGone(c: Cell, c': Cell, i: nat, put: seq<Activity>)
    requires Conserved(c) && c.past.stale == 0
    requires i < |c.acts| && Weight(c.acts[i]) == 1 && |put| <= 1 && (|put| == 1 ==> Weight(put[0]) == 0)
    requires c'.acts == Swap(c.acts, i, put) && c'.dispatch == c.dispatch && !c.dispatch.Idle? && !c.dispatch.Posting?
    requires IsPending(c') ==> Recorded(c')
    requires c'.slot != [] ==> Totalled(c', c'.slot[0].metrics)
    ensures Account(c')
  {
    OneTokenAtMost(c);
    SwapAt(c.acts, i, put);
    forall j | 0 <= j < |c'.acts| ensures Weight(c'.acts[j]) == 0 {
      if j < i {
        assert c'.acts[j] == c.acts[j];
      } else if |put| == 0 {
        assert c'.acts[j] == c.acts[j + 1];
      } else if j > i {
        assert c'.acts[j] == c.acts[j];
      }
    }
  }

  /** Nothing the token knows has changed; the dispatch may have returned, and then the runner finished the step. */
  ghost predicate Weaker(c: Cell, c': Cell) {
    && c'.approval == c.approval && c'.past == c.past
    && (c'.dispatch.Waiting? ==> c.dispatch.Waiting? && c'.step == c.step)
    && (c'.step == c.step || (c'.step.Some? && c'.step.value.messages == []))
  }

  lemma TokenKept(c: Cell, c': Cell, a: Activity)
    requires TokenOK(c, a) && Weaker(c, c')
    ensures TokenOK(c', a)
  {
  }

  /** A timer ends or becomes a decider. */
  lemma AccountTimer(c: Cell, c': Cell, i: nat, put: seq<Activity>)
    requires Account(c) && i < |c.acts| && |put| <= 1 && (|put| == 1 ==> Weight(put[0]) == 0)
    requires c' == c.(acts := Swap(c.acts, i, put))
    ensures Account(c')
  {
    SwapAt(c.acts, i, put);
    forall j | 0 <= j < |c'.acts| && Weight(c'.acts[j]) == 1 ensures TokenOK(c', c'.acts[j]) {
      var j0 := if j < i || |put| == 1 then j else j + 1;
      assert c'.acts[j] == c.acts[j0];
      TokenKept(c, c', c.acts[j0]);
    }
  }

  lemma SuspendedFacts(req: L.Request, world: L.World)
    ensures var leg := L.RunLeg(req, world);
      && leg.state.metrics.counts.llmCalls <= L.MaxTurns(req) + 2
      && (leg.outcome.Suspended? ==>
            leg.state.metrics.counts.reflectCalls == 0 && leg.state.metrics.counts.llmCalls <= L.MaxTurns(req) && leg.state.messages != [])
  {
    P.CallBound(req, world);
    P.LegIsGood(req, world);
  }

  /** A leg has ended: its metrics are spent and it is remembered. */
  ghost predicate LegEnded(c: Cell, c': Cell, i: nat, req: L.Request, leg: L.Leg, next: Activity) {
    && i < |c.acts| && c.acts[i] == RunningLeg(req)
    && c'.acts == Swap(c.acts, i, [next]) && c'.approval == c.approval && c'.dispatch == c.dispatch && c'.step == c.step
    && c'.past.origin == c.past.origin && c'.past.stale == c.past.stale && c'.past.suspended == c.past.suspended
    && c'.past.spent == c.past.spent.Plus(leg.state.metrics)
    && Ended(c'.past.legs, req, leg)
    && leg.state.metrics.counts.llmCalls <= L.MaxTurns(req) + 2
  }

  lemma SuspendedLegBooks(c: Cell, c': Cell, i: nat, req: L.Request, leg: L.Leg)
    requires Books(c) && LegEnded(c, c', i, req, leg, Checkpointing(req, leg)) && Conserved(c')
    requires leg.outcome.Suspended? && leg.state.messages != []
    requires leg.state.metrics.counts.reflectCalls == 0 && leg.state.metrics.counts.llmCalls <= L.MaxTurns(req)
    ensures Account(c')
  {
    assert TokenOK(c, c.acts[i]);
    AccountMove(c, c', i, Checkpointing(req, leg));
  }

  /** The callback of a leg that ran to its end reports, with what the approval kept, all that was spent. */
  lemma CompletedToken(c: Cell, c': Cell, i: nat, req: L.Request, leg: L.Leg)
    requires TokenOK(c, RunningLeg(req)) && !leg.outcome.Suspended?
    requires LegEnded(c, c', i, req, leg, Completing(FinalPayload(req, leg)))
    ensures TokenOK(c', Completing(FinalPayload(req, leg)))
  {
    hide Ended, Swap;
  }

  lemma CompletedLegBooks(c: Cell, c': Cell, i: nat, req: L.Request, leg: L.Leg)
    requires Books(c) && !leg.outcome.Suspended?
    requires LegEnded(c, c', i, req, leg, Completing(FinalPayload(req, leg))) && Conserved(c')
    ensures Account(c')
  {
    hide Swap, FinalPayload, Ended, Recorded, LockHeld;
    CompletedToken(c, c', i, req, leg) by {
      assert TokenOK(c, c.acts[i]);
    }
    hide TokenOK;
    AccountMove(c, c', i, Completing(FinalPayload(req, leg)));
  }

  lemma EndLegBooks(c: Cell, i: nat, world: L.World, delivered: bool)
    requires Books(c) && EndTheLeg(c, i, world, delivered).Some?
    ensures Account(EndTheLeg(c, i, world, delivered).value)
  {
    hide L.RunLeg, Swap, TokenOK, Recorded, LockHeld, FinalPayload;
    var c' := EndTheLeg(c, i, world, delivered).value;
    LegConserved(c, i, world, delivered);
    var req := c.acts[i].req;
    var leg := L.RunLeg(req, world);
    SuspendedFacts(req, world);
    assert LegRecord(req, world) in c'.past.legs;
    if !delivered {
      OneTokenAtMost(c);
      AccountGone(c, c', i, []);
    } else if leg.outcome.Suspended? {
      SuspendedLegBooks(c, c', i, req, leg);
    } else {
      CompletedLegBooks(c, c', i, req, leg);
    }
  }

  lemma WriteStepBooks(c: Cell, i: nat)
    requires Books(c) && WriteTheStep(c, i).Some?
    ensures Account(WriteTheStep(c, i).value)
  {
    WriteStepConserved(c, i);
    OneTokenAtMost(c);
    assert TokenOK(c, c.acts[i]);
    AccountMove(c, WriteTheStep(c, i).value, i, Recording(c.acts[i].req, c.acts[i].leg));
  }

  lemma CreateApprovalBooks(c: Cell, i: nat)
    requires Books(c) && CreateTheApproval(c, i).Some?
    ensures Account(CreateTheApproval(c, i).value)
  {
    var c' := CreateTheApproval(c, i).value;
    OneTokenAtMost(c);
    assert TokenOK(c, c.acts[i]);
    if c.approval.Some? {
      AccountGone(c, c', i, []);
    } else {
      assert Recorded(c');
      AccountGone(c, c', i, if c'.approval.value.timeoutMS > 0 then [Timer(c'.approval.value.timeoutBehavior)] else []);
    }
  }

  lemma ReadStepBooks(c: Cell, i: nat)
    requires Books(c) && ReadTheStep(c, i).Some?
    ensures Account(ReadTheStep(c, i).value)
  {
    CallbackConserved(c, ReadStep(i));
    OneTokenAtMost(c);
    assert TokenOK(c, c.acts[i]);
    AccountMove(c, ReadTheStep(c, i).value, i, CheckpointRead(c.acts[i].req, c.acts[i].leg, c.step));
  }

  /** Reserved fields do not change what a payload reports; a resumed leg's also reports the suspended one. */
  lemma ReportedMetrics(p: Payload, approval: Option<Approval>)
    ensures Accumulated(Reviewed(p), approval).metrics ==
      if p.isResume && approval.Some? then p.metrics.Plus(Partial(approval.value.partialMetrics)) else p.metrics
  {
    hide Partial;
  }

  lemma AccumulateBooks(c: Cell, i: nat)
    requires Books(c) && AccumulateIt(c, i).Some?
    ensures Account(AccumulateIt(c, i).value)
  {
    hide L.RunLeg, Accumulated, Reviewed, Swap, Recorded, LockHeld, Partial;
    CallbackConserved(c, Accumulate(i));
    OneTokenAtMost(c);
    assert TokenOK(c, c.acts[i]);
    ReportedMetrics(c.acts[i].payload, c.approval);
    AccountMove(c, AccumulateIt(c, i).value, i, Signalling(Accumulated(Reviewed(c.acts[i].payload), c.approval)));
  }

  lemma SendBooks(c: Cell, a: Action)
    requires Books(c) && (a.LookUp? || a.Send?) && CallbackNext(c, a).Some?
    ensures Account(CallbackNext(c, a).value)
  {
    var c' := CallbackNext(c, a).value;
    CallbackConserved(c, a);
    OneTokenAtMost(c);
    assert TokenOK(c, c.acts[a.i]);
    if a.LookUp? && c.registered {
      AccountMove(c, c', a.i, Sending(c.acts[a.i].payload));
    } else {
      AccountGone(c, c', a.i, []);
    }
  }

  /** A current decision on the recorded approval, whatever it leads to. */
  lemma DecidedBooks(c: Cell, c': Cell, i: nat, next: Activity)
    requires Books(c) && Recorded(c) && i < |c.acts| && c'.acts == Swap(c.acts, i, [next])
    requires Conserved(c') && c'.past.stale == 0 && c'.dispatch == c.dispatch && c'.step == c.step
    requires c'.approval.Some? && c'.approval.value == c.approval.value.(status := c'.approval.value.status) && !IsPending(c')
    requires c'.past == c.past.(granted := c'.past.granted)
    requires next == Redispatching(c'.approval.value) || next == Recovering(c'.approval.value) ||
      (next.Signalling? && next.payload.metrics == Partial(c'.approval.value.partialMetrics))
    ensures Account(c')
  {
    WeightAt(c.acts, i);
    assert Recorded(c');
    AccountMove(c, c', i, next);
  }

  lemma WriteBooks(c: Cell, i: nat)
    requires Books(c) && WriteIt(c, i).Some?
    ensures Account(WriteIt(c, i).value)
  {
    var c' := WriteIt(c, i).value;
    WriteConserved(c, i);
    assert IsDecider(c.acts[i]) && IsPending(c) && Recorded(c);
    var a := c'.approval.value;
    match c.acts[i] {
      case Deciding(true, _) => DecidedBooks(c, c', i, Redispatching(a));
      case Deciding(false, _) => DecidedBooks(c, c', i, AfterReject(a));
      case Expiring(behavior, _) =>
        DecidedBooks(c, c', i, if behavior == "reject" then AfterReject(a) else Signalling(FailedPayload(a, "approval timed out: " + a.call.name)));
    }
  }

  lemma ResumedBooks(c: Cell, c': Cell, i: nat)
    requires Books(c) && RepostIt(c, i, true) == Some(c')
    ensures Account(c')
  {
    hide L.RunLeg, Swap, Ended, LockHeld, SavedMessages;
    RepostConserved(c, i, true);
    assert TokenOK(c, c.acts[i]);
    AccountMove(c, c', i, RunningLeg(ResumeRequest(c, c.acts[i])));
  }

  lemma RepostBooks(c: Cell, i: nat, accepted: bool)
    requires Books(c) && RepostIt(c, i, accepted).Some?
    ensures Account(RepostIt(c, i, accepted).value)
  {
    hide L.RunLeg, Swap, Ended, LockHeld, ResumeRequest, SameTurns;
    var c' := RepostIt(c, i, accepted).value;
    if accepted {
      ResumedBooks(c, c', i);
      return;
    }
    RepostConserved(c, i, accepted);
    assert TokenOK(c, c.acts[i]);
    if c.acts[i].Redispatching? {
      OneTokenAtMost(c);
      AccountGone(c, c', i, []);
    } else {
      AccountMove(c, c', i, Signalling(FailedPayload(c.acts[i].approval, "approval rejected (recover dispatch failed)")));
    }
  }

  lemma DecideBooks(c: Cell, approve: bool)
    requires Account(c) && DecideIt(c, approve).Some?
    ensures Account(DecideIt(c, approve).value)
  {
    var c' := DecideIt(c, approve).value;
    forall j | 0 <= j < |c'.acts| && Weight(c'.acts[j]) == 1 ensures TokenOK(c', c'.acts[j]) {
      assert c'.acts[j] == c.acts[j];
      TokenKept(c, c', c.acts[j]);
    }
  }

  lemma DispatchBooks(c: Cell, a: Action)
    requires Books(c) && DispatchNext(c, a).Some?
    ensures Account(DispatchNext(c, a).value)
  {
    hide L.RunLeg, Ended, LockHeld, FirstLegDone;
    var c' := DispatchNext(c, a).value;
    if a.Receive? {
      OneTokenAtMost(c);
    }
    forall j | 0 <= j < |c'.acts| && Weight(c'.acts[j]) == 1 ensures TokenOK(c', c'.acts[j]) {
      if !a.Post? {
        TokenKept(c, c', c.acts[j]);
      }
    }
  }

  lemma {:induction false} BooksBalance(actions: seq<Action>)
    requires Run(actions).Some? && Exclusive(actions)
    ensures Books(Run(actions).value)
  {
    NoStaleDecision(actions);
    TokenConservation(actions);
    if actions != [] {
      var front, a := actions[..|actions| - 1], actions[|actions| - 1];
      BooksBalance(front);
      AccountStep(Run(front).value, a);
    }
  }

  lemma AccountStep(c: Cell, a: Action)
    requires Books(c) && Next(c, a).Some?
    ensures Account(Next(c, a).value)
  {
    hide Account, Conserved, LockHeld, Recorded, TokenOK, L.RunLeg, Reviewed, Accumulated, Swap;
    match a {
      case EndLeg(i, world, delivered) => EndLegBooks(c, i, world, delivered);
      case WriteStep(i) => WriteStepBooks(c, i);
      case CreateApproval(i) => CreateApprovalBooks(c, i);
      case ReadStep(i) => ReadStepBooks(c, i);
      case Accumulate(i) => AccumulateBooks(c, i);
      case LookUp(_) | Send(_) => SendBooks(c, a);
      case Decide(approve) => DecideBooks(c, approve);
      case Fire(i) => AccountTimer(c, FireIt(c, i).value, i, if IsPending(c) then [Expiring(c.acts[i].behavior, c.approval.value)] else []);
      case Write(i) => WriteBooks(c, i);
      case Repost(i, accepted) => RepostBooks(c, i, accepted);
      case _ => DispatchBooks(c, a);
    }
  }

  // ---- what follows for whole runs ----

  /** What the finished legs used together. */
  function TotalOf(legs: seq<LegRecord>): Metrics {
    if legs == [] then ZERO
    else TotalOf(legs[..|legs| - 1]).Plus(L.RunLeg(legs[|legs| - 1].req, legs[|legs| - 1].world).state.metrics)
  }

  lemma EndLegSpends(c: Cell, i: nat, world: L.World, delivered: bool)
    requires EndTheLeg(c, i, world, delivered).Some? && c.past.spent == TotalOf(c.past.legs)
    ensures EndTheLeg(c, i, world, delivered).value.past.spent == TotalOf(EndTheLeg(c, i, world, delivered).value.past.legs)
  {
    var legs := c.past.legs + [LegRecord(c.acts[i].req, world)];
    assert legs[..|legs| - 1] == c.past.legs;
  }

  lemma {:induction false} SpentIsTotal(actions: seq<Action>)
    requires Run(actions).Some?
    ensures Run(actions).value.past.spent == TotalOf(Run(actions).value.past.legs)
  {
    if actions != [] {
      var front, a := actions[..|actions| - 1], actions[|actions| - 1];
      SpentIsTotal(front);
      if a.EndLeg? {
        EndLegSpends(Run(front).value, a.i, a.world, a.delivered);
      } else {
        OthersSpendNothing(Run(front).value, a);
      }
    }
  }

  /** Callbacks and decisions leave the dispatch and its POST alone, and only the end of a leg is accounted for. */
  lemma CallbackFrame(c: Cell, a: Action)
    requires CallbackNext(c, a).Some?
    ensures var c' := CallbackNext(c, a).value;
      && c'.dispatch == c.dispatch && c'.past.origin == c.past.origin && c'.past.posts == c.past.posts
      && (!a.EndLeg? ==> c'.past.spent == c.past.spent && c'.past.legs == c.past.legs)
  {
    hide L.RunLeg, Swap, Reviewed, Accumulated, NewApproval, CheckpointStep, FinalPayload;
  }

  lemma WriteFrame(c: Cell, i: nat)
    requires WriteIt(c, i).Some?
    ensures var c' := WriteIt(c, i).value;
      && c'.dispatch == c.dispatch && c'.past.origin == c.past.origin && c'.past.posts == c.past.posts
      && c'.past.spent == c.past.spent && c'.past.legs == c.past.legs
  {
    hide Swap, AfterReject, FailedPayload, IsPending;
  }

  lemma RepostFrame(c: Cell, i: nat, accepted: bool)
    requires RepostIt(c, i, accepted).Some?
    ensures var c' := RepostIt(c, i, accepted).value;
      && c'.dispatch == c.dispatch && c'.past.origin == c.past.origin && c'.past.posts == c.past.posts
      && c'.past.spent == c.past.spent && c'.past.legs == c.past.legs
  {
    hide Swap, ResumeRequest, FailedPayload;
  }

  lemma DecisionFrame(c: Cell, a: Action)
    requires DecisionNext(c, a).Some?
    ensures var c' := DecisionNext(c, a).value;
      && c'.dispatch == c.dispatch && c'.past.origin == c.past.origin && c'.past.posts == c.past.posts
      && c'.past.spent == c.past.spent && c'.past.legs == c.past.legs
  {
    hide IsPending, WriteIt, RepostIt;
    if a.Write? {
      WriteFrame(c, a.i);
    } else if a.Repost? {
      RepostFrame(c, a.i, a.accepted);
    }
  }

  lemma OthersSpendNothing(c: Cell, a: Action)
    requires Next(c, a).Some? && !a.EndLeg?
    ensures Next(c, a).value.past.spent == c.past.spent && Next(c, a).value.past.legs == c.past.legs
  {
    hide CallbackNext, DecisionNext;
    if ByCallback(a) {
      CallbackFrame(c, a);
    } else if ByDecision(a) {
      DecisionFrame(c, a);
    }
  }

  /**
   * Metrics across legs. Whether a step ends without approval, by approval, by rejection with
   * fail or recover, or by timeout: the payload its dispatch receives reports exactly what all
   * its legs used, reflections included, with at most 2T + 2 gateway calls.
   */
  lemma ReceivedIsTotal(actions: seq<Action>)
    requires Run(actions).Some? && Exclusive(actions) && Run(actions).value.dispatch.Received?
    ensures var c := Run(actions).value;
      && c.dispatch.payload.metrics == TotalOf(c.past.legs)
      && c.past.origin.Some? && c.dispatch.payload.metrics.counts.llmCalls <= 2 * L.MaxTurns(c.past.origin.value) + 2
  {
    BooksBalance(actions);
    SpentIsTotal(actions);
    OriginKnown(actions);
  }

  lemma {:induction false} OriginKnown(actions: seq<Action>)
    requires Run(actions).Some?
    ensures Run(actions).value.past.posts > 0 ==> Run(actions).value.past.origin.Some?
    ensures Run(actions).value.dispatch.Received? ==> Run(actions).value.past.origin.Some?
  {
    if actions != [] {
      var front, a := actions[..|actions| - 1], actions[|actions| - 1];
      OriginKnown(front);
      TokenConservation(front);
      OriginStays(Run(front).value, a);
    }
  }

  lemma OriginStays(c: Cell, a: Action)
    requires Next(c, a).Some?
    ensures c.past.origin.Some? ==> Next(c, a).value.past.origin.Some?
    ensures Next(c, a).value.past.posts > c.past.posts ==> Next(c, a).value.past.origin.Some?
    ensures Next(c, a).value.dispatch.Received? && !c.dispatch.Received? ==> c.dispatch.Waiting?
  {
    hide CallbackNext, DecisionNext;
    if ByCallback(a) {
      CallbackFrame(c, a);
    } else if ByDecision(a) {
      DecisionFrame(c, a);
    }
  }

  /**
   * Faithful resume. While the dispatch waits and the step is recorded, the request a redispatch
   * posts is the original one with the whole transcript of the suspended leg: with the approved
   * call to make, or with its rejection as the result of the call that waited.
   */
  lemma ResumeIsFaithful(actions: seq<Action>, i: nat)
    requires Run(actions).Some? && Exclusive(actions) && Watched(Run(actions).value)
    requires i < |Run(actions).value.acts|
    requires Run(actions).value.acts[i].Redispatching? || Run(actions).value.acts[i].Recovering?
    ensures var c := Run(actions).value;
      && c.past.origin.Some? && c.past.suspended.Some?
      && var (req, leg, resumed) := (c.past.origin.value, c.past.suspended.value, ResumeRequest(c, c.acts[i]));
         && Saved(c.step.value, leg)
         && Fresh(req) && Ended(c.past.legs, req, leg) && leg.outcome.Suspended?
         && (if c.acts[i].Redispatching? then resumed == T.ApprovedRequest(req, leg.state.messages, leg.outcome.pending.call.id)
             else resumed == req.(isResume := true,
               messages := leg.state.messages + [L.ResultMessage(leg.outcome.pending.call.id, REJECTION)]))
  {
    BooksBalance(actions);
    var c := Run(actions).value;
    assert TokenOK(c, c.acts[i]);
    G.AllSound(actions);
  }

  /**
   * Stable step records. Once a dispatch has returned without being cancelled, no callback,
   * decision or timeout touches the step record again: only the runner itself can.
   */
  lemma FinishedStepStays(actions: seq<Action>, a: Action)
    requires Run(actions).Some? && Exclusive(actions) && Next(Run(actions).value, a).Some?
    requires Run(actions).value.dispatch.Received? || Run(actions).value.dispatch.Refused?
    requires !a.Finish?
    ensures Next(Run(actions).value, a).value.step == Run(actions).value.step
  {
    NoStaleDecision(actions);
    TokenConservation(actions);
    var c := Run(actions).value;
    if a.WriteStep? {
      WeightAt(c.acts, a.i);
    } else {
      StepUntouched(c, a);
    }
  }

  lemma StepUntouched(c: Cell, a: Action)
    requires Next(c, a).Some? && !c.dispatch.Idle? && !a.WriteStep? && !a.Finish?
    ensures Next(c, a).value.step == c.step
  {
    hide L.RunLeg, Swap, Reviewed, Accumulated, Partial, AfterReject, NewApproval, CheckpointStep, FailedPayload, FinalPayload, ApproveRequest, RecoverRequest;
  }

  /**
   * Exactly when a finished step is changed. In an exclusive run, once the dispatch has returned and
   * the runner has stored the step's end, something other than the runner changes the record exactly
   * when the dispatch was cancelled and a suspended leg's callback, which had read a record, writes
   * its checkpoint.
   */
  lemma OverwrittenExactly(actions: seq<Action>, a: Action)
    requires Run(actions).Some? && Exclusive(actions) && Next(Run(actions).value, a).Some? && !a.Finish?
    requires Returned(Run(actions).value)
    requires Run(actions).value.step.Some? && Terminal(Run(actions).value.step.value.status)
    ensures var c := Run(actions).value;
      Next(c, a).value.step != c.step <==>
        c.dispatch.Cancelled? && a.WriteStep? && a.i < |c.acts| && c.acts[a.i].CheckpointRead? && c.acts[a.i].copy.Some?
  {
    hide Exclusive, Run;
    var c := Run(actions).value;
    if !c.dispatch.Cancelled? {
      FinishedStepStays(actions, a);
    } else if a.WriteStep? {
      CheckpointChanges(c, a.i);
    } else {
      StepUntouched(c, a);
    }
  }

  lemma CheckpointChanges(c: Cell, i: nat)
    requires WriteTheStep(c, i).Some? && c.step.Some? && Terminal(c.step.value.status)
    ensures WriteTheStep(c, i).value.step != c.step <==> c.acts[i].copy.Some?
  {
    hide Swap;
  }
}
