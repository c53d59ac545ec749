/**
 * What approvals, timers and payloads stand for, in every run however finely the handlers interleave:
 * an approval and its timer carry the rule the call was suspended by, a decision leads where that
 * rule says, and the waiting dispatch is told how a leg ended or why none did.
 */
module ApprovalRecords {
  import opened Wrappers
  import opened Values
  import opened Metrics
  import opened Approvals
  import opened Types
  import opened Protocol
  import opened ApprovalAccounting
  import opened Reserved
  import L = AgentLoop
  import R = ApprovalRules
  import G = ApprovalGating

  // ---- what they stand for ----

  /** The approval is that of a leg which suspended, with all that the leg reported. */
  ghost predicate RecordedFrom(r: LegRecord, a: Approval) {
    && LegOf(r).outcome.Suspended?
    && var (p, m) := (LegOf(r).outcome.pending, LegOf(r).state.metrics);
    && a.call == p.call && a.onReject == p.onReject && a.timeoutMS == p.timeoutMS && a.timeoutBehavior == p.timeoutBehavior
    && a.originalRequest == r.req
    && a.partialMetrics == Metrics(m.usage, Counts(m.counts.llmCalls, m.counts.toolCalls, 0))
  }

  /** The leg ran to its end, and this is what its callback says. */
  ghost predicate Answered(r: LegRecord, p: Payload) {
    match LegOf(r).outcome
    case Suspended(_) => false
    case Failed(error) => p.status == HasFailed && p.error == error && p.output == map[]
    case Finished(output) => p.status == PayloadStatus.Succeeded && p.output == output && p.error == ""
  }

  /**
   * What a dispatch is told of it: an output that warns means failure, one that asks to be skipped
   * means that, and reserved fields are never passed on.
   */
  ghost predicate Reported(r: LegRecord, p: Payload) {
    match LegOf(r).outcome
    case Suspended(_) => false
    case Failed(error) => p.status == HasFailed && p.error == error && p.output == map[]
    case Finished(output) =>
      if Warns(output) then
        p.status == HasFailed && p.output == map[] && ProcessReservedFields(output, 0.0) == Reject(p.error)
      else
        && p.error == "" && Unreserved(p.output, output)
        && p.status == if AsksToSkip(output) then WasSkipped else PayloadStatus.Succeeded
  }

  /** The approval was decided, and its step ends with it: by rejection, by expiry, or for want of a leg that goes on. */
  ghost predicate Refused(c: Cell, p: Payload) {
    && c.approval.Some? && c.approval.value.status != Pending
    && p.status == HasFailed && p.output == map[] && !p.isResume
    && p.metrics == c.approval.value.partialMetrics
    && var a := c.approval.value;
       || (a.onReject != "recover" && p.error == "tool call rejected by reviewer: " + a.call.name)
       || (a.onReject == "recover" && p.error == "approval rejected (recover dispatch failed)")
       || (a.timeoutMS > 0 && a.timeoutBehavior != "reject" && p.error == "approval timed out: " + a.call.name)
  }

  ghost predicate Sourced(c: Cell, p: Payload) {
    (exists r :: r in c.past.legs && Reported(r, p)) || Refused(c, p)
  }

  /** A timer, or the handler it has become, is that of the recorded approval. */
  ghost predicate Timed(c: Cell, behavior: string) {
    c.approval.Some? && c.approval.value.timeoutMS > 0 && behavior == c.approval.value.timeoutBehavior
  }

  ghost predicate Recoverable(c: Cell) {
    c.approval.Some? && c.approval.value.status != Pending && c.approval.value.onReject == "recover"
  }

  ghost predicate InOrder(c: Cell, a: Activity) {
    match a
    case Checkpointing(req, leg) => Ended(c.past.legs, req, leg) && leg.outcome.Suspended?
    case CheckpointRead(req, leg, _) => Ended(c.past.legs, req, leg) && leg.outcome.Suspended?
    case Recording(req, leg) => Ended(c.past.legs, req, leg) && leg.outcome.Suspended?
    case Timer(behavior) => Timed(c, behavior)
    case Expiring(behavior, _) => Timed(c, behavior)
    case Completing(p) => exists r :: r in c.past.legs && Answered(r, p)
    case Signalling(p) => Sourced(c, p)
    case Sending(p) => Sourced(c, p)
    case Recovering(_) => Recoverable(c)
    case _ => true
  }

  predicate Watches(a: Activity) {
    a.Timer? || a.Expiring?
  }

  /** An approval that can expire, and is not decided, has its timer or the handler it has become. */
  ghost predicate Guarded(c: Cell) {
    IsPending(c) && c.approval.value.timeoutMS > 0 ==> exists a :: a in c.acts && Watches(a)
  }

  ghost predicate ApprovalFits(c: Cell) {
    c.approval.Some? ==> exists r :: r in c.past.legs && RecordedFrom(r, c.approval.value)
  }

  /** The invariant of every run. */
  ghost predicate Kept(c: Cell) {
    && (forall a :: a in c.acts ==> InOrder(c, a))
    && (forall p :: p in c.slot ==> Sourced(c, p))
    && (c.dispatch.Received? ==> Sourced(c, c.dispatch.payload))
    && ApprovalFits(c)
    && Guarded(c)
  }

  // ---- nothing is taken back ----

  lemma SourcedKept(c: Cell, c': Cell, p: Payload)
    requires Sourced(c, p) && G.Preserves(c, c')
    ensures Sourced(c', p)
  {
    hide Reported;
    if r :| r in c.past.legs && Reported(r, p) {
      assert r in c'.past.legs;
    }
  }

  lemma InOrderKept(c: Cell, c': Cell, a: Activity)
    requires InOrder(c, a) && G.Preserves(c, c')
    ensures InOrder(c', a)
  {
    hide Answered, Sourced, LegOf;
    match a
    case Checkpointing(req, leg) => EndedKept(c, c', req, leg);
    case CheckpointRead(req, leg, _) => EndedKept(c, c', req, leg);
    case Recording(req, leg) => EndedKept(c, c', req, leg);
    case Completing(p) =>
      var r :| r in c.past.legs && Answered(r, p);
      assert r in c'.past.legs;
    case Signalling(p) => SourcedKept(c, c', p);
    case Sending(p) => SourcedKept(c, c', p);
    case _ =>
  }

  lemma EndedKept(c: Cell, c': Cell, req: L.Request, leg: L.Leg)
    requires Ended(c.past.legs, req, leg) && G.Preserves(c, c')
    ensures Ended(c'.past.legs, req, leg)
  {
    hide L.RunLeg;
    var r :| r in c.past.legs && r.req == req && leg == LegOf(r);
    assert r in c'.past.legs;
  }

  lemma FitsKept(c: Cell, c': Cell)
    requires ApprovalFits(c) && G.Preserves(c, c') && (c'.approval.Some? ==> c.approval.Some?)
    ensures ApprovalFits(c')
  {
    hide LegOf;
    if c'.approval.Some? {
      var r :| r in c.past.legs && RecordedFrom(r, c.approval.value);
      assert r in c'.past.legs && RecordedFrom(r, c'.approval.value);
    }
  }

  // ---- what each action adds ----

  /** Every activity there is now was there before, or is in order. */
  ghost predicate Adds(c: Cell, c': Cell) {
    forall a :: a in c'.acts ==> a in c.acts || InOrder(c', a)
  }

  lemma AddsSwapped(c: Cell, c': Cell, i: nat, put: seq<Activity>)
    requires i < |c.acts| && c'.acts == Swap(c.acts, i, put) && forall a :: a in put ==> InOrder(c', a)
    ensures Adds(c, c')
  {
    hide InOrder;
    G.SwapRest(c.acts, i, put);
  }

  lemma LegAdds(c: Cell, i: nat, world: L.World, delivered: bool)
    requires EndTheLeg(c, i, world, delivered).Some?
    ensures Adds(c, EndTheLeg(c, i, world, delivered).value)
  {
    hide Swap, L.RunLeg;
    var c' := EndTheLeg(c, i, world, delivered).value;
    var req := c.acts[i].req;
    var leg := L.RunLeg(req, world);
    var r := LegRecord(req, world);
    assert r in c'.past.legs && LegOf(r) == leg;
    if !delivered {
      AddsSwapped(c, c', i, []);
    } else if leg.outcome.Suspended? {
      AddsSwapped(c, c', i, [Checkpointing(req, leg)]);
    } else {
      assert Answered(r, FinalPayload(req, leg));
      AddsSwapped(c, c', i, [Completing(FinalPayload(req, leg))]);
    }
  }

  /** Processing the reserved fields tells the dispatch what it should. */
  lemma ReviewedReports(r: LegRecord, p: Payload, approval: Option<Approval>)
    requires Answered(r, p)
    ensures Reported(r, Accumulated(Reviewed(p), approval))
  {
    hide LegOf, Partial, ProcessReservedFields;
    match LegOf(r).outcome
    case Failed(_) =>
    case Finished(output) =>
      VerdictExactly(output, 0.0);
      AirlockAfterReserved(output, 0.0, []);
  }

  lemma AccumulateAdds(c: Cell, i: nat)
    requires Kept(c) && AccumulateIt(c, i).Some?
    ensures Adds(c, AccumulateIt(c, i).value)
  {
    hide Swap, Answered, Reported, Reviewed, Accumulated;
    assert c.acts[i] in c.acts;
    var c' := AccumulateIt(c, i).value;
    var r :| r in c.past.legs && Answered(r, c.acts[i].payload);
    ReviewedReports(r, c.acts[i].payload, c.approval);
    AddsSwapped(c, c', i, [Signalling(Accumulated(Reviewed(c.acts[i].payload), c.approval))]);
  }

  lemma CallbackAdds(c: Cell, a: Action)
    requires Kept(c) && CallbackNext(c, a).Some? && G.Preserves(c, CallbackNext(c, a).value)
    ensures Adds(c, CallbackNext(c, a).value)
  {
    hide Swap, Sourced, Answered, Reviewed, Accumulated, NewApproval, CheckpointStep, EndTheLeg, AccumulateIt;
    var c' := CallbackNext(c, a).value;
    match a {
      case EndLeg(i, world, delivered) => LegAdds(c, i, world, delivered);
      case Accumulate(i) => AccumulateAdds(c, i);
      case ReadStep(i) =>
        InOrderKept(c, c', c.acts[i]);
        AddsSwapped(c, c', i, [CheckpointRead(c.acts[i].req, c.acts[i].leg, c.step)]);
      case WriteStep(i) =>
        InOrderKept(c, c', c.acts[i]);
        AddsSwapped(c, c', i, [Recording(c.acts[i].req, c.acts[i].leg)]);
      case CreateApproval(i) => CreateAdds(c, i);
      case LookUp(i) =>
        InOrderKept(c, c', c.acts[i]);
        AddsSwapped(c, c', i, if c.registered then [Sending(c.acts[i].payload)] else []);
      case Send(i) => AddsSwapped(c, c', i, []);
    }
  }

  lemma CreateAdds(c: Cell, i: nat)
    requires Kept(c) && CreateTheApproval(c, i).Some?
    ensures Adds(c, CreateTheApproval(c, i).value)
  {
    hide Swap;
    var c' := CreateTheApproval(c, i).value;
    if c.approval.None? && c'.approval.value.timeoutMS > 0 {
      AddsSwapped(c, c', i, [Timer(c'.approval.value.timeoutBehavior)]);
    } else {
      AddsSwapped(c, c', i, []);
    }
  }

  lemma WriteAdds(c: Cell, i: nat)
    requires Kept(c) && WriteIt(c, i).Some? && G.Preserves(c, WriteIt(c, i).value)
    ensures Adds(c, WriteIt(c, i).value)
  {
    hide Swap, LegOf, ApprovalFits, InOrder, AfterReject, FailedPayload, G.Sound;
    var c' := WriteIt(c, i).value;
    assert InOrder(c, c.acts[i]);
    InOrderKept(c, c', c.acts[i]);
    var a := c'.approval.value;
    FitsKept(c, c');
    match c.acts[i] {
      case Deciding(true, _) =>
        ApprovedInOrder(c', a);
        AddsSwapped(c, c', i, [Redispatching(a)]);
      case Deciding(false, _) =>
        RejectionInOrder(c');
        AddsSwapped(c, c', i, [AfterReject(a)]);
      case Expiring(behavior, _) =>
        RejectionInOrder(c');
        ExpiringTimed(c', c.acts[i]);
        ExpiryInOrder(c', behavior);
        AddsSwapped(c, c', i, [if behavior == "reject" then AfterReject(a) else Signalling(FailedPayload(a, "approval timed out: " + a.call.name))]);
    }
  }

  lemma ApprovedInOrder(c: Cell, a: Approval)
    ensures InOrder(c, Redispatching(a))
  {
  }

  lemma ExpiringTimed(c: Cell, a: Activity)
    requires InOrder(c, a) && a.Expiring?
    ensures Timed(c, a.behavior)
  {
  }

  lemma PartialTwice(c: Cell)
    requires ApprovalFits(c) && c.approval.Some?
    ensures Partial(c.approval.value.partialMetrics) == c.approval.value.partialMetrics
  {
    hide LegOf;
  }

  lemma RejectionInOrder(c: Cell)
    requires ApprovalFits(c) && c.approval.Some? && c.approval.value.status != Pending
    ensures InOrder(c, AfterReject(c.approval.value))
  {
    hide ApprovalFits, Partial;
    PartialTwice(c);
    var a := c.approval.value;
    if a.onReject != "recover" {
      assert Refused(c, FailedPayload(a, "tool call rejected by reviewer: " + a.call.name));
    }
  }

  lemma ExpiryInOrder(c: Cell, behavior: string)
    requires ApprovalFits(c) && c.approval.Some? && c.approval.value.status != Pending && Timed(c, behavior)
    ensures behavior != "reject" ==> InOrder(c, Signalling(FailedPayload(c.approval.value, "approval timed out: " + c.approval.value.call.name)))
  {
    hide ApprovalFits, Partial;
    PartialTwice(c);
    var a := c.approval.value;
    if behavior != "reject" {
      assert Refused(c, FailedPayload(a, "approval timed out: " + a.call.name));
    }
  }

  lemma RepostAdds(c: Cell, i: nat, accepted: bool)
    requires Kept(c) && G.Sound(c) && RepostIt(c, i, accepted).Some?
    ensures Adds(c, RepostIt(c, i, accepted).value)
  {
    hide Swap, LegOf, ResumeRequest, ApprovalFits, Partial;
    var c' := RepostIt(c, i, accepted).value;
    assert c.acts[i] in c.acts && G.ActivitySound(c, c.acts[i]) && InOrder(c, c.acts[i]);
    if accepted {
      AddsSwapped(c, c', i, [RunningLeg(ResumeRequest(c, c.acts[i]))]);
    } else if c.acts[i].Redispatching? {
      AddsSwapped(c, c', i, []);
    } else {
      PartialTwice(c);
      var p := FailedPayload(c.acts[i].approval, "approval rejected (recover dispatch failed)");
      assert Refused(c', p);
      AddsSwapped(c, c', i, [Signalling(p)]);
    }
  }

  lemma FireAdds(c: Cell, i: nat)
    requires Kept(c) && FireIt(c, i).Some?
    ensures Adds(c, FireIt(c, i).value)
  {
    hide Swap, LegOf, Sourced;
    assert InOrder(c, c.acts[i]);
    AddsSwapped(c, FireIt(c, i).value, i, if IsPending(c) then [Expiring(c.acts[i].behavior, c.approval.value)] else []);
  }

  lemma DecisionAdds(c: Cell, a: Action)
    requires Kept(c) && G.Sound(c) && DecisionNext(c, a).Some? && G.Preserves(c, DecisionNext(c, a).value)
    ensures Adds(c, DecisionNext(c, a).value)
  {
    hide Swap, LegOf, Sourced, WriteIt, RepostIt, FireIt;
    match a {
      case Decide(_) =>
      case Fire(i) => FireAdds(c, i);
      case Write(i) => WriteAdds(c, i);
      case Repost(i, accepted) => RepostAdds(c, i, accepted);
    }
  }

  /** The approval that is recorded is that of the leg that suspended. */
  lemma CreateFits(c: Cell, i: nat)
    requires Kept(c) && CreateTheApproval(c, i).Some?
    ensures ApprovalFits(CreateTheApproval(c, i).value) && Guarded(CreateTheApproval(c, i).value)
  {
    hide L.RunLeg;
    var c' := CreateTheApproval(c, i).value;
    assert c.acts[i] in c.acts;
    var r :| r in c.past.legs && r.req == c.acts[i].req && c.acts[i].leg == LegOf(r);
    if c.approval.None? {
      assert RecordedFrom(r, c'.approval.value);
      if c'.approval.value.timeoutMS > 0 {
        assert c'.acts[i] in c'.acts && Watches(c'.acts[i]);
      }
    } else {
      StillWatched(c, c', i, []);
    }
  }

  // ---- approvals that can expire are watched ----

  /** Only what watches an approval ends its watch, and then another takes over or the approval is decided. */
  lemma StillWatched(c: Cell, c': Cell, i: nat, put: seq<Activity>)
    requires Guarded(c) && i < |c.acts| && c'.acts == Swap(c.acts, i, put)
    requires IsPending(c') ==> IsPending(c) && c'.approval.value.timeoutMS == c.approval.value.timeoutMS
    requires IsPending(c') && Watches(c.acts[i]) ==> exists a :: a in put && Watches(a)
    ensures Guarded(c')
  {
    if IsPending(c') && c'.approval.value.timeoutMS > 0 {
      var a :| a in c.acts && Watches(a);
      if a != c.acts[i] {
        AllElse(c.acts, i, put, a);
      } else {
        var b :| b in put && Watches(b);
        InPut(c.acts, i, put, b);
      }
    }
  }

  lemma AllElse(acts: seq<Activity>, i: nat, put: seq<Activity>, a: Activity)
    requires i < |acts| && a in acts && a != acts[i]
    ensures a in Swap(acts, i, put)
  {
    var j :| 0 <= j < |acts| && acts[j] == a;
    if j < i {
      assert Swap(acts, i, put)[j] == a;
    } else {
      assert Swap(acts, i, put)[j - 1 + |put|] == a;
    }
  }

  lemma InPut(acts: seq<Activity>, i: nat, put: seq<Activity>, a: Activity)
    requires i < |acts| && a in put
    ensures a in Swap(acts, i, put)
  {
    var j :| 0 <= j < |put| && put[j] == a;
    assert Swap(acts, i, put)[i + j] == a;
  }

  lemma CallbackWatched(c: Cell, a: Action)
    requires Guarded(c) && CallbackNext(c, a).Some? && !a.CreateApproval?
    ensures Guarded(CallbackNext(c, a).value)
  {
    hide Guarded, Swap, L.RunLeg, Reviewed, Accumulated, CheckpointStep, FinalPayload;
    var c' := CallbackNext(c, a).value;
    match a {
      case EndLeg(i, world, delivered) =>
        var req := c.acts[i].req;
        var leg := L.RunLeg(req, world);
        StillWatched(c, c', i,
          if !delivered then [] else if leg.outcome.Suspended? then [Checkpointing(req, leg)] else [Completing(FinalPayload(req, leg))]);
      case Accumulate(i) => StillWatched(c, c', i, [Signalling(Accumulated(Reviewed(c.acts[i].payload), c.approval))]);
      case ReadStep(i) => StillWatched(c, c', i, [CheckpointRead(c.acts[i].req, c.acts[i].leg, c.step)]);
      case WriteStep(i) => StillWatched(c, c', i, [Recording(c.acts[i].req, c.acts[i].leg)]);
      case LookUp(i) => StillWatched(c, c', i, if c.registered then [Sending(c.acts[i].payload)] else []);
      case Send(i) => StillWatched(c, c', i, []);
    }
  }

  lemma WriteWatched(c: Cell, i: nat)
    requires Guarded(c) && WriteIt(c, i).Some?
    ensures Guarded(WriteIt(c, i).value)
  {
    hide Swap, AfterReject, FailedPayload;
  }

  lemma DecisionWatched(c: Cell, a: Action)
    requires Guarded(c) && DecisionNext(c, a).Some?
    ensures Guarded(DecisionNext(c, a).value)
  {
    hide Swap, FailedPayload, WriteIt, ResumeRequest;
    var c' := DecisionNext(c, a).value;
    match a {
      case Decide(_) =>
      case Fire(i) =>
        var put := if IsPending(c) then [Expiring(c.acts[i].behavior, c.approval.value)] else [];
        assert IsPending(c) ==> put[0] in put;
        StillWatched(c, c', i, put);
      case Write(i) => WriteWatched(c, i);
      case Repost(i, accepted) =>
        var failed := Signalling(FailedPayload(c.acts[i].approval, "approval rejected (recover dispatch failed)"));
        StillWatched(c, c', i,
          if accepted then [RunningLeg(ResumeRequest(c, c.acts[i]))] else if c.acts[i].Redispatching? then [] else [failed]);
    }
  }

  // ---- every run ----

  /** The slot and what the dispatch received are told by what is sent. */
  lemma PayloadsKept(c: Cell, a: Action)
    requires Kept(c) && Next(c, a).Some? && G.Preserves(c, Next(c, a).value)
    ensures var c' := Next(c, a).value;
      && (forall p :: p in c'.slot ==> Sourced(c', p))
      && (c'.dispatch.Received? ==> Sourced(c', c'.dispatch.payload))
  {
    hide Sourced, InOrder, Swap, L.RunLeg, WriteIt, RepostIt, Reviewed, Accumulated, NewApproval, CheckpointStep, FinalPayload;
    var c' := Next(c, a).value;
    SlotComes(c, a);
    forall p | p in c'.slot ensures Sourced(c', p) {
      if p !in c.slot {
        assert InOrder(c, c.acts[a.i]);
        SendingSourced(c, c.acts[a.i]);
      }
      SourcedKept(c, c', p);
    }
    if c'.dispatch.Received? {
      SourcedKept(c, c', c'.dispatch.payload);
    }
  }

  lemma SendingSourced(c: Cell, a: Activity)
    requires InOrder(c, a) && a.Sending?
    ensures Sourced(c, a.payload)
  {
    hide Sourced;
  }

  /** Where payloads come from: into the slot by a send, and to the dispatch from the slot. */
  lemma SlotComes(c: Cell, a: Action)
    requires Next(c, a).Some?
    ensures var c' := Next(c, a).value;
      && (forall p :: p in c'.slot && p !in c.slot ==> a.Send? && a.i < |c.acts| && c.acts[a.i] == Sending(p))
      && (c'.dispatch.Received? ==> c.dispatch == c'.dispatch || c'.dispatch.payload in c.slot)
  {
    hide Swap, L.RunLeg, Reviewed, Accumulated, NewApproval, CheckpointStep, FinalPayload, AfterReject, FailedPayload, ApproveRequest, RecoverRequest;
  }

  lemma ApprovalComes(c: Cell, a: Action)
    requires Next(c, a).Some? && !a.CreateApproval?
    ensures Next(c, a).value.approval.Some? ==> c.approval.Some?
  {
    hide Swap, L.RunLeg, Reviewed, Accumulated, NewApproval, CheckpointStep, FinalPayload, AfterReject, FailedPayload, ApproveRequest, RecoverRequest;
  }

  lemma FitsAndWatched(c: Cell, a: Action)
    requires Kept(c) && Next(c, a).Some? && G.Preserves(c, Next(c, a).value)
    ensures ApprovalFits(Next(c, a).value) && Guarded(Next(c, a).value)
  {
    hide ApprovalFits, Guarded, InOrder, CreateTheApproval, WriteIt, RepostIt, EndTheLeg, AccumulateIt;
    if a.CreateApproval? {
      CreateFits(c, a.i);
    } else {
      ApprovalComes(c, a);
      FitsKept(c, Next(c, a).value);
      if ByCallback(a) {
        CallbackWatched(c, a);
      } else if ByDecision(a) {
        DecisionWatched(c, a);
      } else {
        DispatchWatched(c, a);
      }
    }
  }

  lemma DispatchWatched(c: Cell, a: Action)
    requires Guarded(c) && DispatchNext(c, a).Some?
    ensures Guarded(DispatchNext(c, a).value) && forall x :: x in c.acts ==> x in DispatchNext(c, a).value.acts
  {
  }

  lemma DispatchAdds(c: Cell, a: Action)
    requires DispatchNext(c, a).Some?
    ensures Adds(c, DispatchNext(c, a).value)
  {
  }

  lemma KeptStep(c: Cell, a: Action)
    requires Kept(c) && G.Sound(c) && Conserved(c) && Next(c, a).Some?
    ensures Kept(Next(c, a).value)
  {
    hide InOrder, Sourced, ApprovalFits, Guarded, G.Sound, G.Preserves, Conserved, CallbackNext, DecisionNext, DispatchNext;
    var c' := Next(c, a).value;
    G.SoundStep(c, a);
    PayloadsKept(c, a);
    FitsAndWatched(c, a);
    if ByCallback(a) {
      CallbackAdds(c, a);
    } else if ByDecision(a) {
      DecisionAdds(c, a);
    } else {
      DispatchAdds(c, a);
    }
    forall x | x in c'.acts ensures InOrder(c', x) {
      if x in c.acts {
        InOrderKept(c, c', x);
      }
    }
  }

  /** In every run, however finely interleaved, approvals, timers and payloads are what they stand for. */
  lemma {:induction false} AllKept(actions: seq<Action>)
    requires Run(actions).Some?
    ensures Kept(Run(actions).value)
  {
    if actions != [] {
      var front := actions[..|actions| - 1];
      AllKept(front);
      G.AllSound(front);
      TokenConservation(front);
      KeptStep(Run(front).value, actions[|actions| - 1]);
    }
  }

  // ---- what follows ----

  /** Rule `k` of server `i`, where the leg `r` took the approval's call, is what suspended it. */
  ghost predicate Governs(c: Cell, r: LegRecord, i: nat, k: nat) {
    && c.approval.Some? && r in c.past.legs && RecordedFrom(r, c.approval.value)
    && R.SuspendedBy(r.req, r.world, LegOf(r).outcome.pending, i, k)
  }

  function RuleOf(r: LegRecord, i: nat, k: nat): L.Rule
    requires i < |r.req.servers| && k < |r.req.servers[i].rules|
  {
    r.req.servers[i].rules[k]
  }

  lemma GoverningRule(c: Cell) returns (r: LegRecord, i: nat, k: nat)
    requires Kept(c) && c.approval.Some?
    ensures Governs(c, r, i, k)
  {
    hide L.RunLeg, InOrder, Sourced;
    r :| r in c.past.legs && RecordedFrom(r, c.approval.value);
    i, k := R.SuspendedByFirstRule(r.req, r.world);
  }

  /**
   * In every run the recorded approval is that of a leg that suspended, and says of its call what
   * the rule says that suspended it: the first that speaks of the tool on the last server to offer
   * it. A timer has that rule's behaviour, and while the approval can expire there is one.
   */
  lemma ApprovalFollowsRule(actions: seq<Action>, j: nat) returns (r: LegRecord, i: nat, k: nat)
    requires Run(actions).Some? && Run(actions).value.approval.Some?
    ensures var (c, a) := (Run(actions).value, Run(actions).value.approval.value);
      && Governs(c, r, i, k)
      && var rule := RuleOf(r, i, k);
      && a.call == LegOf(r).outcome.pending.call && a.originalRequest == r.req
      && a.onReject == rule.onReject && a.timeoutMS == rule.timeoutMS && a.timeoutBehavior == rule.timeoutBehavior
      && (j < |c.acts| && Watches(c.acts[j]) ==> rule.timeoutMS > 0 && c.acts[j].behavior == rule.timeoutBehavior)
      && (a.status == Pending && rule.timeoutMS > 0 ==> exists x :: x in c.acts && Watches(x))
  {
    hide L.RunLeg, Sourced;
    AllKept(actions);
    var c := Run(actions).value;
    r, i, k := GoverningRule(c);
    if j < |c.acts| && Watches(c.acts[j]) {
      assert InOrder(c, c.acts[j]);
    }
  }

  /** Without an approval there is no timer. */
  lemma NoTimerWithoutApproval(actions: seq<Action>, j: nat)
    requires Run(actions).Some? && j < |Run(actions).value.acts| && Watches(Run(actions).value.acts[j])
    ensures Run(actions).value.approval.Some?
  {
    AllKept(actions);
    assert InOrder(Run(actions).value, Run(actions).value.acts[j]);
  }

  /** The record shows that the step waits, and holds what the leg used and its transcript. */
  predicate Holds(step: StepRecord, leg: L.Leg) {
    && step.status == PendingApproval
    && step.messages == leg.state.messages
    && step.metrics.usage == leg.state.metrics.usage
    && step.metrics.counts == Counts(leg.state.metrics.counts.llmCalls, leg.state.metrics.counts.toolCalls, 0)
  }

  /**
   * In every run a checkpoint saves the whole transcript of the leg that suspended last, over what an
   * earlier one saved; if the handler found no record of the step it saves nothing.
   */
  lemma CheckpointSaves(actions: seq<Action>, i: nat) returns (r: LegRecord)
    requires Run(actions).Some? && Next(Run(actions).value, WriteStep(i)).Some?
    ensures var (c, c') := (Run(actions).value, Next(Run(actions).value, WriteStep(i)).value);
      && r in c.past.legs && LegOf(r).outcome.Suspended?
      && i < |c.acts| && c.acts[i].CheckpointRead? && c.acts[i].leg == LegOf(r)
      && (if c.acts[i].copy.Some? then c'.step.Some? && Holds(c'.step.value, LegOf(r)) else c'.step == c.step)
  {
    hide L.RunLeg, Sourced, Swap;
    AllKept(actions);
    var c := Run(actions).value;
    assert InOrder(c, c.acts[i]);
    r :| r in c.past.legs && r.req == c.acts[i].req && c.acts[i].leg == LegOf(r);
    SuspendedFacts(r.req, r.world);
  }

  /** The handler goes on to tell the waiting dispatch that the step has failed, at the cost of the suspended leg. */
  predicate EndsStep(next: Activity, a: Approval, error: string) {
    next == Signalling(Payload(HasFailed, map[], error, a.partialMetrics, false))
  }

  predicate FollowsRejection(rule: L.Rule, next: Activity, a: Approval) {
    if rule.onReject == "recover" then next == Recovering(a)
    else EndsStep(next, a, "tool call rejected by reviewer: " + a.call.name)
  }

  /** What a handler that had read the approval stores, and what it goes on with. */
  predicate Follows(handler: Activity, rule: L.Rule, next: Activity, a: Approval) {
    match handler
    case Deciding(true, _) => a.status == Approved && next == Redispatching(a)
    case Deciding(false, _) => a.status == Rejected && FollowsRejection(rule, next, a)
    case Expiring(_, _) =>
      && a.status == TimedOut
      && if rule.timeoutBehavior == "reject" then FollowsRejection(rule, next, a)
         else EndsStep(next, a, "approval timed out: " + a.call.name)
    case _ => false
  }

  /**
   * In every run a decision leads where the rule says. An approved call is resumed; a rejected one,
   * and one that expires under a rule with the behaviour "reject", is given back to the agent if the
   * rule says "recover" and fails the step otherwise; expiry fails the step under any other behaviour.
   */
  lemma DecisionFollowsRule(actions: seq<Action>, j: nat) returns (r: LegRecord, i: nat, k: nat)
    requires Run(actions).Some? && Next(Run(actions).value, Write(j)).Some?
    ensures var (c, c') := (Run(actions).value, Next(Run(actions).value, Write(j)).value);
      && j < |c.acts| == |c'.acts| && (forall x :: 0 <= x < |c.acts| && x != j ==> c'.acts[x] == c.acts[x])
      && Governs(c', r, i, k)
      && Follows(c.acts[j], RuleOf(r, i, k), c'.acts[j], c'.approval.value)
  {
    hide L.RunLeg, Sourced, LegOf, R.SuspendedBy;
    var c, c' := Run(actions).value, Next(Run(actions).value, Write(j)).value;
    AllKept(actions);
    G.AllSound(actions);
    TokenConservation(actions);
    G.SoundStep(c, Write(j));
    KeptStep(c, Write(j));
    r, i, k := GoverningRule(c');
    HandlerFollows(c, j, r, i, k);
  }

  lemma SwappedOne(acts: seq<Activity>, j: nat, next: Activity)
    requires j < |acts|
    ensures |Swap(acts, j, [next])| == |acts| && Swap(acts, j, [next])[j] == next
    ensures forall x :: 0 <= x < |acts| && x != j ==> Swap(acts, j, [next])[x] == acts[x]
  {
  }

  /** The rule's fields are the approval's, and its metrics are as records keep them. */
  ghost predicate Carries(a: Approval, rule: L.Rule) {
    a.onReject == rule.onReject && a.timeoutBehavior == rule.timeoutBehavior && Partial(a.partialMetrics) == a.partialMetrics
  }

  lemma GovernedCarries(c: Cell, r: LegRecord, i: nat, k: nat)
    requires Governs(c, r, i, k)
    ensures Carries(c.approval.value, RuleOf(r, i, k))
  {
    hide LegOf, R.LastToOffer, R.FirstRule;
  }

  lemma WrittenFollows(c: Cell, j: nat, rule: L.Rule)
    requires WriteIt(c, j).Some? && Carries(WriteIt(c, j).value.approval.value, rule)
    requires c.acts[j].Expiring? ==> c.acts[j].behavior == rule.timeoutBehavior
    ensures var c' := WriteIt(c, j).value;
      && j < |c.acts| == |c'.acts| && (forall x :: 0 <= x < |c.acts| && x != j ==> c'.acts[x] == c.acts[x])
      && Follows(c.acts[j], rule, c'.acts[j], c'.approval.value)
  {
    hide Swap, IsPending;
    var a := WriteIt(c, j).value.approval.value;
    SwappedOne(c.acts, j, Redispatching(a));
    SwappedOne(c.acts, j, AfterReject(a));
    SwappedOne(c.acts, j, Signalling(FailedPayload(a, "approval timed out: " + a.call.name)));
  }

  lemma HandlerFollows(c: Cell, j: nat, r: LegRecord, i: nat, k: nat)
    requires Kept(c) && WriteIt(c, j).Some? && G.Preserves(c, WriteIt(c, j).value) && Governs(WriteIt(c, j).value, r, i, k)
    ensures var c' := WriteIt(c, j).value;
      && j < |c.acts| == |c'.acts| && (forall x :: 0 <= x < |c.acts| && x != j ==> c'.acts[x] == c.acts[x])
      && Follows(c.acts[j], RuleOf(r, i, k), c'.acts[j], c'.approval.value)
  {
    hide LegOf, InOrder, Carries, WriteIt, Follows;
    var c' := WriteIt(c, j).value;
    GovernedCarries(c', r, i, k);
    Written(c, j);
    if c.acts[j].Expiring? {
      assert InOrder(c, c.acts[j]);
      InOrderKept(c, c', c.acts[j]);
      ExpiringTimed(c', c.acts[j]);
      BehaviorCarried(c'.approval.value, RuleOf(r, i, k));
    }
    WrittenFollows(c, j, RuleOf(r, i, k));
  }

  lemma Written(c: Cell, j: nat)
    requires WriteIt(c, j).Some?
    ensures j < |c.acts| && (c.acts[j].Deciding? || c.acts[j].Expiring?) && WriteIt(c, j).value.approval.Some?
  {
    hide Swap;
  }

  lemma BehaviorCarried(a: Approval, rule: L.Rule)
    requires Carries(a, rule)
    ensures a.timeoutBehavior == rule.timeoutBehavior
  {
  }

  /**
   * In every run the request a decided approval is resumed with is the one its leg was started with,
   * with the transcript saved for the step: with the approved call's id, or with the rejection as the
   * answer to the call.
   */
  lemma ResumedWith(actions: seq<Action>, j: nat)
    requires Run(actions).Some? && Next(Run(actions).value, Repost(j, true)).Some?
    ensures var (c, c') := (Run(actions).value, Next(Run(actions).value, Repost(j, true)).value);
      && c.approval.Some? && j < |c.acts| == |c'.acts| && c'.acts[j].RunningLeg?
      && var (a, saved, req) := (c.approval.value, if c.step.Some? then c.step.value.messages else [], c'.acts[j].req);
         if c.acts[j].Redispatching? then
           req == a.originalRequest.(isResume := true, approvedToolCalls := [a.call.id],
                                     messages := if saved != [] then saved else a.originalRequest.messages)
         else
           && a.onReject == "recover"
           && req == a.originalRequest.(isResume := true, messages := saved + [L.ResultMessage(a.call.id,
                "Tool call rejected by human reviewer. Please find an alternative approach.")])
  {
    hide L.RunLeg, Sourced, ApprovalFits, Guarded;
    AllKept(actions);
    G.AllSound(actions);
    var c := Run(actions).value;
    assert InOrder(c, c.acts[j]) && G.ActivitySound(c, c.acts[j]);
  }

  /**
   * In every run the waiting dispatch is told either how a leg of its step ended, reserved fields
   * processed, or that the approval was decided and no leg goes on.
   */
  lemma ReceivedAnswer(actions: seq<Action>)
    requires Run(actions).Some? && Run(actions).value.dispatch.Received?
    ensures var (c, p) := (Run(actions).value, Run(actions).value.dispatch.payload);
      (exists r :: r in c.past.legs && Reported(r, p)) || Refused(c, p)
  {
    AllKept(actions);
  }

  /**
   * A call is made to a tool that a rule speaks of, on the last server to offer it, only with the id
   * of a call on which a leg suspended and which a human then approved.
   */
  lemma GovernedCallsAreGranted(actions: seq<Action>, r: LegRecord, e: L.Event)
    requires Run(actions).Some? && r in Run(actions).value.past.legs
    requires e in LegOf(r).state.events && e.Called?
    ensures R.Ungoverned(r.req, r.world, e.call.name) || exists g ::
      && g in Run(actions).value.past.granted && g.call.id == e.call.id && g.status == Approved
      && G.AskedBy(Run(actions).value.past.legs, g.call)
  {
    hide L.RunLeg, R.Ungoverned;
    if !e.preApproved {
      R.UnaskedCallsAreUngoverned(r.req, r.world, e);
    } else {
      R.DiscoveredBeforeCalls(r.req, r.world);
      G.GatedCallsAreGranted(actions, r, L.Discover(r.req.servers, r.world).value, e);
    }
  }
}
