/**
 * Safety of the approval protocol in every run, however finely the handlers interleave: decided
 * approvals stay decided, and a tool call that needs approval is made only after a human granted it.
 */
module ApprovalGating {
  import opened Wrappers
  import opened Approvals
  import opened Types
  import opened Protocol
  import L = AgentLoop
  import P = LoopProperties

  /** Two copies of an approval record that differ at most in the decision. */
  predicate SameRecord(a: Approval, b: Approval) {
    a == b.(status := a.status)
  }

  ghost predicate Grants(granted: seq<Approval>, id: string) {
    exists g :: g in granted && g.call.id == id
  }

  /** Every id the leg may execute without asking was granted. */
  ghost predicate Authorised(granted: seq<Approval>, req: L.Request) {
    forall id :: id in req.approvedToolCalls ==> Grants(granted, id)
  }

  /** Some finished leg suspended on this call. */
  ghost predicate AskedBy(legs: seq<LegRecord>, call: L.ToolCall) {
    exists r :: r in legs && L.RunLeg(r.req, r.world).outcome.Suspended? && L.RunLeg(r.req, r.world).outcome.pending.call == call
  }

  /** An approval handled outside the store is a copy of the stored one. */
  ghost predicate CopyOf(c: Cell, a: Approval) {
    c.approval.Some? && SameRecord(a, c.approval.value)
  }

  ghost predicate ActivitySound(c: Cell, a: Activity) {
    match a
    case RunningLeg(req) => Authorised(c.past.granted, req) && (c.approval.None? ==> Fresh(req))
    case Checkpointing(req, leg) => LegOf(c, req, leg)
    case CheckpointRead(req, leg, _) => LegOf(c, req, leg)
    case Recording(req, leg) => LegOf(c, req, leg)
    case Deciding(_, read) => CopyOf(c, read)
    case Expiring(_, read) => CopyOf(c, read)
    case Redispatching(approval) => CopyOf(c, approval) && approval in c.past.granted
    case Recovering(approval) => CopyOf(c, approval)
    case _ => true
  }

  ghost predicate LegOf(c: Cell, req: L.Request, leg: L.Leg) {
    (c.approval.None? ==> Fresh(req)) && (leg.outcome.Suspended? ==> AskedBy(c.past.legs, leg.outcome.pending.call))
  }

  ghost predicate Sound(c: Cell) {
    && (forall a :: a in c.acts ==> ActivitySound(c, a))
    && (c.approval.Some? ==> Fresh(c.approval.value.originalRequest) && AskedBy(c.past.legs, c.approval.value.call))
    && (forall r :: r in c.past.legs ==> Authorised(c.past.granted, r.req))
    && (forall g :: g in c.past.granted ==> g.status == Approved && AskedBy(c.past.legs, g.call))
  }

  /** The stored record is only ever created once and only its decision changes. */
  ghost predicate Preserves(c: Cell, c': Cell) {
    && (forall r :: r in c.past.legs ==> r in c'.past.legs)
    && (forall g :: g in c.past.granted ==> g in c'.past.granted)
    && (c.approval.Some? ==> c'.approval.Some? && SameRecord(c.approval.value, c'.approval.value))
    && (c.approval.Some? && c.approval.value.status != Pending ==> c'.approval.value.status != Pending)
  }

  lemma SoundActivityKept(c: Cell, c': Cell, a: Activity)
    requires ActivitySound(c, a) && Preserves(c, c') && (c'.approval.None? <==> c.approval.None?)
    ensures ActivitySound(c', a)
  {
    GrowLogs(c, c');
  }

  lemma GrowLogs(c: Cell, c': Cell)
    requires Preserves(c, c')
    ensures forall id :: Grants(c.past.granted, id) ==> Grants(c'.past.granted, id)
    ensures forall call :: AskedBy(c.past.legs, call) ==> AskedBy(c'.past.legs, call)
  {
    forall id | Grants(c.past.granted, id) ensures Grants(c'.past.granted, id) {
      var g :| g in c.past.granted && g.call.id == id;
      assert g in c'.past.granted;
    }
    forall call | AskedBy(c.past.legs, call) ensures AskedBy(c'.past.legs, call) {
      var r :| r in c.past.legs && L.RunLeg(r.req, r.world).outcome.Suspended? && L.RunLeg(r.req, r.world).outcome.pending.call == call;
      assert r in c'.past.legs;
    }
  }

  /** Activities of the old cell stay, apart from number `i`, which becomes `put`. */
  ghost predicate Rest(c: Cell, c': Cell, put: seq<Activity>) {
    forall a :: a in c'.acts ==> a in c.acts || a in put
  }

  lemma SwapRest(acts: seq<Activity>, i: nat, put: seq<Activity>)
    requires i < |acts|
    ensures forall a :: a in Swap(acts, i, put) ==> a in acts || a in put
  {
  }

  /** One step that leaves legs and grants alone and puts sound activities in. */
  lemma SoundMove(c: Cell, c': Cell, put: seq<Activity>)
    requires Sound(c) && Rest(c, c', put) && Preserves(c, c')
    requires (c'.approval.None? <==> c.approval.None?) || c.acts == [] || (forall a :: a in c.acts && a !in put ==> ActivitySound(c', a))
    requires forall a :: a in put ==> ActivitySound(c', a)
    requires c'.past.legs == c.past.legs && c'.past.granted == c.past.granted
    requires c'.approval.Some? ==> Fresh(c'.approval.value.originalRequest) && AskedBy(c.past.legs, c'.approval.value.call)
    ensures Sound(c')
  {
    forall a | a in c'.acts ensures ActivitySound(c', a) {
      if a !in put {
        if c'.approval.None? <==> c.approval.None? {
          SoundActivityKept(c, c', a);
        }
      }
    }
  }

  lemma DispatchSound(c: Cell, a: Action)
    requires Sound(c) && Conserved(c) && DispatchNext(c, a).Some?
    ensures Sound(DispatchNext(c, a).value) && Preserves(c, DispatchNext(c, a).value)
  {
    var c' := DispatchNext(c, a).value;
    var put := if a.Post? then [RunningLeg(a.req)] else [];
    assert Rest(c, c', put);
    SoundMove(c, c', put);
  }

  lemma EndLegSound(c: Cell, i: nat, world: L.World, delivered: bool)
    requires Sound(c) && EndTheLeg(c, i, world, delivered).Some?
    ensures Sound(EndTheLeg(c, i, world, delivered).value) && Preserves(c, EndTheLeg(c, i, world, delivered).value)
  {
    var c' := EndTheLeg(c, i, world, delivered).value;
    var req := c.acts[i].req;
    var leg := L.RunLeg(req, world);
    var put := if !delivered then [] else if leg.outcome.Suspended? then [Checkpointing(req, leg)] else [Completing(FinalPayload(req, leg))];
    SwapRest(c.acts, i, put);
    assert c.acts[i] in c.acts;
    assert LegRecord(req, world) in c'.past.legs;
    GrowLogs(c, c');
    forall a | a in c'.acts ensures ActivitySound(c', a) {
      if a !in put {
        SoundActivityKept(c, c', a);
      }
    }
  }

  /** Activity `i` ends or becomes one sound activity; nothing else changes but the step record. */
  lemma HandlerMove(c: Cell, c': Cell, i: nat, put: seq<Activity>)
    requires Sound(c) && i < |c.acts| && c'.acts == Swap(c.acts, i, put)
    requires c'.approval == c.approval && c'.past.legs == c.past.legs && c'.past.granted == c.past.granted
    requires forall a :: a in put ==> ActivitySound(c', a)
    ensures Sound(c') && Preserves(c, c')
  {
    SwapRest(c.acts, i, put);
    SoundMove(c, c', put);
  }

  lemma HandlerSound(c: Cell, a: Action)
    requires Sound(c) && CallbackNext(c, a).Some? && !a.EndLeg? && !a.CreateApproval?
    ensures Sound(CallbackNext(c, a).value) && Preserves(c, CallbackNext(c, a).value)
  {
    var c' := CallbackNext(c, a).value;
    match a {
      case ReadStep(i) =>
        assert c.acts[i] in c.acts;
        HandlerMove(c, c', i, [CheckpointRead(c.acts[i].req, c.acts[i].leg, c.step)]);
      case WriteStep(i) =>
        assert c.acts[i] in c.acts;
        HandlerMove(c, c', i, [Recording(c.acts[i].req, c.acts[i].leg)]);
      case Accumulate(i) => HandlerMove(c, c', i, [Signalling(Accumulated(Reviewed(c.acts[i].payload), c.approval))]);
      case LookUp(i) => HandlerMove(c, c', i, if c.registered then [Sending(c.acts[i].payload)] else []);
      case Send(i) => HandlerMove(c, c', i, []);
    }
  }

  lemma CreateApprovalSound(c: Cell, i: nat)
    requires Sound(c) && CreateTheApproval(c, i).Some?
    ensures Sound(CreateTheApproval(c, i).value) && Preserves(c, CreateTheApproval(c, i).value)
  {
    var c' := CreateTheApproval(c, i).value;
    assert c.acts[i] in c.acts;
    SwapRest(c.acts, i, if |c'.acts| < |c.acts| then [] else [c'.acts[i]]);
    forall a | a in c'.acts ensures ActivitySound(c', a) {
      if a in c.acts {
        assert ActivitySound(c, a);
      }
    }
  }

  lemma DecisionSound(c: Cell, a: Action)
    requires Sound(c) && DecisionNext(c, a).Some?
    ensures Sound(DecisionNext(c, a).value) && Preserves(c, DecisionNext(c, a).value)
  {
    match a {
      case Decide(approve) =>
        SoundMove(c, DecideIt(c, approve).value, [Deciding(approve, c.approval.value)]);
      case Fire(i) =>
        var c' := FireIt(c, i).value;
        var put := if IsPending(c) then [Expiring(c.acts[i].behavior, c.approval.value)] else [];
        SwapRest(c.acts, i, put);
        SoundMove(c, c', put);
      case Write(i) => WriteSound(c, i);
      case Repost(i, accepted) => RepostSound(c, i, accepted);
    }
  }

  lemma RejectionSound(c: Cell, c': Cell, i: nat, next: Activity, a: Approval)
    requires Sound(c) && i < |c.acts| && c'.acts == Swap(c.acts, i, [next])
    requires CopyOf(c, a) && a.status != Pending && c'.approval == Some(a)
    requires next == Recovering(a) || next.Signalling?
    requires c'.past.legs == c.past.legs && c'.past.granted == c.past.granted
    ensures Sound(c') && Preserves(c, c')
  {
    SwapRest(c.acts, i, [next]);
    SoundMove(c, c', [next]);
  }

  lemma GrantSound(c: Cell, c': Cell, i: nat, a: Approval)
    requires Sound(c) && i < |c.acts| && c'.acts == Swap(c.acts, i, [Redispatching(a)])
    requires CopyOf(c, a) && a.status == Approved && c'.approval == Some(a)
    requires c'.past.legs == c.past.legs && c'.past.granted == c.past.granted + [a]
    ensures Sound(c') && Preserves(c, c')
  {
    SwapRest(c.acts, i, [Redispatching(a)]);
    GrowLogs(c, c');
    forall act | act in c'.acts ensures ActivitySound(c', act) {
      if act in c.acts {
        SoundActivityKept(c, c', act);
      }
    }
  }

  lemma WriteSound(c: Cell, i: nat)
    requires Sound(c) && WriteIt(c, i).Some?
    ensures Sound(WriteIt(c, i).value) && Preserves(c, WriteIt(c, i).value)
  {
    var c' := WriteIt(c, i).value;
    assert c.acts[i] in c.acts;
    var a := c'.approval.value;
    match c.acts[i] {
      case Deciding(true, read) => GrantSound(c, c', i, a);
      case Deciding(false, read) => RejectionSound(c, c', i, AfterReject(a), a);
      case Expiring(behavior, read) =>
        RejectionSound(c, c', i, if behavior == "reject" then AfterReject(a) else Signalling(FailedPayload(a, "approval timed out: " + a.call.name)), a);
    }
  }

  lemma RepostSound(c: Cell, i: nat, accepted: bool)
    requires Sound(c) && RepostIt(c, i, accepted).Some?
    ensures Sound(RepostIt(c, i, accepted).value) && Preserves(c, RepostIt(c, i, accepted).value)
  {
    var c' := RepostIt(c, i, accepted).value;
    assert c.acts[i] in c.acts;
    var approval := c.acts[i].approval;
    if accepted {
      if c.acts[i].Redispatching? {
        assert Grants(c.past.granted, approval.call.id);
      }
      HandlerMove(c, c', i, [RunningLeg(ResumeRequest(c, c.acts[i]))]);
    } else if c.acts[i].Redispatching? {
      HandlerMove(c, c', i, []);
    } else {
      HandlerMove(c, c', i, [Signalling(FailedPayload(approval, "approval rejected (recover dispatch failed)"))]);
    }
  }

  lemma SoundStep(c: Cell, a: Action)
    requires Sound(c) && Conserved(c) && Next(c, a).Some?
    ensures Sound(Next(c, a).value) && Preserves(c, Next(c, a).value)
  {
    if CallbackNext(c, a).Some? {
      match a {
        case EndLeg(i, world, delivered) => EndLegSound(c, i, world, delivered);
        case CreateApproval(i) => CreateApprovalSound(c, i);
        case _ => HandlerSound(c, a);
      }
    } else if DecisionNext(c, a).Some? {
      DecisionSound(c, a);
    } else {
      DispatchSound(c, a);
    }
  }

  lemma {:induction false} AllSound(actions: seq<Action>)
    requires Run(actions).Some?
    ensures Sound(Run(actions).value)
  {
    if actions != [] {
      var front := actions[..|actions| - 1];
      AllSound(front);
      TokenConservation(front);
      SoundStep(Run(front).value, actions[|actions| - 1]);
    }
  }

  /**
   * Approval gating over whole runs. Every tool call of every leg either needs no approval on the
   * server it is routed to, or carries the id of a call on which an earlier leg suspended and
   * which a human then decided to approve.
   */
  lemma GatedCallsAreGranted(actions: seq<Action>, r: LegRecord, routing: L.Routing, e: L.Event)
    requires Run(actions).Some? && r in Run(actions).value.past.legs
    requires L.Discover(r.req.servers, r.world) == Some(routing)
    requires e in L.RunLeg(r.req, r.world).state.events && e.Called?
    ensures e.preApproved || !L.Gated(routing, e.call.name)
    ensures e.preApproved ==> P.StoredUse(L.InitialMessages(r.req), e.call)
    ensures e.preApproved ==> exists g ::
      g in Run(actions).value.past.granted && g.call.id == e.call.id && g.status == Approved &&
      AskedBy(Run(actions).value.past.legs, g.call)
  {
    AllSound(actions);
    P.ApprovalGate(r.req, r.world, routing);
    assert P.Permitted(r.req, routing, e);
  }

  /** A decided approval is never pending again, and the record it decides never changes. */
  lemma {:induction false} DecidedForGood(actions: seq<Action>, more: seq<Action>)
    requires Run(actions + more).Some? && Run(actions).Some? && Run(actions).value.approval.Some?
    ensures var (before, after) := (Run(actions).value, Run(actions + more).value);
      && after.approval.Some? && SameRecord(before.approval.value, after.approval.value)
      && (before.approval.value.status != Pending ==> after.approval.value.status != Pending)
    decreases |more|
  {
    if more == [] {
      assert actions + more == actions;
    } else {
      var n := |more| - 1;
      assert (actions + more)[..|actions + more| - 1] == actions + more[..n];
      DecidedForGood(actions, more[..n]);
      AllSound(actions + more[..n]);
      TokenConservation(actions + more[..n]);
      SoundStep(Run(actions + more[..n]).value, more[n]);
    }
  }
}
