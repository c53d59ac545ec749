/**
 * The suspend / approve / resume protocol of one step as a transition system. Each action is one
 * access to shared state, so the check and the update of an approval are separate actions and any
 * number of handlers can be between the two. Only a redispatch makes two accesses, it reads the
 * step record and posts: module Redispatch shows that nothing in between makes a difference.
 */
module Protocol {
  import opened Wrappers
  import opened Metrics
  import opened Approvals
  import opened Types
  import L = AgentLoop

  /** Something in progress: a leg in the runtime, a handler part-way through, or a timer. */
  datatype Activity =
    | RunningLeg(req: L.Request)
    | Checkpointing(req: L.Request, leg: L.Leg)                                  // callback arrived, status pending_approval
    | CheckpointRead(req: L.Request, leg: L.Leg, copy: Option<StepRecord>)       // has read the step record
    | Recording(req: L.Request, leg: L.Leg)                                      // about to create the approval
    | Completing(payload: Payload)                                               // callback arrived, any other status
    | Signalling(payload: Payload)                                               // about to look up the channel
    | Sending(payload: Payload)                                                  // has found the channel
    | Timer(behavior: string)
    | Deciding(approve: bool, read: Approval)                                    // has read a pending approval
    | Expiring(behavior: string, read: Approval)                                 // has read a pending approval
    | Redispatching(approval: Approval)
    | Recovering(approval: Approval)

  /** The waiting dispatch: returns on a payload, on cancellation or when its POST is refused. */
  datatype Dispatch = Idle | Posting | Waiting | Received(payload: Payload) | Cancelled | Refused

  /** What has happened, for stating properties; no action depends on it. */
  datatype History = History(
    origin: Option<L.Request>, // the request of the first leg
    posts: nat,                // first legs accepted by the runtime
    stale: nat,                // decisions written over an approval that was no longer pending
    lost: nat,                 // callbacks and redispatches that went nowhere
    spent: Metrics,            // what all finished legs used
    legs: seq<LegRecord>,      // finished legs
    granted: seq<Approval>,    // approvals a human decided to approve
    suspended: Option<L.Leg>)  // the leg the approval was recorded for

  datatype LegRecord = LegRecord(req: L.Request, world: L.World)

  datatype Cell = Cell(
    step: Option<StepRecord>,
    approval: Option<Approval>,
    dispatch: Dispatch,
    registered: bool,
    slot: seq<Payload>,
    acts: seq<Activity>,
    past: History)

  const START := Cell(None, None, Idle, false, [], [], History(None, 0, 0, 0, ZERO, [], [], None))

  datatype Action =
    | CreateStep                                            // the runner records the step
    | Register                                              // dispatch puts its channel into the map
    | Post(req: L.Request, accepted: bool)
    | Receive
    | Cancel
    | Unregister
    | Finish(status: StepStatus, metrics: Metrics)          // the runner stores the step's end
    | EndLeg(i: nat, world: L.World, delivered: bool)
    | ReadStep(i: nat)
    | WriteStep(i: nat)
    | CreateApproval(i: nat)
    | Accumulate(i: nat)
    | LookUp(i: nat)
    | Send(i: nat)
    | Decide(approve: bool)
    | Fire(i: nat)
    | Write(i: nat)
    | Repost(i: nat, accepted: bool)

  function Swap(acts: seq<Activity>, i: nat, put: seq<Activity>): seq<Activity>
    requires i < |acts|
  {
    acts[..i] + put + acts[i + 1..]
  }

  function Becoming(c: Cell, i: nat, put: seq<Activity>): Cell
    requires i < |c.acts|
  {
    c.(acts := Swap(c.acts, i, put))
  }

  function Lose(c: Cell, i: nat): Cell
    requires i < |c.acts|
  {
    Becoming(c, i, []).(past := c.past.(lost := c.past.lost + 1))
  }

  /** Requests made by a dispatch carry no conversation and no approvals yet. */
  predicate Fresh(req: L.Request) {
    req.messages == [] && req.approvedToolCalls == [] && !req.isResume
  }

  // ---- the actions ----

  function PostIt(c: Cell, req: L.Request, accepted: bool): Option<Cell> {
    if !(c.dispatch.Posting? && Fresh(req)) then None
    else if !accepted then Some(c.(dispatch := Refused))
    else Some(c.(dispatch := Waiting, acts := c.acts + [RunningLeg(req)], 
                     past := c.past.(posts := c.past.posts + 1, origin := Some(req))))
  }

  function EndTheLeg(c: Cell, i: nat, world: L.World, delivered: bool): Option<Cell> {
    if !(i < |c.acts| && c.acts[i].RunningLeg?) then None
    else
      var req := c.acts[i].req;
      var leg := L.RunLeg(req, world);
      var past := c.past.(legs := c.past.legs + [LegRecord(req, world)], spent := c.past.spent.Plus(leg.state.metrics));
      var c1 := c.(past := past);
      if !delivered then Some(Lose(c1, i))
      else if leg.outcome.Suspended? then Some(Becoming(c1, i, [Checkpointing(req, leg)]))
      else Some(Becoming(c1, i, [Completing(FinalPayload(req, leg))]))
  }

  function WriteTheStep(c: Cell, i: nat): Option<Cell> {
    if !(i < |c.acts| && c.acts[i].CheckpointRead?) then None
    else
      var a := c.acts[i];
      var c1 := Becoming(c, i, [Recording(a.req, a.leg)]);
      Some(if a.copy.Some? then c1.(step := Some(CheckpointStep(a.copy.value, a.leg))) else c1)
  }

  /** A second suspension of the same step finds the record taken and goes nowhere. */
  function CreateTheApproval(c: Cell, i: nat): Option<Cell> {
    if !(i < |c.acts| && c.acts[i].Recording? && c.acts[i].leg.outcome.Suspended?) then None
    else if c.approval.Some? then Some(Lose(c, i))
    else
      var approval := NewApproval(c.acts[i].req, c.acts[i].leg);
      var timers := if approval.timeoutMS > 0 then [Timer(approval.timeoutBehavior)] else [];
      Some(Becoming(c, i, timers).(approval := Some(approval), past := c.past.(suspended := Some(c.acts[i].leg))))
  }

  function SendIt(c: Cell, i: nat): Option<Cell> {
    // the channel holds one payload; a second send waits
    if !(i < |c.acts| && c.acts[i].Sending? && c.slot == []) then None
    else Some(Becoming(c, i, []).(slot := [c.acts[i].payload]))
  }

  predicate IsPending(c: Cell) {
    c.approval.Some? && c.approval.value.status == Pending
  }

  function FireIt(c: Cell, i: nat): Option<Cell> {
    if !(i < |c.acts| && c.acts[i].Timer?) then None
    else if !IsPending(c) then Some(Becoming(c, i, []))
    else Some(Becoming(c, i, [Expiring(c.acts[i].behavior, c.approval.value)]))
  }

  /** What a handler goes on with once its decision is stored. */
  function AfterReject(approval: Approval): Activity {
    if approval.onReject == "recover" then Recovering(approval)
    else Signalling(FailedPayload(approval, "tool call rejected by reviewer: " + approval.call.name))
  }

  function WriteIt(c: Cell, i: nat): Option<Cell> {
    if !(i < |c.acts| && (c.acts[i].Deciding? || c.acts[i].Expiring?) && c.approval.Some?) then None
    else
      var read := c.acts[i].read;
      var past := c.past.(stale := c.past.stale + if IsPending(c) then 0 else 1);
      match c.acts[i]
      case Deciding(true, _) =>
        var a := read.(status := Approved);
        Some(Becoming(c, i, [Redispatching(a)]).(approval := Some(a), past := past.(granted := past.granted + [a])))
      case Deciding(false, _) =>
        var a := read.(status := Rejected);
        Some(Becoming(c, i, [AfterReject(a)]).(approval := Some(a), past := past))
      case Expiring(behavior, _) =>
        var a := read.(status := TimedOut);
        var next := if behavior == "reject" then AfterReject(a) else Signalling(FailedPayload(a, "approval timed out: " + a.call.name));
        Some(Becoming(c, i, [next]).(approval := Some(a), past := past))
  }

  /** The request a redispatch posts: the checkpoint with the approved id, or with the rejection. */
  function ResumeRequest(c: Cell, a: Activity): L.Request
    requires a.Redispatching? || a.Recovering?
  {
    if a.Redispatching? then ApproveRequest(a.approval, c.step) else RecoverRequest(a.approval, c.step)
  }

  function RepostIt(c: Cell, i: nat, accepted: bool): Option<Cell> {
    if !(i < |c.acts| && (c.acts[i].Redispatching? || c.acts[i].Recovering?)) then None
    else
      var approval := c.acts[i].approval;
      if accepted then Some(Becoming(c, i, [RunningLeg(ResumeRequest(c, c.acts[i]))]))
      else if c.acts[i].Redispatching? then Some(Lose(c, i))
      else Some(Becoming(c, i, [Signalling(FailedPayload(approval, "approval rejected (recover dispatch failed)"))]))
  }

  function ReadTheStep(c: Cell, i: nat): Option<Cell> {
    if !(i < |c.acts| && c.acts[i].Checkpointing?) then None
    else Some(Becoming(c, i, [CheckpointRead(c.acts[i].req, c.acts[i].leg, c.step)]))
  }

  function AccumulateIt(c: Cell, i: nat): Option<Cell> {
    if !(i < |c.acts| && c.acts[i].Completing?) then None
    else Some(Becoming(c, i, [Signalling(Accumulated(Reviewed(c.acts[i].payload), c.approval))]))
  }

  function LookItUp(c: Cell, i: nat): Option<Cell> {
    if !(i < |c.acts| && c.acts[i].Signalling?) then None
    else if c.registered then Some(Becoming(c, i, [Sending(c.acts[i].payload)]))
    else Some(Lose(c, i))
  }

  function DecideIt(c: Cell, approve: bool): Option<Cell> {
    if IsPending(c) then Some(c.(acts := c.acts + [Deciding(approve, c.approval.value)])) else None
  }

  /** What the runner and its dispatch do. */
  function DispatchNext(c: Cell, a: Action): Option<Cell> {
    match a
    case CreateStep =>
      if c.dispatch.Idle? && c.step.None? then Some(c.(step := Some(StepRecord(Running, ZERO, [])))) else None
    case Register =>
      if c.dispatch.Idle? then Some(c.(dispatch := Posting, registered := true)) else None
    case Post(req, accepted) => PostIt(c, req, accepted)
    case Receive =>
      if c.dispatch.Waiting? && c.slot != [] then Some(c.(dispatch := Received(c.slot[0]), slot := c.slot[1..])) else None
    case Cancel =>
      if c.dispatch.Waiting? then Some(c.(dispatch := Cancelled)) else None
    case Unregister =>
      if Returned(c) && c.registered then Some(c.(registered := false)) else None
    case Finish(status, metrics) =>
      if Returned(c) && c.step.Some? && Terminal(status) then Some(c.(step := Some(StepRecord(status, metrics, [])))) else None
    case _ => None
  }

  /** What the runtime and the handlers of a callback do. */
  function CallbackNext(c: Cell, a: Action): Option<Cell> {
    match a
    case EndLeg(i, world, delivered) => EndTheLeg(c, i, world, delivered)
    case ReadStep(i) => ReadTheStep(c, i)
    case WriteStep(i) => WriteTheStep(c, i)
    case CreateApproval(i) => CreateTheApproval(c, i)
    case Accumulate(i) => AccumulateIt(c, i)
    case LookUp(i) => LookItUp(c, i)
    case Send(i) => SendIt(c, i)
    case _ => None
  }

  /** What a human decision and the timeout do. */
  function DecisionNext(c: Cell, a: Action): Option<Cell> {
    match a
    case Decide(approve) => DecideIt(c, approve)
    case Fire(i) => FireIt(c, i)
    case Write(i) => WriteIt(c, i)
    case Repost(i, accepted) => RepostIt(c, i, accepted)
    case _ => None
  }

  predicate ByCallback(a: Action) {
    a.EndLeg? || a.ReadStep? || a.WriteStep? || a.CreateApproval? || a.Accumulate? || a.LookUp? || a.Send?
  }

  predicate ByDecision(a: Action) {
    a.Decide? || a.Fire? || a.Write? || a.Repost?
  }

  /** One action, or None when it cannot happen now. */
  function Next(c: Cell, a: Action): Option<Cell> {
    if ByCallback(a) then CallbackNext(c, a)
    else if ByDecision(a) then DecisionNext(c, a)
    else DispatchNext(c, a)
  }

  predicate Returned(c: Cell) {
    c.dispatch.Received? || c.dispatch.Cancelled? || c.dispatch.Refused?
  }

  predicate Terminal(s: StepStatus) {
    s == Complete || s == Failed || s == Skipped
  }

  /** A run from the start; None when some action was not possible. */
  function Run(actions: seq<Action>): Option<Cell> {
    if actions == [] then Some(START)
    else
      match Run(actions[..|actions| - 1])
      case None => None
      case Some(c) => Next(c, actions[|actions| - 1])
  }

  // ---- conservation of the token ----

  /** Whether an activity will still produce a callback, a signal or a new leg. */
  function Weight(a: Activity): nat {
    if a.Timer? || a.Deciding? || a.Expiring? then 0 else 1
  }

  function Total(acts: seq<Activity>): nat {
    if acts == [] then 0 else Weight(acts[0]) + Total(acts[1..])
  }

  function Undecided(c: Cell): nat {
    if IsPending(c) then 1 else 0
  }

  function Consumed(c: Cell): nat {
    if c.dispatch.Received? then 1 else 0
  }

  /** Every token of the step: legs and handlers, the undecided approval, the slot, the received payload. */
  function Tokens(c: Cell): nat {
    Total(c.acts) + Undecided(c) + |c.slot| + Consumed(c)
  }

  lemma {:induction false} TotalConcat(a: seq<Activity>, b: seq<Activity>)
    ensures Total(a + b) == Total(a) + Total(b)
  {
    if a == [] {
      assert a + b == b;
    } else {
      TotalConcat(a[1..], b);
      assert (a + b)[1..] == a[1..] + b;
    }
  }

  lemma TotalSwap(acts: seq<Activity>, i: nat, put: seq<Activity>)
    requires i < |acts|
    ensures Total(Swap(acts, i, put)) == Total(acts) - Weight(acts[i]) + Total(put)
  {
    TotalConcat(acts[..i] + put, acts[i + 1..]);
    TotalConcat(acts[..i], put);
    assert acts == acts[..i] + ([acts[i]] + acts[i + 1..]);
    TotalConcat(acts[..i], [acts[i]] + acts[i + 1..]);
    assert ([acts[i]] + acts[i + 1..])[1..] == acts[i + 1..];
  }

  lemma TotalOne(a: Activity)
    ensures Total([a]) == Weight(a)
  {
    assert [a][1..] == [];
  }

  /** Before its first leg is accepted the step has no activity at all. */
  ghost predicate Quiet(c: Cell) {
    && (c.dispatch.Idle? || c.dispatch.Posting? || c.dispatch.Refused? ==>
          c.acts == [] && c.approval == None && c.slot == [] && c.past.posts == 0 && c.past.stale == 0 && c.past.lost == 0)
    && (c.dispatch.Waiting? || c.dispatch.Received? || c.dispatch.Cancelled? ==> c.past.posts == 1)
  }

  /** The token is never duplicated and never vanishes, except as the history says. */
  ghost predicate Conserved(c: Cell) {
    Quiet(c) && Tokens(c) + c.past.lost == c.past.posts + c.past.stale
  }

  lemma SwapTo(acts: seq<Activity>, i: nat, a: Activity)
    requires i < |acts|
    ensures Total(Swap(acts, i, [a])) == Total(acts) - Weight(acts[i]) + Weight(a)
  {
    TotalSwap(acts, i, [a]);
    TotalOne(a);
  }

  lemma SwapAway(acts: seq<Activity>, i: nat)
    requires i < |acts|
    ensures Total(Swap(acts, i, [])) == Total(acts) - Weight(acts[i])
  {
    TotalSwap(acts, i, []);
  }

  /** Activity `i` becomes `next`, and the books still balance. */
  lemma Moves(c: Cell, c': Cell, i: nat, next: Activity)
    requires Conserved(c) && i < |c.acts|
    requires c'.acts == Swap(c.acts, i, [next])
    requires c'.dispatch == c.dispatch && c'.slot == c.slot && c'.past.posts == c.past.posts
    requires Weight(next) + Undecided(c') + c'.past.lost - c'.past.stale ==
      Weight(c.acts[i]) + Undecided(c) + c.past.lost - c.past.stale
    ensures Conserved(c')
  {
    SwapTo(c.acts, i, next);
  }

  /** Activity `i` ends, and the books still balance. */
  lemma Ends(c: Cell, c': Cell, i: nat)
    requires Conserved(c) && i < |c.acts|
    requires c'.acts == Swap(c.acts, i, [])
    requires c'.dispatch == c.dispatch && c'.past.posts == c.past.posts && c'.past.stale == c.past.stale
    requires Undecided(c') + |c'.slot| + c'.past.lost == Weight(c.acts[i]) + Undecided(c) + |c.slot| + c.past.lost
    ensures Conserved(c')
  {
    SwapAway(c.acts, i);
  }

  lemma LegConserved(c: Cell, i: nat, world: L.World, delivered: bool)
    requires Conserved(c) && EndTheLeg(c, i, world, delivered).Some?
    ensures Conserved(EndTheLeg(c, i, world, delivered).value)
  {
    var c' := EndTheLeg(c, i, world, delivered).value;
    var req := c.acts[i].req;
    var leg := L.RunLeg(req, world);
    if !delivered {
      Ends(c, c', i);
    } else {
      Moves(c, c', i, if leg.outcome.Suspended? then Checkpointing(req, leg) else Completing(FinalPayload(req, leg)));
    }
  }

  lemma WriteStepConserved(c: Cell, i: nat)
    requires Conserved(c) && WriteTheStep(c, i).Some?
    ensures Conserved(WriteTheStep(c, i).value)
  {
    Moves(c, WriteTheStep(c, i).value, i, Recording(c.acts[i].req, c.acts[i].leg));
  }

  lemma CreateApprovalConserved(c: Cell, i: nat)
    requires Conserved(c) && CreateTheApproval(c, i).Some?
    ensures Conserved(CreateTheApproval(c, i).value)
  {
    var c' := CreateTheApproval(c, i).value;
    if c.approval.None? && c'.approval.value.timeoutMS > 0 {
      Moves(c, c', i, Timer(c'.approval.value.timeoutBehavior));
    } else {
      Ends(c, c', i);
    }
  }

  lemma SignalConserved(c: Cell, i: nat)
    requires Conserved(c) && LookItUp(c, i).Some?
    ensures Conserved(LookItUp(c, i).value)
  {
    var c' := LookItUp(c, i).value;
    if c.registered {
      Moves(c, c', i, Sending(c.acts[i].payload));
    } else {
      Ends(c, c', i);
    }
  }

  lemma FireConserved(c: Cell, i: nat)
    requires Conserved(c) && FireIt(c, i).Some?
    ensures Conserved(FireIt(c, i).value)
  {
    var c' := FireIt(c, i).value;
    if IsPending(c) {
      Moves(c, c', i, Expiring(c.acts[i].behavior, c.approval.value));
    } else {
      Ends(c, c', i);
    }
  }

  lemma WriteConserved(c: Cell, i: nat)
    requires Conserved(c) && WriteIt(c, i).Some?
    ensures Conserved(WriteIt(c, i).value)
  {
    hide FailedPayload, Total;
    var c' := WriteIt(c, i).value;
    assert c'.acts[i] == Swap(c.acts, i, [c'.acts[i]])[i];
    assert c'.acts == Swap(c.acts, i, [c'.acts[i]]);
    Moves(c, c', i, c'.acts[i]);
  }

  lemma RepostConserved(c: Cell, i: nat, accepted: bool)
    requires Conserved(c) && RepostIt(c, i, accepted).Some?
    ensures Conserved(RepostIt(c, i, accepted).value)
  {
    var c' := RepostIt(c, i, accepted).value;
    var approval := c.acts[i].approval;
    if accepted {
      Moves(c, c', i, RunningLeg(ResumeRequest(c, c.acts[i])));
    } else if c.acts[i].Redispatching? {
      Ends(c, c', i);
    } else {
      Moves(c, c', i, Signalling(FailedPayload(approval, "approval rejected (recover dispatch failed)")));
    }
  }

  lemma AddedConserved(c: Cell, a: Activity)
    ensures Total(c.acts + [a]) == Total(c.acts) + Weight(a)
  {
    TotalConcat(c.acts, [a]);
    TotalOne(a);
  }

  lemma DispatchConserved(c: Cell, a: Action)
    requires Conserved(c) && DispatchNext(c, a).Some?
    ensures Conserved(DispatchNext(c, a).value)
  {
    if a.Post? {
      AddedConserved(c, RunningLeg(a.req));
    }
  }

  lemma CallbackConserved(c: Cell, a: Action)
    requires Conserved(c) && CallbackNext(c, a).Some?
    ensures Conserved(CallbackNext(c, a).value)
  {
    match a {
      case EndLeg(i, world, delivered) => LegConserved(c, i, world, delivered);
      case ReadStep(i) => Moves(c, ReadTheStep(c, i).value, i, CheckpointRead(c.acts[i].req, c.acts[i].leg, c.step));
      case WriteStep(i) => WriteStepConserved(c, i);
      case CreateApproval(i) => CreateApprovalConserved(c, i);
      case Accumulate(i) => Moves(c, AccumulateIt(c, i).value, i, Signalling(Accumulated(Reviewed(c.acts[i].payload), c.approval)));
      case LookUp(i) => SignalConserved(c, i);
      case Send(i) => Ends(c, SendIt(c, i).value, i);
    }
  }

  lemma DecisionConserved(c: Cell, a: Action)
    requires Conserved(c) && DecisionNext(c, a).Some?
    ensures Conserved(DecisionNext(c, a).value)
  {
    match a {
      case Decide(approve) => AddedConserved(c, Deciding(approve, c.approval.value));
      case Fire(i) => FireConserved(c, i);
      case Write(i) => WriteConserved(c, i);
      case Repost(i, accepted) => RepostConserved(c, i, accepted);
    }
  }

  lemma ConservedStep(c: Cell, a: Action)
    requires Conserved(c) && Next(c, a).Some?
    ensures Conserved(Next(c, a).value)
  {
    if CallbackNext(c, a).Some? {
      CallbackConserved(c, a);
    } else if DecisionNext(c, a).Some? {
      DecisionConserved(c, a);
    } else {
      DispatchConserved(c, a);
    }
  }

  /** In every run, however finely interleaved: tokens and losses add up to posts and stale decisions. */
  lemma {:induction false} TokenConservation(actions: seq<Action>)
    requires Run(actions).Some?
    ensures Conserved(Run(actions).value)
  {
    if actions != [] {
      var front := actions[..|actions| - 1];
      TokenConservation(front);
      ConservedStep(Run(front).value, actions[|actions| - 1]);
    }
  }
}
