/**
 * The orchestrator's approval handlers of internal/orchestrator/server.go as they mutate the
 * shared maps, each run from start to end without another handler in between.
 */
module ApprovalServer {
  import opened Wrappers
  import opened Metrics
  import opened Approvals
  import opened Types
  import P = Protocol
  import L = AgentLoop

  datatype Key = Key(runID: string, stepID: string)

  function Lookup<V>(m: map<Key, V>, k: Key): Option<V> {
    if k in m then Some(m[k]) else None
  }

  // ---- what a handler that runs alone does to the cell of its step ----

  /** Looks the channel up and sends into it. */
  function Signal(c: P.Cell): P.Cell
    requires |c.acts| == 1 && c.acts[0].Signalling?
  {
    var c1 := P.LookItUp(c, 0).value;
    if c1.acts != [] && c1.slot == [] then P.SendIt(c1, 0).value else c1
  }

  /** Lets the handler whose decision is stored run to its end. */
  function Conclude(c: P.Cell, accepted: bool): P.Cell
    requires |c.acts| == 1
  {
    if c.acts[0].Signalling? then Signal(c)
    else if c.acts[0].Redispatching? || c.acts[0].Recovering? then
      var c1 := P.RepostIt(c, 0, accepted).value;
      if c1.acts != [] && c1.acts[0].Signalling? then Signal(c1) else c1
    else c
  }

  function DecideAlone(c: P.Cell, approve: bool, accepted: bool): P.Cell
    requires c.acts == [] && P.IsPending(c)
  {
    Conclude(P.WriteIt(P.DecideIt(c, approve).value, 0).value, accepted)
  }

  function TimeoutAlone(c: P.Cell, behavior: string, accepted: bool): P.Cell
    requires c.acts == [P.Timer(behavior)]
  {
    var c1 := P.FireIt(c, 0).value;
    if c1.acts == [] then c1 else Conclude(P.WriteIt(c1, 0).value, accepted)
  }

  function CompleteAlone(c: P.Cell, payload: Payload): P.Cell
    requires c.acts == [P.Completing(payload)]
  {
    Signal(P.AccumulateIt(c, 0).value)
  }

  function CheckpointAlone(c: P.Cell, req: L.Request, leg: L.Leg): P.Cell
    requires c.acts == [P.Checkpointing(req, leg)] && leg.outcome.Suspended?
  {
    P.CreateTheApproval(P.WriteTheStep(P.ReadTheStep(c, 0).value, 0).value, 0).value
  }

  /** Both cells show the handlers the same records, channel and activities. */
  predicate SameView(a: P.Cell, b: P.Cell) {
    a.step == b.step && a.approval == b.approval && a.registered == b.registered && a.slot == b.slot && a.acts == b.acts
  }

  /** What a signal leaves in a free slot. */
  function SlotAfter(c: P.Cell, payload: Payload): seq<Payload> {
    if c.registered then [payload] else c.slot
  }

  /** What a stored rejection leads to: a leg that goes on without the call, or a failed payload. */
  predicate Recovers(a: Approval, accepted: bool) {
    a.onReject == "recover" && accepted
  }

  function RejectionPayload(a: Approval): Payload {
    FailedPayload(a, if a.onReject == "recover" then "approval rejected (recover dispatch failed)" else "tool call rejected by reviewer: " + a.call.name)
  }

  lemma SignalAlone(c: P.Cell, payload: Payload)
    requires c.acts == [P.Signalling(payload)] && c.slot == []
    ensures SameView(Signal(c), c.(acts := [], slot := SlotAfter(c, payload)))
  {
  }

  lemma RejectionAlone(c: P.Cell, a: Approval, accepted: bool)
    requires c.acts == [P.AfterReject(a)] && c.slot == []
    ensures SameView(Conclude(c, accepted),
      if Recovers(a, accepted) then c.(acts := [P.RunningLeg(RecoverRequest(a, c.step))])
      else c.(acts := [], slot := SlotAfter(c, RejectionPayload(a))))
  {
    if a.onReject == "recover" {
      if !accepted {
        SignalAlone(P.RepostIt(c, 0, false).value, RejectionPayload(a));
      }
    } else {
      SignalAlone(c, RejectionPayload(a));
    }
  }

  lemma ApproveAlone(c: P.Cell, accepted: bool)
    requires c.acts == [] && P.IsPending(c)
    ensures var a := c.approval.value.(status := Approved);
      SameView(DecideAlone(c, true, accepted),
        c.(approval := Some(a), acts := if accepted then [P.RunningLeg(ApproveRequest(a, c.step))] else []))
  {
  }

  lemma RejectAlone(c: P.Cell, accepted: bool)
    requires c.acts == [] && P.IsPending(c) && c.slot == []
    ensures var a := c.approval.value.(status := Rejected);
      SameView(DecideAlone(c, false, accepted),
        if Recovers(a, accepted) then c.(approval := Some(a), acts := [P.RunningLeg(RecoverRequest(a, c.step))])
        else c.(approval := Some(a), slot := SlotAfter(c, RejectionPayload(a))))
  {
    var a := c.approval.value.(status := Rejected);
    RejectionAlone(P.WriteIt(P.DecideIt(c, false).value, 0).value, a, accepted);
  }

  lemma ExpireAlone(c: P.Cell, behavior: string, accepted: bool)
    requires c.acts == [P.Timer(behavior)] && P.IsPending(c) && c.slot == []
    ensures var a := c.approval.value.(status := TimedOut);
      SameView(TimeoutAlone(c, behavior, accepted),
        if behavior == "reject" && Recovers(a, accepted) then c.(approval := Some(a), acts := [P.RunningLeg(RecoverRequest(a, c.step))])
        else c.(approval := Some(a), acts := [],
          slot := SlotAfter(c, if behavior == "reject" then RejectionPayload(a) else FailedPayload(a, "approval timed out: " + a.call.name))))
  {
    var a := c.approval.value.(status := TimedOut);
    var c2 := P.WriteIt(P.FireIt(c, 0).value, 0).value;
    if behavior == "reject" {
      RejectionAlone(c2, a, accepted);
    } else {
      SignalAlone(c2, FailedPayload(a, "approval timed out: " + a.call.name));
    }
  }

  function TimersOf(a: Approval): seq<P.Activity> {
    if a.timeoutMS > 0 then [P.Timer(a.timeoutBehavior)] else []
  }

  lemma SuspendAlone(c: P.Cell, req: L.Request, leg: L.Leg)
    requires c.acts == [P.Checkpointing(req, leg)] && leg.outcome.Suspended?
    ensures SameView(CheckpointAlone(c, req, leg), c.(
      step := if c.step.Some? then Some(CheckpointStep(c.step.value, leg)) else None,
      approval := if c.approval.Some? then c.approval else Some(NewApproval(req, leg)),
      acts := if c.approval.Some? then [] else TimersOf(NewApproval(req, leg))))
  {
    hide CheckpointStep, NewApproval;
  }

  lemma FiresTooLate(c: P.Cell, behavior: string, accepted: bool)
    requires c.acts == [P.Timer(behavior)] && !P.IsPending(c)
    ensures TimeoutAlone(c, behavior, accepted) == c.(acts := [])
  {
  }

  class Server {
    var steps: map<Key, StepRecord>
    var approvals: map<Key, Approval>
    var pendingCallbacks: set<Key>       // keys with a registered channel
    var slots: map<Key, seq<Payload>>    // what each channel holds
    var started: map<Key, seq<P.Activity>>   // legs accepted by the runtime and timers started

    constructor ()
      ensures steps == map[] && approvals == map[] && pendingCallbacks == {} && slots == map[] && started == map[]
    {
      steps, approvals, pendingCallbacks, slots, started := map[], map[], {}, map[], map[];
    }

    function SlotOf(k: Key): seq<Payload>
      reads this
    {
      if k in slots then slots[k] else []
    }

    function StartedFor(k: Key): seq<P.Activity>
      reads this
    {
      if k in started then started[k] else []
    }

    /** The cell of one step, with the given activities in progress. */
    ghost function CellOf(k: Key, acts: seq<P.Activity>): P.Cell
      reads this
    {
      P.Cell(Lookup(steps, k), Lookup(approvals, k), P.Waiting, k in pendingCallbacks, SlotOf(k), acts, P.START.past)
    }

    /** Only the entries of `k` differ from the given maps. */
    ghost predicate OnlyAt(k: Key, steps0: map<Key, StepRecord>, approvals0: map<Key, Approval>, slots0: map<Key, seq<Payload>>, started0: map<Key, seq<P.Activity>>)
      reads this
    {
      steps - {k} == steps0 - {k} && approvals - {k} == approvals0 - {k} && slots - {k} == slots0 - {k} && started - {k} == started0 - {k}
    }

    /** Sends to the waiting dispatch, or logs that there is none. */
    method SignalWaiter(k: Key, payload: Payload)
      requires SlotOf(k) == []   // otherwise the send waits
      modifies this`slots
      ensures slots == if k in pendingCallbacks then old(slots)[k := [payload]] else old(slots)
    {
      if k in pendingCallbacks {
        slots := slots[k := [payload]];
      }
    }

    method HandleStepComplete(k: Key, payload: Payload)
      requires SlotOf(k) == []
      modifies this`slots
      ensures SameView(CellOf(k, []), CompleteAlone(old(CellOf(k, [P.Completing(payload)])), payload))
      ensures OnlyAt(k, old(steps), old(approvals), old(slots), old(started))
    {
      var p := Reviewed(payload);
      if p.isResume && k in approvals {
        p := p.(metrics := p.metrics.Plus(Partial(approvals[k].partialMetrics)));
      }
      SignalWaiter(k, p);
    }

    method HandlePendingApproval(k: Key, req: L.Request, leg: L.Leg)
      requires leg.outcome.Suspended?
      modifies this`steps, this`approvals, this`started
      ensures var c := CheckpointAlone(old(CellOf(k, [P.Checkpointing(req, leg)])), req, leg);
        SameView(CellOf(k, c.acts), c) && StartedFor(k) == old(StartedFor(k)) + c.acts
      ensures OnlyAt(k, old(steps), old(approvals), old(slots), old(started))
    {
      hide NewApproval, CheckpointStep, CheckpointAlone;
      SuspendAlone(CellOf(k, [P.Checkpointing(req, leg)]), req, leg);
      if k in steps {
        steps := steps[k := CheckpointStep(steps[k], leg)];
      }
      if k !in approvals {
        var approval := NewApproval(req, leg);
        approvals := approvals[k := approval];
        if approval.timeoutMS > 0 {
          started := started[k := StartedFor(k) + [P.Timer(approval.timeoutBehavior)]];
        }
      }
    }

    /** Posts to the runtime, which accepts or refuses; an accepted request is a leg in flight. */
    method PostToRuntime(k: Key, req: L.Request, accepted: bool) returns (ok: bool)
      modifies this`started
      ensures ok == accepted
      ensures started == if accepted then old(started)[k := old(StartedFor(k)) + [P.RunningLeg(req)]] else old(started)
    {
      if accepted {
        started := started[k := StartedFor(k) + [P.RunningLeg(req)]];
      }
      return accepted;
    }

    method RedispatchRejected(k: Key, approval: Approval, accepted: bool)
      requires SlotOf(k) == []
      modifies this`slots, this`started
      ensures Recovers(approval, accepted) ==> slots == old(slots)
      ensures Recovers(approval, accepted) ==>
        started == old(started)[k := old(StartedFor(k)) + [P.RunningLeg(RecoverRequest(approval, Lookup(steps, k)))]]
      ensures !Recovers(approval, accepted) ==> started == old(started)
      ensures !Recovers(approval, accepted) ==>
        slots == if k in pendingCallbacks then old(slots)[k := [RejectionPayload(approval)]] else old(slots)
    {
      if approval.onReject == "recover" {
        var ok := PostToRuntime(k, RecoverRequest(approval, Lookup(steps, k)), accepted);
        if !ok {
          SignalWaiter(k, FailedPayload(approval, "approval rejected (recover dispatch failed)"));
        }
      } else {
        SignalWaiter(k, FailedPayload(approval, "tool call rejected by reviewer: " + approval.call.name));
      }
    }

    /** The decide endpoint; the code is the HTTP status of its answer. */
    method HandleDecideApproval(k: Key, approve: bool, accepted: bool) returns (code: int)
      requires SlotOf(k) == []
      modifies this`approvals, this`slots, this`started
      ensures code == 404 <==> k !in old(approvals)
      ensures code == 409 <==> k in old(approvals) && old(approvals)[k].status != Pending
      ensures code == 500 <==> P.IsPending(old(CellOf(k, []))) && approve && !accepted
      ensures code in {200, 404, 409, 500}
      ensures code in {404, 409} ==> approvals == old(approvals) && slots == old(slots) && started == old(started)
      ensures code in {200, 500} ==>
        var c := DecideAlone(old(CellOf(k, [])), approve, accepted);
        SameView(CellOf(k, c.acts), c) && StartedFor(k) == old(StartedFor(k)) + c.acts
      ensures OnlyAt(k, old(steps), old(approvals), old(slots), old(started))
    {
      hide DecideAlone, ApproveRequest, RecoverRequest, RejectionPayload;
      if k !in approvals {
        return 404;
      }
      if approvals[k].status != Pending {
        return 409;
      }
      if approve {
        ApproveAlone(CellOf(k, []), accepted);
        var approval := approvals[k].(status := Approved);
        approvals := approvals[k := approval];
        var ok := PostToRuntime(k, ApproveRequest(approval, Lookup(steps, k)), accepted);
        if !ok {
          return 500;
        }
      } else {
        RejectAlone(CellOf(k, []), accepted);
        var approval := approvals[k].(status := Rejected);
        approvals := approvals[k := approval];
        RedispatchRejected(k, approval, accepted);
      }
      return 200;
    }

    /** What runs when the timer of an approval fires. */
    method RunApprovalTimeout(k: Key, behavior: string, accepted: bool)
      requires SlotOf(k) == []
      modifies this`approvals, this`slots, this`started
      ensures var c := TimeoutAlone(old(CellOf(k, [P.Timer(behavior)])), behavior, accepted);
        SameView(CellOf(k, c.acts), c) && StartedFor(k) == old(StartedFor(k)) + c.acts
      ensures OnlyAt(k, old(steps), old(approvals), old(slots), old(started))
    {
      hide TimeoutAlone, RecoverRequest, RejectionPayload, FailedPayload;
      if k !in approvals || approvals[k].status != Pending {
        FiresTooLate(CellOf(k, [P.Timer(behavior)]), behavior, accepted);
        return;
      }
      ExpireAlone(CellOf(k, [P.Timer(behavior)]), behavior, accepted);
      var approval := approvals[k].(status := TimedOut);
      approvals := approvals[k := approval];
      if behavior == "reject" {
        RedispatchRejected(k, approval, accepted);
      } else {
        SignalWaiter(k, FailedPayload(approval, "approval timed out: " + approval.call.name));
      }
    }
  }
}
