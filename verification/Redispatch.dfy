/** Why reading the step record and posting the request can be one action of the protocol. */
module Redispatch {
  import opened Wrappers
  import opened Approvals
  import opened Types
  import opened Protocol
  import L = AgentLoop

  /** Redispatch `i` posts a request it has built before, and the runtime accepts it. */
  function Posted(c: Cell, i: nat, req: L.Request): Cell
    requires i < |c.acts|
  {
    Becoming(c, i, [RunningLeg(req)])
  }

  /** The activity an action moves on; the other actions move none. */
  function Mover(a: Action): Option<nat> {
    match a
    case EndLeg(i, _, _) => Some(i)
    case ReadStep(i) => Some(i)
    case WriteStep(i) => Some(i)
    case CreateApproval(i) => Some(i)
    case Accumulate(i) => Some(i)
    case LookUp(i) => Some(i)
    case Send(i) => Some(i)
    case Fire(i) => Some(i)
    case Write(i) => Some(i)
    case Repost(i, _) => Some(i)
    case _ => None
  }

  /** Where activity `i` is after `a`: one place further left if an activity before it ended. */
  function Where(c: Cell, a: Action, c': Cell, i: nat): nat {
    if i > 0 && Mover(a).Some? && Mover(a).value < i && |c'.acts| < |c.acts| then i - 1 else i
  }

  lemma SwapParts(a: seq<Activity>, y: Activity, b: seq<Activity>, put: seq<Activity>)
    ensures Swap(a + [y] + b, |a|, put) == a + put + b
  {
    assert (a + [y] + b)[..|a|] == a && (a + [y] + b)[|a| + 1..] == b;
  }

  /** Two swaps at different places, in either order. */
  lemma TwoSwaps(acts: seq<Activity>, a: seq<Activity>, y: Activity, b: seq<Activity>, z: Activity, c: seq<Activity>, p: seq<Activity>, q: seq<Activity>)
    requires acts == a + [y] + b + [z] + c
    ensures Swap(Swap(acts, |a| + 1 + |b|, q), |a|, p) == Swap(Swap(acts, |a|, p), |a| + |p| + |b|, q)
  {
    hide Swap;
    SwapParts(a + [y] + b, z, c, q);
    assert a + [y] + b + q + c == a + [y] + (b + q + c);
    SwapParts(a, y, b + q + c, p);
    assert a + p + (b + q + c) == a + p + b + q + c;
    assert acts == a + [y] + (b + [z] + c);
    SwapParts(a, y, b + [z] + c, p);
    assert a + p + (b + [z] + c) == a + p + b + [z] + c;
    SwapParts(a + p + b, z, c, q);
  }

  lemma SwapsAt(acts: seq<Activity>, lo: nat, p: seq<Activity>, hi: nat, q: seq<Activity>)
    requires lo < hi < |acts|
    ensures |Swap(acts, hi, q)| > lo && |Swap(acts, lo, p)| > hi - 1 + |p|
    ensures Swap(Swap(acts, hi, q), lo, p) == Swap(Swap(acts, lo, p), hi - 1 + |p|, q)
  {
    var a, b, c := acts[..lo], acts[lo + 1..hi], acts[hi + 1..];
    assert acts == a + [acts[lo]] + b + [acts[hi]] + c;
    TwoSwaps(acts, a, acts[lo], b, acts[hi], c, p, q);
  }

  lemma SwapsCommute(acts: seq<Activity>, i: nat, x: Activity, j: nat, put: seq<Activity>)
    requires i < |acts| && j < |acts| && i != j && |put| <= 1
    ensures var i' := if j < i then i - 1 + |put| else i;
      && |Swap(acts, j, put)| == |acts| - 1 + |put| && i' < |acts| - 1 + |put|
      && Swap(acts, j, put)[i'] == acts[i]
      && Swap(Swap(acts, i, [x]), j, put) == Swap(Swap(acts, j, put), i', [x])
  {
    Untouched(acts, i, j, put);
    hide Swap;
    if j < i {
      SwapsAt(acts, j, put, i, [x]);
    } else {
      SwapsAt(acts, i, [x], j, put);
    }
  }

  lemma Untouched(acts: seq<Activity>, i: nat, j: nat, put: seq<Activity>)
    requires i < |acts| && j < |acts| && i != j && |put| <= 1
    ensures |Swap(acts, j, put)| == |acts| - 1 + |put|
    ensures Swap(acts, j, put)[if j < i then i - 1 + |put| else i] == acts[i]
  {
  }

  lemma SwapThenAppend(acts: seq<Activity>, i: nat, x: Activity, more: seq<Activity>)
    requires i < |acts|
    ensures Swap(acts, i, [x]) + more == Swap(acts + more, i, [x])
  {
  }

  /** Only activities have changed, activity `j` into `put`, and the rest of the cell in a way that does not depend on them. */
  ghost predicate MovesAt(c: Cell, c': Cell, d: Cell, d': Cell, j: nat, put: seq<Activity>) {
    && j < |c.acts| && |put| <= 1 && |d.acts| == |c.acts|
    && c'.acts == Swap(c.acts, j, put) && d'.acts == Swap(d.acts, j, put)
    && d' == c'.(acts := d'.acts)
  }

  lemma MovePasses(c: Cell, c': Cell, i: nat, req: L.Request, d': Cell, j: nat, put: seq<Activity>)
    requires i < |c.acts| && i != j && MovesAt(c, c', Posted(c, i, req), d', j, put)
    ensures var i' := if j < i && |c'.acts| < |c.acts| then i - 1 else i;
      i' < |c'.acts| && c'.acts[i'] == c.acts[i] && d' == Posted(c', i', req)
  {
    hide Swap;
    SwapsCommute(c.acts, i, RunningLeg(req), j, put);
  }

  /** Another activity is where it was. */
  lemma OthersStay(c: Cell, i: nat, req: L.Request, j: nat)
    requires i < |c.acts| && j < |c.acts| && i != j
    ensures |Posted(c, i, req).acts| == |c.acts| && Posted(c, i, req).acts[j] == c.acts[j]
  {
  }

  /** Posting before the action and after it comes to the same. */
  ghost predicate Passes(c: Cell, i: nat, req: L.Request, a: Action, next: Option<Cell>, nextOfPosted: Option<Cell>)
    requires i < |c.acts| && next.Some?
  {
    var i' := Where(c, a, next.value, i);
    i' < |next.value.acts| && next.value.acts[i'] == c.acts[i] && nextOfPosted == Some(Posted(next.value, i', req))
  }

  lemma EndLegPasses(c: Cell, i: nat, req: L.Request, j: nat, world: L.World, delivered: bool)
    requires i < |c.acts| && EndTheLeg(c, j, world, delivered).Some? && i != j
    ensures Passes(c, i, req, EndLeg(j, world, delivered), EndTheLeg(c, j, world, delivered), EndTheLeg(Posted(c, i, req), j, world, delivered))
  {
    hide Swap, L.RunLeg, FinalPayload;
    var d, mine := Posted(c, i, req), c.acts[j].req;
    OthersStay(c, i, req, j);
    var leg := L.RunLeg(mine, world);
    MovePasses(c, EndTheLeg(c, j, world, delivered).value, i, req, EndTheLeg(d, j, world, delivered).value, j,
      if !delivered then [] else if leg.outcome.Suspended? then [Checkpointing(mine, leg)] else [Completing(FinalPayload(mine, leg))]);
  }

  lemma CallbackPasses(c: Cell, i: nat, req: L.Request, a: Action)
    requires i < |c.acts| && ByCallback(a) && CallbackNext(c, a).Some? && Mover(a) != Some(i)
    ensures Passes(c, i, req, a, CallbackNext(c, a), CallbackNext(Posted(c, i, req), a))
  {
    hide Swap, L.RunLeg, Reviewed, Accumulated, NewApproval, CheckpointStep, FinalPayload;
    if a.EndLeg? {
      EndLegPasses(c, i, req, a.i, a.world, a.delivered);
      return;
    }
    hide EndTheLeg;
    var d, c' := Posted(c, i, req), CallbackNext(c, a).value;
    OthersStay(c, i, req, a.i);
    var d', j := CallbackNext(d, a).value, a.i;
    match a
    case ReadStep(_) => MovePasses(c, c', i, req, d', j, [CheckpointRead(c.acts[j].req, c.acts[j].leg, c.step)]);
    case WriteStep(_) => MovePasses(c, c', i, req, d', j, [Recording(c.acts[j].req, c.acts[j].leg)]);
    case CreateApproval(_) =>
      var approval := NewApproval(c.acts[j].req, c.acts[j].leg);
      MovePasses(c, c', i, req, d', j, if c.approval.None? && approval.timeoutMS > 0 then [Timer(approval.timeoutBehavior)] else []);
    case Accumulate(_) => MovePasses(c, c', i, req, d', j, [Signalling(Accumulated(Reviewed(c.acts[j].payload), c.approval))]);
    case LookUp(_) => MovePasses(c, c', i, req, d', j, if c.registered then [Sending(c.acts[j].payload)] else []);
    case Send(_) => MovePasses(c, c', i, req, d', j, []);
  }

  lemma DecisionPasses(c: Cell, i: nat, req: L.Request, a: Action)
    requires i < |c.acts| && ByDecision(a) && DecisionNext(c, a).Some? && Mover(a) != Some(i)
    ensures Passes(c, i, req, a, DecisionNext(c, a), DecisionNext(Posted(c, i, req), a))
  {
    hide Swap, AfterReject, FailedPayload, ResumeRequest;
    var d, c' := Posted(c, i, req), DecisionNext(c, a).value;
    if a.Decide? {
      SwapThenAppend(c.acts, i, RunningLeg(req), [Deciding(a.approve, c.approval.value)]);
      KeptByAppend(c.acts, i, [Deciding(a.approve, c.approval.value)]);
    } else {
      var j := a.i;
      OthersStay(c, i, req, j);
      var d' := DecisionNext(d, a).value;
      match a
      case Fire(_) => MovePasses(c, c', i, req, d', j, if IsPending(c) then [Expiring(c.acts[j].behavior, c.approval.value)] else []);
      case Write(_) => WritePasses(c, i, req, j);
      case Repost(_, accepted) =>
        SameRequest(c, d, c.acts[j]);
        MovePasses(c, c', i, req, d', j,
          if accepted then [RunningLeg(ResumeRequest(c, c.acts[j]))] else if c.acts[j].Redispatching? then []
          else [Signalling(FailedPayload(c.acts[j].approval, "approval rejected (recover dispatch failed)"))]);
    }
  }

  lemma SameRequest(c: Cell, d: Cell, a: Activity)
    requires d.step == c.step
    ensures a.Redispatching? || a.Recovering? ==> ResumeRequest(d, a) == ResumeRequest(c, a)
  {
  }

  lemma KeptByAppend(acts: seq<Activity>, i: nat, more: seq<Activity>)
    requires i < |acts|
    ensures (acts + more)[i] == acts[i]
  {
  }

  /** What a decision goes on with. */
  function AfterWrite(a: Activity): Activity
    requires a.Deciding? || a.Expiring?
  {
    match a
    case Deciding(true, read) => Redispatching(read.(status := Approved))
    case Deciding(false, read) => AfterReject(read.(status := Rejected))
    case Expiring(behavior, read) =>
      var timedOut := read.(status := TimedOut);
      if behavior == "reject" then AfterReject(timedOut) else Signalling(FailedPayload(timedOut, "approval timed out: " + timedOut.call.name))
  }

  lemma WriteMoves(c: Cell, j: nat)
    requires WriteIt(c, j).Some?
    ensures WriteIt(c, j).value.acts == Swap(c.acts, j, [AfterWrite(c.acts[j])])
  {
    hide Swap, AfterReject, FailedPayload;
  }

  lemma WritePasses(c: Cell, i: nat, req: L.Request, j: nat)
    requires i < |c.acts| && WriteIt(c, j).Some? && i != j
    ensures Passes(c, i, req, Write(j), WriteIt(c, j), WriteIt(Posted(c, i, req), j))
  {
    hide Swap, AfterReject, FailedPayload, AfterWrite;
    var d := Posted(c, i, req);
    OthersStay(c, i, req, j);
    WriteMoves(c, j);
    WriteMoves(d, j);
    MovePasses(c, WriteIt(c, j).value, i, req, WriteIt(d, j).value, j, [AfterWrite(c.acts[j])]);
  }

  lemma DispatchPasses(c: Cell, i: nat, req: L.Request, a: Action)
    requires i < |c.acts| && !ByCallback(a) && !ByDecision(a) && DispatchNext(c, a).Some?
    ensures Passes(c, i, req, a, DispatchNext(c, a), DispatchNext(Posted(c, i, req), a))
  {
    hide Swap;
    if a.Post? {
      SwapThenAppend(c.acts, i, RunningLeg(req), [RunningLeg(a.req)]);
      KeptByAppend(c.acts, i, [RunningLeg(a.req)]);
    }
  }

  lemma PostPasses(c: Cell, i: nat, req: L.Request, a: Action)
    requires i < |c.acts| && Next(c, a).Some? && Mover(a) != Some(i)
    ensures Passes(c, i, req, a, Next(c, a), Next(Posted(c, i, req), a))
  {
    hide CallbackNext, DecisionNext, DispatchNext, Posted, Passes;
    if ByCallback(a) {
      CallbackPasses(c, i, req, a);
    } else if ByDecision(a) {
      DecisionPasses(c, i, req, a);
    } else {
      DispatchPasses(c, i, req, a);
    }
  }

  /**
   * Reading the step record and posting the request built from it are one action here. Whatever
   * happens between the two, by whichever handler, it comes to the same as if the request had been
   * posted at once: the post only moves its own activity.
   */
  lemma LatePostIsRepost(c: Cell, i: nat, a: Action)
    requires i < |c.acts| && (c.acts[i].Redispatching? || c.acts[i].Recovering?)
    requires Next(c, a).Some? && Mover(a) != Some(i)
    ensures RepostIt(c, i, true).Some?
    ensures
      var (c', req) := (Next(c, a).value, ResumeRequest(c, c.acts[i]));
      var i' := Where(c, a, c', i);
      && i' < |c'.acts| && c'.acts[i'] == c.acts[i]
      && Next(RepostIt(c, i, true).value, a) == Some(Posted(c', i', req))
  {
    hide Next, ResumeRequest, Swap;
    PostPasses(c, i, ResumeRequest(c, c.acts[i]), a);
  }
}
