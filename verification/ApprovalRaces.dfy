/** Concrete runs that show where the guarantees of exclusive, uncancelled runs end. */
module ApprovalRaces {
  import opened Wrappers
  import opened Metrics
  import opened Approvals
  import opened Types
  import opened Protocol
  import opened ApprovalAccounting
  import L = AgentLoop
  import T = Transcript

  /** Some exclusive run, or any run at all, ends in this state. */
  ghost predicate Reachable(c: Cell, exclusively: bool) {
    exists actions :: Run(actions) == Some(c) && (exclusively ==> Exclusive(actions))
  }

  lemma Reach(c: Cell, a: Action, c': Cell, exclusively: bool)
    requires Reachable(c, exclusively) && Next(c, a) == Some(c')
    requires exclusively && (a.Decide? || a.Fire?) ==> Unlocked(c)
    ensures Reachable(c', exclusively)
  {
    hide Next;
    var actions :| Run(actions) == Some(c) && (exclusively ==> Exclusive(actions));
    assert (actions + [a])[..|actions|] == actions;
    assert Run(actions + [a]) == Some(c');
  }

  // ---- a leg that suspends ----

  const RULE := L.Rule("*", "recover", 0, "fail")
  const SERVER := L.Server("s", [RULE])
  const CALL := L.ToolCall("1", "t", "")
  const REPLY := L.Response(L.Text(""), [CALL], NO_USAGE)

  lemma Example() returns (req: L.Request, world: L.World, routing: L.Routing)
    ensures Fresh(req) && L.Discover(req.servers, world) == Some(routing)
    ensures CALL.name in routing && routing[CALL.name].rules == [RULE]
    ensures world.gateway(0) == Some(REPLY)
  {
    world := L.World(n => Some(["t"]), n => Some(REPLY), call => None, body => None);
    req := L.Request("", "", "", false, 0.0, 1, [SERVER], [], [], false);
    assert [SERVER][..0] == [];
    assert L.Discover([], world) == Some(map[]);
    routing := L.AddTools(map[], SERVER, ["t"]);
  }

  /** A leg whose first answer asks for one call that needs approval suspends at once. */
  lemma FirstCallSuspends(req: L.Request, world: L.World, routing: L.Routing, call: L.ToolCall, rule: L.Rule)
    requires req.approvedToolCalls == [] && L.Discover(req.servers, world) == Some(routing)
    requires world.gateway(0).Some? && world.gateway(0).value.toolCalls == [call]
    requires call.name in routing && L.FindRule(call.name, routing[call.name].rules) == Some(rule)
    ensures L.RunLeg(req, world).outcome == L.Suspended(L.Pending(call, rule.onReject, rule.timeoutMS, rule.timeoutBehavior))
  {
    T.FirstLegTurns(req, world, routing);
    var start := L.State(L.InitialMessages(req), ZERO, []);
    var s1 := L.Ask(world, L.Turn, L.Prompted(req, 1, start)).1;
    var step := L.ToolBatch(world, routing, [call], s1);
    assert L.OneTurn(req, world, routing, 1, start, L.Text("")) == L.Done(step.leg);
  }

  lemma ExampleSuspends() returns (req: L.Request, world: L.World, leg: L.Leg)
    ensures Fresh(req) && leg == L.RunLeg(req, world)
    ensures leg.outcome.Suspended? && leg.outcome.pending.timeoutMS <= 0 && leg.outcome.pending.onReject == "recover"
  {
    var routing;
    req, world, routing := Example();
    assert L.MatchesPattern(CALL.name, RULE.pattern);
    assert L.FindRule(CALL.name, [RULE]) == Some(RULE);
    FirstCallSuspends(req, world, routing, CALL, RULE);
    leg := L.RunLeg(req, world);
  }

  // ---- the way to an undecided approval, one activity at a time ----

  lemma FirstLeg(req: L.Request, exclusively: bool) returns (c: Cell)
    requires Fresh(req)
    ensures Reachable(c, exclusively) && c.acts == [RunningLeg(req)]
    ensures c.dispatch.Waiting? && c.step.Some? && c.approval.None? && c.past.stale == 0 && c.slot == []
  {
    assert Run([]) == Some(START) && Exclusive([]);
    assert Reachable(START, exclusively);
    var c1 := START.(step := Some(StepRecord(Running, ZERO, [])));
    Reach(START, CreateStep, c1, exclusively);
    var c2 := c1.(dispatch := Posting, registered := true);
    Reach(c1, Register, c2, exclusively);
    c := PostIt(c2, req, true).value;
    Reach(c2, Post(req, true), c, exclusively);
  }

  /** The leg ends, suspended, and its callback arrives. */
  lemma Callback(c: Cell, req: L.Request, world: L.World, leg: L.Leg, exclusively: bool) returns (c': Cell)
    requires Reachable(c, exclusively) && c.acts == [RunningLeg(req)]
    requires leg == L.RunLeg(req, world) && leg.outcome.Suspended?
    ensures Reachable(c', exclusively) && c'.acts == [Checkpointing(req, leg)]
    ensures c' == c.(acts := c'.acts, past := c'.past) && c'.past.stale == c.past.stale
  {
    c' := EndTheLeg(c, 0, world, true).value;
    Reach(c, EndLeg(0, world, true), c', exclusively);
  }

  lemma Read(c: Cell, req: L.Request, leg: L.Leg, exclusively: bool) returns (c': Cell)
    requires Reachable(c, exclusively) && c.acts == [Checkpointing(req, leg)]
    ensures Reachable(c', exclusively) && c' == c.(acts := [CheckpointRead(req, leg, c.step)])
  {
    c' := ReadTheStep(c, 0).value;
    Reach(c, ReadStep(0), c', exclusively);
  }

  lemma Checkpointed(c: Cell, req: L.Request, leg: L.Leg, exclusively: bool) returns (c': Cell)
    requires Reachable(c, exclusively) && leg.outcome.Suspended? && leg.outcome.pending.timeoutMS <= 0 && c.approval.None?
    requires exists copy :: c.acts == [CheckpointRead(req, leg, copy)]
    ensures Reachable(c', exclusively) && c'.acts == [] && IsPending(c') && c'.past.stale == c.past.stale
    ensures c'.dispatch == c.dispatch && c'.slot == c.slot && c'.approval == Some(NewApproval(req, leg))
    ensures c.step.Some? ==> c'.step.Some?
  {
    hide Run, Exclusive, Reachable, CheckpointStep;
    var c1 := WriteTheStep(c, 0).value;
    assert c1.acts == [Recording(req, leg)];
    Reach(c, WriteStep(0), c1, exclusively);
    c' := CreateTheApproval(c1, 0).value;
    Reach(c1, CreateApproval(0), c', exclusively);
  }

  /** Two activities in progress. */
  predicate Two(c: Cell, a: Activity, b: Activity) {
    c.acts == [a, b]
  }

  /** Both handlers check ... */
  lemma BothCheck(c: Cell) returns (c': Cell)
    requires Reachable(c, false) && c.acts == [] && IsPending(c)
    ensures Reachable(c', false) && Two(c', Deciding(true, c.approval.value), Deciding(true, c.approval.value))
    ensures c' == c.(acts := c'.acts)
  {
    var a := Deciding(true, c.approval.value);
    assert [] + [a] == [a] && [a] + [a] == [a, a];
    var c1 := c.(acts := [a]);
    Reach(c, Decide(true), c1, false);
    c' := c1.(acts := [a, a]);
    Reach(c1, Decide(true), c', false);
  }

  lemma WriteFirst(c: Cell, read: Approval, other: Activity) returns (c': Cell)
    requires Reachable(c, false) && Two(c, Deciding(true, read), other) && c.approval.Some?
    ensures Reachable(c', false) && Two(c', Redispatching(read.(status := Approved)), other)
    ensures c'.dispatch == c.dispatch && c'.slot == c.slot && c'.approval == Some(read.(status := Approved))
  {
    c' := WriteIt(c, 0).value;
    assert c'.acts == [Redispatching(read.(status := Approved)), other];
    Reach(c, Write(0), c', false);
  }

  /** ... then both update. */
  lemma WriteSecond(c: Cell, first: Activity, read: Approval) returns (c': Cell)
    requires Reachable(c, false) && Two(c, first, Deciding(true, read)) && c.approval.Some?
    ensures Reachable(c', false) && Two(c', first, Redispatching(read.(status := Approved)))
    ensures c'.dispatch == c.dispatch && c'.slot == c.slot && c'.approval == Some(read.(status := Approved))
  {
    c' := WriteIt(c, 1).value;
    assert c'.acts == [first, Redispatching(read.(status := Approved))];
    Reach(c, Write(1), c', false);
  }

  lemma BothResume(c: Cell, a: Approval, b: Approval) returns (c': Cell)
    requires Reachable(c, false) && Two(c, Redispatching(a), Redispatching(b))
    ensures Reachable(c', false) && |c'.acts| == 2 && c'.acts[0].RunningLeg? && c'.acts[1].RunningLeg?
    ensures c'.dispatch == c.dispatch && c'.slot == c.slot && c'.approval == c.approval
  {
    var leg := RunningLeg(ResumeRequest(c, Redispatching(a)));
    var c1 := c.(acts := [leg, Redispatching(b)]);
    assert Swap(c.acts, 0, [leg]) == c1.acts;
    Reach(c, Repost(0, true), c1, false);
    var leg1 := RunningLeg(ResumeRequest(c1, Redispatching(b)));
    c' := c1.(acts := [leg, leg1]);
    assert Swap(c1.acts, 1, [leg1]) == c'.acts;
    Reach(c1, Repost(1, true), c', false);
  }

  lemma Race(c: Cell) returns (c': Cell)
    requires Reachable(c, false) && c.acts == [] && IsPending(c)
    ensures Reachable(c', false) && |c'.acts| == 2 && c'.acts[0].RunningLeg? && c'.acts[1].RunningLeg?
    ensures c'.dispatch == c.dispatch && c'.slot == c.slot && !IsPending(c')
  {
    var read := c.approval.value;
    var c1 := BothCheck(c);
    var c2 := WriteFirst(c1, read, Deciding(true, read));
    var c3 := WriteSecond(c2, Redispatching(read.(status := Approved)), read);
    c' := BothResume(c3, read.(status := Approved), read.(status := Approved));
  }

  /**
   * The check and the update of an approval are not locked. Two decisions that interleave between
   * them resume the suspended step twice: two legs of one step are then in flight.
   */
  lemma UnlockedDecisionsDuplicate() returns (c: Cell)
    ensures Reachable(c, false) && Tokens(c) == 2 && |c.acts| == 2 && c.acts[0].RunningLeg? && c.acts[1].RunningLeg?
  {
    var req, world, leg := ExampleSuspends();
    var c1 := FirstLeg(req, false);
    var c2 := Callback(c1, req, world, leg, false);
    var c3 := Read(c2, req, leg, false);
    var c4 := Checkpointed(c3, req, leg, false);
    c := Race(c4);
    CountTwo(c);
  }

  lemma CountTwo(c: Cell)
    requires |c.acts| == 2 && c.acts[0].RunningLeg? && c.acts[1].RunningLeg?
    ensures Total(c.acts) == 2
  {
    assert c.acts[1..] == [c.acts[1]];
    TotalOne(c.acts[1]);
  }

  lemma CancelIt(c: Cell) returns (c': Cell)
    requires Reachable(c, true) && c.dispatch.Waiting?
    ensures Reachable(c', true) && c' == c.(dispatch := Cancelled)
  {
    hide CallbackNext, DecisionNext, Run, Exclusive, Reachable;
    c' := c.(dispatch := Cancelled);
    Reach(c, Cancel, c', true);
  }

  lemma FinishIt(c: Cell) returns (c': Cell)
    requires Reachable(c, true) && c.dispatch.Cancelled? && c.step.Some?
    ensures Reachable(c', true) && c' == c.(step := Some(StepRecord(Failed, ZERO, [])))
  {
    hide CallbackNext, DecisionNext, Run, Exclusive, Reachable;
    c' := c.(step := Some(StepRecord(Failed, ZERO, [])));
    Reach(c, Finish(Failed, ZERO), c', true);
  }

  lemma Overwrites(c: Cell, req: L.Request, leg: L.Leg)
    requires c.acts == [CheckpointRead(req, leg, c.step)] && c.step.Some?
    ensures Next(c, WriteStep(0)).Some? && Next(c, WriteStep(0)).value.step.value.status == PendingApproval
  {
  }

  /**
   * A cancelled dispatch leaves its leg running. When that leg suspends after the runner has
   * stored the step as failed, its callback overwrites the finished step.
   */
  lemma CancelledStepIsOverwritten() returns (c: Cell)
    ensures Reachable(c, true) && c.dispatch.Cancelled? && c.step.Some? && Terminal(c.step.value.status)
    ensures Next(c, WriteStep(0)).Some? && Next(c, WriteStep(0)).value.step.value.status == PendingApproval
  {
    var req, world, leg := ExampleSuspends();
    var c1 := FirstLeg(req, true);
    var c2 := CancelIt(c1);
    var c3 := FinishIt(c2);
    var c4 := Callback(c3, req, world, leg, true);
    c := Read(c4, req, leg, true);
    Overwrites(c, req, leg);
  }

  lemma RejectIt(c: Cell) returns (c': Cell)
    requires Reachable(c, true) && c.acts == [] && IsPending(c) && c.approval.value.onReject == "recover"
    ensures Reachable(c', true) && c'.acts == [Recovering(c.approval.value.(status := Rejected))] && c'.step == c.step
  {
    var read := c.approval.value;
    assert [] + [Deciding(false, read)] == [Deciding(false, read)];
    var c1 := c.(acts := [Deciding(false, read)]);
    Reach(c, Decide(false), c1, true);
    c' := WriteIt(c1, 0).value;
    Reach(c1, Write(0), c', true);
  }

  /**
   * A rejection can come when the transcript it answers is gone. When the dispatch is cancelled
   * after the leg suspended and the runner stores the step as failed, a rejection with `recover`
   * still starts a leg, and its conversation is the bare rejection.
   */
  lemma RejectionAfterCancelIsForgotten() returns (c: Cell, call: L.ToolCall)
    ensures Reachable(c, true) && |c.acts| == 1 && c.acts[0].RunningLeg?
    ensures c.acts[0].req.messages == [L.ResultMessage(call.id, REJECTION)]
  {
    var req, world, leg := ExampleSuspends();
    var c1 := FirstLeg(req, true);
    var c2 := Callback(c1, req, world, leg, true);
    var c3 := Read(c2, req, leg, true);
    var c4 := Checkpointed(c3, req, leg, true);
    var c5 := CancelIt(c4);
    var c6 := FinishIt(c5);
    var c7 := RejectIt(c6);
    c := RepostIt(c7, 0, true).value;
    Reach(c7, Repost(0, true), c, true);
    call := c4.approval.value.call;
    assert [] + [L.ResultMessage(call.id, REJECTION)] == [L.ResultMessage(call.id, REJECTION)];
  }
}
