/** What one leg of the agent loop does to the outside, to its counters and to its transcript. */
module LoopProperties {
  import opened Wrappers
  import opened Values
  import opened Metrics
  import opened AgentLoop

  // ---- counters against the calls actually made ----

  function Cost(e: Event): Metrics {
    match e
    case Asked(purpose, Some(r)) => Metrics(r.usage, Counts(1, 0, if purpose == Reflection then 1 else 0))
    case Asked(_, None) => ZERO
    case Called(_, _, ok) => Metrics(NO_USAGE, Counts(0, if ok then 1 else 0, 0))
  }

  /** What the calls of a leg cost together. */
  function Metered(events: seq<Event>): Metrics {
    if events == [] then ZERO else Metered(events[..|events| - 1]).Plus(Cost(events[|events| - 1]))
  }

  /** Gateway calls made for each purpose, successful or not. */
  datatype Tally = Tally(turns: nat, reflections: nat, corrections: nat)

  function Bump(t: Tally, e: Event): Tally {
    match e
    case Asked(Turn, _) => t.(turns := t.turns + 1)
    case Asked(Reflection, _) => t.(reflections := t.reflections + 1)
    case Asked(Correction, _) => t.(corrections := t.corrections + 1)
    case Called(_, _, _) => t
  }

  function TallyOf(events: seq<Event>): Tally {
    if events == [] then Tally(0, 0, 0) else Bump(TallyOf(events[..|events| - 1]), events[|events| - 1])
  }

  lemma LogOne(events: seq<Event>, e: Event)
    ensures Metered(events + [e]) == Metered(events).Plus(Cost(e))
    ensures TallyOf(events + [e]) == Bump(TallyOf(events), e)
  {
    assert (events + [e])[..|events|] == events;
  }

  /** What the loop adds to its counters for an answered gateway call is what the call costs. */
  lemma AnswerIsCost(m: Metrics, r: Response, purpose: Purpose)
    ensures m.Plus(Cost(Asked(purpose, Some(r)))) ==
      AddResponse(m, r).(counts := Counts(m.counts.llmCalls + 1, m.counts.toolCalls, m.counts.reflectCalls + if purpose == Reflection then 1 else 0))
  {
  }

  lemma NothingIsCost(m: Metrics, purpose: Purpose)
    ensures m.Plus(Cost(Asked(purpose, None))) == m
  {
  }

  lemma CallIsCost(m: Metrics, call: ToolCall, preApproved: bool)
    ensures m.Plus(Cost(Called(call, preApproved, true))) == CountToolCall(m)
    ensures m.Plus(Cost(Called(call, preApproved, false))) == m
  {
  }

  // ---- which tools may be called ----

  /** The leg's stored messages contain this tool call as an assistant block. */
  ghost predicate StoredUse(stored: seq<Message>, call: ToolCall) {
    exists m :: m in stored && m.role.Assistant? && m.body.Blocks? && ToolUse(call.id, call.name, call.input) in m.body.blocks
  }

  /** A call needs no approval, or it is one of the approved calls the leg was resumed with. */
  ghost predicate Permitted(req: Request, routing: Routing, e: Event) {
    e.Called? ==>
      && e.call.name in routing
      && (if e.preApproved then e.call.id in req.approvedToolCalls && StoredUse(InitialMessages(req), e.call)
          else !Gated(routing, e.call.name))
  }

  ghost predicate AllPermitted(req: Request, routing: Routing, events: seq<Event>) {
    forall e :: e in events ==> Permitted(req, routing, e)
  }

  /** The counters are what the calls cost, and every tool call was permitted. */
  ghost predicate Good(req: Request, routing: Routing, s: State) {
    s.metrics == Metered(s.events) && AllPermitted(req, routing, s.events)
  }

  lemma PermittedOneMore(req: Request, routing: Routing, events: seq<Event>, e: Event)
    requires AllPermitted(req, routing, events) && Permitted(req, routing, e)
    ensures AllPermitted(req, routing, events + [e])
  {
    forall x | x in events + [e] ensures Permitted(req, routing, x) {
      assert x in events || x == e;
    }
  }

  /** One more permitted call, counted as what it costs. */
  lemma GoodOneMore(req: Request, routing: Routing, s: State, e: Event, s': State)
    requires Good(req, routing, s) && Permitted(req, routing, e)
    requires s'.events == s.events + [e] && s'.metrics == s.metrics.Plus(Cost(e))
    ensures Good(req, routing, s') && TallyOf(s'.events) == Bump(TallyOf(s.events), e)
  {
    LogOne(s.events, e);
    PermittedOneMore(req, routing, s.events, e);
  }

  /** Same gateway calls before and after. */
  ghost predicate SameAsks(s: State, s': State) {
    TallyOf(s'.events) == TallyOf(s.events)
  }

  function StateOf(step: Step): State {
    match step case More(s) => s case Halt(leg) => leg.state
  }

  /** What one phase of a leg keeps: its counters, its permissions and the number of gateway calls. */
  ghost predicate Keeps(req: Request, routing: Routing, s: State, s': State) {
    Good(req, routing, s') && SameAsks(s, s')
  }

  /** A tool call that was permitted, made or failed. */
  lemma CallKeeps(req: Request, routing: Routing, s: State, call: ToolCall, preApproved: bool, added: seq<Message>)
    requires Good(req, routing, s) && call.name in routing
    requires if preApproved then call.id in req.approvedToolCalls && StoredUse(InitialMessages(req), call) else !Gated(routing, call.name)
    ensures Keeps(req, routing, s, Executed(s, call, preApproved, added))
    ensures Keeps(req, routing, s, Logged(s, Called(call, preApproved, false)))
  {
    CallIsCost(s.metrics, call, preApproved);
    GoodOneMore(req, routing, s, Called(call, preApproved, true), Executed(s, call, preApproved, added));
    GoodOneMore(req, routing, s, Called(call, preApproved, false), Logged(s, Called(call, preApproved, false)));
  }

  lemma KeepsTwice(req: Request, routing: Routing, s: State, s1: State, s2: State)
    requires Keeps(req, routing, s, s1) && Keeps(req, routing, s1, s2)
    ensures Keeps(req, routing, s, s2)
  {
  }

  /** One approved block: what the prelude goes on with, or the leg it ends with. */
  lemma ResumeBlockUnfolds(req: Request, world: World, routing: Routing, blocks: seq<Block>, s: State)
    requires blocks != [] && blocks[0].ToolUse? && blocks[0].id in req.approvedToolCalls && blocks[0].name in routing
    ensures
      var call := ToolCall(blocks[0].id, blocks[0].name, blocks[0].input);
      ResumeBlocks(req, world, routing, blocks, s) ==
        match world.tool(call)
        case None => Fail(Logged(s, Called(call, true, false)), "tool call")
        case Some(text) => ResumeBlocks(req, world, routing, blocks[1..], Executed(s, call, true, [ResultMessage(call.id, text)]))
  {
  }

  lemma {:induction false} ResumeBlocksGood(req: Request, world: World, routing: Routing, blocks: seq<Block>, s: State)
    requires Good(req, routing, s)
    requires forall b :: b in blocks && b.ToolUse? ==> StoredUse(InitialMessages(req), ToolCall(b.id, b.name, b.input))
    ensures var step := ResumeBlocks(req, world, routing, blocks, s);
      Keeps(req, routing, s, StateOf(step)) && (step.Halt? ==> step.leg.outcome.Failed?)
    decreases |blocks|
  {
    if blocks != [] {
      var b := blocks[0];
      if b.ToolUse? && b.id in req.approvedToolCalls && b.name in routing {
        var call := ToolCall(b.id, b.name, b.input);
        ResumeBlockUnfolds(req, world, routing, blocks, s);
        match world.tool(call)
        case None => CallKeeps(req, routing, s, call, true, []);
        case Some(text) =>
          var s1 := Executed(s, call, true, [ResultMessage(call.id, text)]);
          CallKeeps(req, routing, s, call, true, [ResultMessage(call.id, text)]);
          ResumeBlocksGood(req, world, routing, blocks[1..], s1);
          KeepsTwice(req, routing, s, s1, StateOf(ResumeBlocks(req, world, routing, blocks[1..], s1)));
      } else {
        ResumeBlocksGood(req, world, routing, blocks[1..], s);
      }
    }
  }

  lemma {:induction false} ResumeGood(req: Request, world: World, routing: Routing, stored: seq<Message>, s: State)
    requires Good(req, routing, s)
    requires forall m :: m in stored ==> m in InitialMessages(req)
    ensures var step := Resume(req, world, routing, stored, s);
      Keeps(req, routing, s, StateOf(step)) && (step.Halt? ==> step.leg.outcome.Failed?)
    decreases |stored|
  {
    if stored != [] {
      var m := stored[0];
      if m.role.Assistant? && m.body.Blocks? {
        ResumeBlocksGood(req, world, routing, m.body.blocks, s);
        var step := ResumeBlocks(req, world, routing, m.body.blocks, s);
        if step.More? {
          ResumeGood(req, world, routing, stored[1..], step.state);
        }
      } else {
        ResumeGood(req, world, routing, stored[1..], s);
      }
    }
  }

  /** What a suspension says: the call waits at the end of the transcript, with its first matching rule. */
  ghost predicate WellSuspended(routing: Routing, leg: Leg) {
    leg.outcome.Suspended? ==>
      var p := leg.outcome.pending;
      && |leg.state.messages| > 0 && leg.state.messages[|leg.state.messages| - 1] == UseMessage(p.call)
      && Gated(routing, p.call.name)
      && var rule := FindRule(p.call.name, routing[p.call.name].rules).value;
         p == Pending(p.call, rule.onReject, rule.timeoutMS, rule.timeoutBehavior)
  }

  /** The first call of a batch, when its tool is known and not gated. */
  lemma BatchUnfolds(world: World, routing: Routing, calls: seq<ToolCall>, s: State)
    requires calls != [] && calls[0].name in routing && !Gated(routing, calls[0].name)
    ensures ToolBatch(world, routing, calls, s) ==
      match world.tool(calls[0])
      case None => Fail(Logged(s, Called(calls[0], false, false)), "tool call")
      case Some(text) => ToolBatch(world, routing, calls[1..], Executed(s, calls[0], false, Exchange(calls[0], text)))
  {
  }

  /** A batch that stops at once: at an unknown tool, or at a gated one. */
  lemma BatchStops(world: World, routing: Routing, calls: seq<ToolCall>, s: State)
    requires calls != [] && (calls[0].name !in routing || Gated(routing, calls[0].name))
    ensures
      var step := ToolBatch(world, routing, calls, s);
      && step.Halt? && step.leg.state.events == s.events && step.leg.state.metrics == s.metrics
      && WellSuspended(routing, step.leg) && !step.leg.outcome.Finished?
  {
  }

  lemma {:induction false} ToolBatchGood(req: Request, world: World, routing: Routing, calls: seq<ToolCall>, s: State)
    requires Good(req, routing, s)
    ensures var step := ToolBatch(world, routing, calls, s);
      Keeps(req, routing, s, StateOf(step)) && (step.Halt? ==> WellSuspended(routing, step.leg) && !step.leg.outcome.Finished?)
    decreases |calls|
  {
    if calls == [] {
    } else if calls[0].name !in routing || Gated(routing, calls[0].name) {
      BatchStops(world, routing, calls, s);
    } else {
      var call := calls[0];
      BatchUnfolds(world, routing, calls, s);
      match world.tool(call)
      case None => CallKeeps(req, routing, s, call, false, []);
      case Some(text) =>
        var s1 := Executed(s, call, false, Exchange(call, text));
        CallKeeps(req, routing, s, call, false, Exchange(call, text));
        ToolBatchGood(req, world, routing, calls[1..], s1);
        KeepsTwice(req, routing, s, s1, StateOf(ToolBatch(world, routing, calls[1..], s1)));
    }
  }

  /** The gateway-call budget of a finished leg. */
  ghost predicate WithinBudget(req: Request, leg: Leg) {
    var t := TallyOf(leg.state.events);
    && t.turns <= MaxTurns(req)
    && t.reflections <= (if req.reflect == "" then 0 else 2)
    && t.corrections <= 1
    && (t.reflections > 0 ==> t.corrections == 0)
    && (leg.outcome.Suspended? ==> t.reflections == t.corrections == 0)
  }

  ghost predicate LegGood(req: Request, routing: Routing, leg: Leg) {
    Good(req, routing, leg.state) && WithinBudget(req, leg) && WellSuspended(routing, leg)
  }

  /** What a gateway call adds to the state. */
  lemma AskAdds(world: World, purpose: Purpose, s: State, reply: Option<Response>, s1: State)
    requires (reply, s1) == Ask(world, purpose, s)
    ensures s1.messages == s.messages && s1.events == s.events + [Asked(purpose, reply)]
    ensures s1.metrics == if reply.Some? then AddResponse(s.metrics, reply.value) else s.metrics
  {
  }

  /** The state after an answered call of this purpose: a reflection is counted as such. */
  function Counted(purpose: Purpose, reply: Option<Response>, s1: State): State {
    if purpose == Reflection && reply.Some? then CountReflection(s1) else s1
  }

  lemma CountedCost(purpose: Purpose, m: Metrics, reply: Option<Response>, s1: State)
    requires s1.metrics == if reply.Some? then AddResponse(m, reply.value) else m
    ensures Counted(purpose, reply, s1).metrics == m.Plus(Cost(Asked(purpose, reply)))
    ensures Counted(purpose, reply, s1).events == s1.events
  {
    match reply
    case Some(r) => AnswerIsCost(m, r, purpose);
    case None => NothingIsCost(m, purpose);
  }

  /** One gateway call, with what the loop counts for it. */
  lemma AskGood(req: Request, world: World, routing: Routing, purpose: Purpose, s: State, reply: Option<Response>, s1: State)
    requires Good(req, routing, s) && (reply, s1) == Ask(world, purpose, s)
    ensures TallyOf(s1.events) == Bump(TallyOf(s.events), Asked(purpose, reply))
    ensures s1.messages == s.messages
    ensures Good(req, routing, Counted(purpose, reply, s1))
  {
    AskAdds(world, purpose, s, reply, s1);
    CountedCost(purpose, s.metrics, reply, s1);
    GoodOneMore(req, routing, s, Asked(purpose, reply), Counted(purpose, reply, s1));
  }

  lemma RetryGood(req: Request, world: World, routing: Routing, s: State, turn: nat)
    requires Good(req, routing, s) && TallyOf(s.events) == Tally(turn, 1, 0) && turn <= MaxTurns(req) && req.reflect != ""
    ensures LegGood(req, routing, RetryReflection(world, s))
  {
    var (reply, s1) := Ask(world, Reflection, s);
    AskGood(req, world, routing, Reflection, s, reply, s1);
  }

  /** What a reflection makes of the reply to its gateway call. */
  function Reflected(world: World, reply: Option<Response>, s1: State): Leg {
    if reply.None? then Leg(Failed("gateway"), s1)
    else if world.parse(reply.value.content).Some? then Leg(Finished(world.parse(reply.value.content).value), CountReflection(s1))
    else RetryReflection(world, CountReflection(s1))
  }

  /** A draft is reflected on, or ends the leg as it is. */
  ghost predicate FromDraft(req: Request, world: World, s: State, leg: Leg) {
    || (leg.state == s && !leg.outcome.Suspended?)
    || (req.reflect != "" && var (reply, s1) := Ask(world, Reflection, s); leg == Reflected(world, reply, s1))
  }

  lemma ReflectCases(req: Request, world: World, draft: Object, s: State)
    ensures FromDraft(req, world, s, Reflect(req, world, draft, s))
  {
  }

  lemma ReflectedGood(req: Request, world: World, routing: Routing, reply: Option<Response>, s1: State, turn: nat)
    requires Good(req, routing, Counted(Reflection, reply, s1)) && TallyOf(s1.events) == Tally(turn, 1, 0)
    requires turn <= MaxTurns(req) && req.reflect != ""
    ensures LegGood(req, routing, Reflected(world, reply, s1))
  {
    if reply.Some? {
      RetryGood(req, world, routing, CountReflection(s1), turn);
    }
  }

  lemma FromDraftGood(req: Request, world: World, routing: Routing, s: State, turn: nat, leg: Leg)
    requires Good(req, routing, s) && TallyOf(s.events) == Tally(turn, 0, 0) && turn <= MaxTurns(req)
    requires FromDraft(req, world, s, leg)
    ensures LegGood(req, routing, leg)
  {
    if leg.state != s || leg.outcome.Suspended? {
      var (reply, s1) := Ask(world, Reflection, s);
      AskGood(req, world, routing, Reflection, s, reply, s1);
      ReflectedGood(req, world, routing, reply, s1, turn);
    }
  }

  lemma ReflectGood(req: Request, world: World, routing: Routing, draft: Object, s: State, turn: nat)
    requires Good(req, routing, s) && TallyOf(s.events) == Tally(turn, 0, 0) && turn <= MaxTurns(req)
    ensures LegGood(req, routing, Reflect(req, world, draft, s))
  {
    ReflectCases(req, world, draft, s);
    FromDraftGood(req, world, routing, s, turn, Reflect(req, world, draft, s));
  }

  lemma FreeCorrectionGood(req: Request, world: World, routing: Routing, s: State, lastInvalid: Body)
    requires Good(req, routing, s) && TallyOf(s.events) == Tally(MaxTurns(req), 0, 0)
    ensures LegGood(req, routing, FreeCorrection(world, s, lastInvalid))
  {
    var (reply, s1) := Ask(world, Correction, s);
    AskGood(req, world, routing, Correction, s, reply, s1);
  }

  ghost predicate TurnGood(req: Request, routing: Routing, turn: nat, p: Progress) {
    match p
    case Done(leg) => LegGood(req, routing, leg)
    case Next(s1, _) => Good(req, routing, s1) && TallyOf(s1.events) == Tally(turn, 0, 0)
  }

  lemma RepliedGood(req: Request, world: World, routing: Routing, turn: nat, reply: Option<Response>, s1: State, lastInvalid: Body)
    requires turn <= MaxTurns(req) && Good(req, routing, s1) && TallyOf(s1.events) == Tally(turn, 0, 0)
    ensures TurnGood(req, routing, turn, Replied(req, world, routing, reply, s1, lastInvalid))
  {
    if reply.None? {
    } else if reply.value.toolCalls != [] {
      ToolBatchGood(req, world, routing, reply.value.toolCalls, s1);
    } else if world.parse(reply.value.content).Some? {
      ReflectGood(req, world, routing, world.parse(reply.value.content).value, s1, turn);
    }
  }

  lemma OneTurnGood(req: Request, world: World, routing: Routing, turn: nat, s: State, lastInvalid: Body)
    requires 1 <= turn <= MaxTurns(req)
    requires Good(req, routing, s) && TallyOf(s.events) == Tally(turn - 1, 0, 0)
    ensures TurnGood(req, routing, turn, OneTurn(req, world, routing, turn, s, lastInvalid))
  {
    var (reply, s1) := Ask(world, Turn, Prompted(req, turn, s));
    AskGood(req, world, routing, Turn, Prompted(req, turn, s), reply, s1);
    RepliedGood(req, world, routing, turn, reply, s1, lastInvalid);
  }

  /** One turn of the loop: it ends the leg, or leads to the turns after it. */
  lemma TurnsUnfold(req: Request, world: World, routing: Routing, turn: nat, s: State, lastInvalid: Body)
    requires turn <= MaxTurns(req)
    ensures Turns(req, world, routing, turn, s, lastInvalid) ==
      match OneTurn(req, world, routing, turn, s, lastInvalid)
      case Done(leg) => leg
      case Next(s1, invalid) => Turns(req, world, routing, turn + 1, s1, invalid)
  {
  }

  lemma {:induction false} TurnsGood(req: Request, world: World, routing: Routing, turn: nat, s: State, lastInvalid: Body)
    requires 1 <= turn <= MaxTurns(req) + 1
    requires Good(req, routing, s) && TallyOf(s.events) == Tally(turn - 1, 0, 0)
    ensures LegGood(req, routing, Turns(req, world, routing, turn, s, lastInvalid))
    decreases MaxTurns(req) + 1 - turn
  {
    hide Good, LegGood, OneTurn, FreeCorrection;
    if turn > MaxTurns(req) {
      FreeCorrectionGood(req, world, routing, s, lastInvalid);
      assert Turns(req, world, routing, turn, s, lastInvalid) == FreeCorrection(world, s, lastInvalid);
    } else {
      TurnsUnfold(req, world, routing, turn, s, lastInvalid);
      OneTurnGood(req, world, routing, turn, s, lastInvalid);
      match OneTurn(req, world, routing, turn, s, lastInvalid) {
        case Done(_) =>
        case Next(s1, invalid) => TurnsGood(req, world, routing, turn + 1, s1, invalid);
      }
    }
  }

  lemma {:induction false} TallyFacts(events: seq<Event>)
    ensures Asks(events) == TallyOf(events).turns + TallyOf(events).reflections + TallyOf(events).corrections
    ensures 0 <= Metered(events).counts.reflectCalls <= TallyOf(events).reflections
    ensures 0 <= Metered(events).counts.llmCalls <= Asks(events)
  {
    if events != [] {
      TallyFacts(events[..|events| - 1]);
    }
  }

  /** How many gateway calls succeeded and how many tool calls succeeded. */
  function Answered(events: seq<Event>): (int, int) {
    if events == [] then (0, 0)
    else
      var (asks, calls) := Answered(events[..|events| - 1]);
      match events[|events| - 1]
      case Asked(_, reply) => (if reply.Some? then asks + 1 else asks, calls)
      case Called(_, _, ok) => (asks, if ok then calls + 1 else calls)
  }

  lemma {:induction false} AnsweredFacts(events: seq<Event>)
    ensures Answered(events) == (Metered(events).counts.llmCalls, Metered(events).counts.toolCalls)
  {
    if events != [] {
      AnsweredFacts(events[..|events| - 1]);
    }
  }

  lemma LegIsGood(req: Request, world: World)
    ensures Discover(req.servers, world).Some? ==> LegGood(req, Discover(req.servers, world).value, RunLeg(req, world))
    ensures Discover(req.servers, world).None? ==>
      RunLeg(req, world).outcome.Failed? && RunLeg(req, world).state == State([], ZERO, [])
  {
    match Discover(req.servers, world) {
      case None =>
      case Some(routing) =>
        var start := State(InitialMessages(req), ZERO, []);
        if req.approvedToolCalls == [] {
          TurnsGood(req, world, routing, 1, start, Text(""));
        } else {
          ResumeGood(req, world, routing, start.messages, start);
          var step := Resume(req, world, routing, start.messages, start);
          if step.More? {
            TurnsGood(req, world, routing, 1, step.state, Text(""));
          }
        }
    }
  }

  /**
   * With T turns allowed a leg makes at most T + 2 gateway calls, T + 1 without a reflect prompt
   * and T when it suspends; at most two are reflections, none when it suspends. The reported
   * counters are exactly the successful calls.
   */
  lemma CallBound(req: Request, world: World)
    ensures var leg, T := RunLeg(req, world), MaxTurns(req);
      && Asks(leg.state.events) <= T + 2
      && (req.reflect == "" ==> Asks(leg.state.events) <= T + 1)
      && (leg.outcome.Suspended? ==> Asks(leg.state.events) <= T && leg.state.metrics.counts.reflectCalls == 0)
      && TallyOf(leg.state.events).reflections <= 2
      && Answered(leg.state.events) == (leg.state.metrics.counts.llmCalls, leg.state.metrics.counts.toolCalls)
      && leg.state.metrics.counts.llmCalls <= Asks(leg.state.events)
      && leg.state.metrics == Metered(leg.state.events)
  {
    LegIsGood(req, world);
    TallyFacts(RunLeg(req, world).state.events);
    AnsweredFacts(RunLeg(req, world).state.events);
  }

  /**
   * Every tool call of a leg either needs no approval on the server it is routed to, or is a
   * stored call with one of the approved ids the leg was started with. A suspended leg names the
   * first matching rule of a call that waits, unexecuted, at the end of its transcript.
   */
  lemma ApprovalGate(req: Request, world: World, routing: Routing)
    requires Discover(req.servers, world) == Some(routing)
    ensures forall e :: e in RunLeg(req, world).state.events ==> Permitted(req, routing, e)
    ensures WellSuspended(routing, RunLeg(req, world))
  {
    LegIsGood(req, world);
  }
}
