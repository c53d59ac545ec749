/** When a leg asks for the free correction, and what resuming does to it. */
module Corrections {
  import opened Wrappers
  import opened Values
  import opened Metrics
  import opened AgentLoop
  import opened LoopProperties
  import opened Transcript

  /** The gateway was asked for a correction. */
  ghost predicate Corrects(events: seq<Event>) {
    exists e :: e in events && e.Asked? && e.purpose == Correction
  }

  /** No turn from this one on ends the leg. */
  predicate OutOfTurns(req: Request, world: World, routing: Routing, turn: nat, s: State)
    decreases MaxTurns(req) + 1 - turn
  {
    turn > MaxTurns(req) ||
    (match OneTurn(req, world, routing, turn, s, Text(""))
     case Done(_) => false
     case Next(s1, _) => OutOfTurns(req, world, routing, turn + 1, s1))
  }

  /** A leg whose prelude runs through and none of whose turns ends it. */
  predicate RunsOut(req: Request, world: World, routing: Routing) {
    match Prelude(req, world, routing)
    case Halt(_) => false
    case More(s) => OutOfTurns(req, world, routing, 1, s)
  }

  // ---- what the memory of invalid answers does to a turn ----

  /** The reply to a turn's gateway call. */
  function ReplyOf(req: Request, world: World, turn: nat, s: State): Option<Response> {
    Ask(world, Turn, Prompted(req, turn, s)).0
  }

  /** With another memory a turn goes just the same; an invalid answer replaces either memory. */
  lemma TurnForgets(req: Request, world: World, routing: Routing, turn: nat, s: State, x: Body, y: Body)
    ensures match OneTurn(req, world, routing, turn, s, x)
      case Done(leg) => OneTurn(req, world, routing, turn, s, y) == Done(leg)
      case Next(s1, invalid) =>
        if Unparsed(world, ReplyOf(req, world, turn, s)) then
          OneTurn(req, world, routing, turn, s, y) == Next(s1, invalid) && invalid == ReplyOf(req, world, turn, s).value.content
        else OneTurn(req, world, routing, turn, s, y) == Next(s1, y) && invalid == x
  {
    hide Ask, ToolBatch, Reflect, Prompted;
  }

  lemma OutUnfolds(req: Request, world: World, routing: Routing, turn: nat, s: State, x: Body)
    requires turn <= MaxTurns(req)
    ensures OutOfTurns(req, world, routing, turn, s) <==>
      OneTurn(req, world, routing, turn, s, x).Next? &&
      OutOfTurns(req, world, routing, turn + 1, OneTurn(req, world, routing, turn, s, x).state)
  {
    hide OneTurn, Unparsed, ReplyOf;
    TurnForgets(req, world, routing, turn, s, x, Text(""));
  }

  // ---- only the free correction asks for one ----

  lemma NoneAdded(events: seq<Event>, e: Event)
    requires !Corrects(events) && !(e.Asked? && e.purpose == Correction)
    ensures !Corrects(events + [e])
  {
  }

  lemma {:induction false} BatchCorrectsNone(world: World, routing: Routing, calls: seq<ToolCall>, s: State)
    requires !Corrects(s.events)
    ensures !Corrects(StateOf(ToolBatch(world, routing, calls, s)).events)
    decreases |calls|
  {
    hide Corrects;
    if calls != [] && calls[0].name in routing && !Gated(routing, calls[0].name) {
      var call := calls[0];
      BatchUnfolds(world, routing, calls, s);
      hide ToolBatch;
      NoneAdded(s.events, Called(call, false, false));
      NoneAdded(s.events, Called(call, false, true));
      if world.tool(call).Some? {
        BatchCorrectsNone(world, routing, calls[1..], Executed(s, call, false, Exchange(call, world.tool(call).value)));
      }
    }
  }

  lemma AskCorrectsNone(world: World, purpose: Purpose, s: State)
    requires !Corrects(s.events) && purpose != Correction
    ensures !Corrects(Ask(world, purpose, s).1.events)
  {
    hide Corrects;
    NoneAdded(s.events, Asked(purpose, Ask(world, purpose, s).0));
  }

  lemma ReflectCorrectsNone(req: Request, world: World, draft: Object, s: State)
    requires !Corrects(s.events)
    ensures !Corrects(Reflect(req, world, draft, s).state.events)
  {
    hide Corrects, Ask, Fatal, ShouldReflect;
    AskCorrectsNone(world, Reflection, s);
    var s1 := Ask(world, Reflection, s).1;
    AskCorrectsNone(world, Reflection, CountReflection(s1));
  }

  ghost predicate TurnCorrectsNone(p: Progress) {
    match p
    case Done(leg) => !Corrects(leg.state.events)
    case Next(s1, _) => !Corrects(s1.events)
  }

  lemma NoCorrectionInTurn(req: Request, world: World, routing: Routing, turn: nat, s: State, lastInvalid: Body)
    requires !Corrects(s.events)
    ensures TurnCorrectsNone(OneTurn(req, world, routing, turn, s, lastInvalid))
  {
    hide Corrects, Ask, ToolBatch, Reflect;
    var p := Prompted(req, turn, s);
    var (reply, s1) := Ask(world, Turn, p);
    AskCorrectsNone(world, Turn, p);
    if reply.Some? && reply.value.toolCalls != [] {
      BatchCorrectsNone(world, routing, reply.value.toolCalls, s1);
    } else if reply.Some? && world.parse(reply.value.content).Some? {
      ReflectCorrectsNone(req, world, world.parse(reply.value.content).value, s1);
    }
  }

  // ---- when the correction is made ----

  /** Out of turns, the correction is asked for exactly when the memory is not empty. */
  lemma CorrectedAtTheEnd(world: World, s: State, lastInvalid: Body)
    requires !Corrects(s.events) && lastInvalid == LastInvalid(world, s.events)
    ensures var leg := FreeCorrection(world, s, lastInvalid);
      && (Corrects(leg.state.events) <==> lastInvalid != Text(""))
      && LastInvalid(world, leg.state.events) == lastInvalid
      && (lastInvalid == Text("") ==> leg == Leg(Failed("max_turns_exceeded"), s))
  {
    hide LastInvalid, Asks;
    if lastInvalid != Text("") {
      var (reply, s1) := Ask(world, Correction, s);
      LastOne(world, s.events, Asked(Correction, reply));
      assert Asked(Correction, reply) in s1.events;
    }
  }

  lemma {:induction false} TurnsCorrect(req: Request, world: World, routing: Routing, turn: nat, s: State, lastInvalid: Body)
    requires !Corrects(s.events) && lastInvalid == LastInvalid(world, s.events)
    ensures var leg := Turns(req, world, routing, turn, s, lastInvalid);
      Corrects(leg.state.events) <==>
        OutOfTurns(req, world, routing, turn, s) && LastInvalid(world, leg.state.events) != Text("")
    decreases MaxTurns(req) + 1 - turn
  {
    hide OneTurn, FreeCorrection, Corrects, LastInvalid;
    if turn > MaxTurns(req) {
      CorrectedAtTheEnd(world, s, lastInvalid);
    } else {
      OutUnfolds(req, world, routing, turn, s, lastInvalid);
      hide OutOfTurns;
      NoCorrectionInTurn(req, world, routing, turn, s, lastInvalid);
      TurnRemembers(req, world, routing, turn, s, lastInvalid);
      match OneTurn(req, world, routing, turn, s, lastInvalid) {
        case Done(_) =>
        case Next(s1, invalid) => TurnsCorrect(req, world, routing, turn + 1, s1, invalid);
      }
    }
  }

  /** Calls are no answers. */
  lemma {:induction false} CallsOnly(world: World, events: seq<Event>)
    requires forall e :: e in events ==> e.Called?
    ensures !Corrects(events) && LastInvalid(world, events) == Text("")
  {
    if events != [] {
      assert events[|events| - 1] in events;
      CallsOnly(world, events[..|events| - 1]);
    }
  }

  /**
   * A leg asks for the free correction exactly when none of its turns ended it and its last invalid
   * answer, whenever that came, was not empty.
   */
  lemma CorrectedExactly(req: Request, world: World, routing: Routing)
    requires Discover(req.servers, world) == Some(routing)
    ensures var leg := RunLeg(req, world);
      Corrects(leg.state.events) <==> RunsOut(req, world, routing) && LastInvalid(world, leg.state.events) != Text("")
  {
    hide Turns, OutOfTurns, Resume, Corrects, LastInvalid;
    PreludeTold(req, world, routing);
    CallsOnly(world, StateOf(Prelude(req, world, routing)).events);
    match Prelude(req, world, routing)
    case Halt(_) =>
    case More(s) => TurnsCorrect(req, world, routing, 1, s, Text(""));
  }

  // ---- what resuming forgets ----

  /** Some turn answered with neither a tool call nor an object. */
  ghost predicate AnyInvalid(world: World, events: seq<Event>) {
    exists e :: e in events && Invalid(world, e)
  }

  lemma InvalidTurnIsKept(req: Request, world: World, routing: Routing, turn: nat, s: State, x: Body)
    requires turn <= MaxTurns(req) && Unparsed(world, ReplyOf(req, world, turn, s))
    requires OneTurn(req, world, routing, turn, s, x).Next?
    ensures AnyInvalid(world, Turns(req, world, routing, turn, s, x).state.events)
  {
    hide ToolBatch, Reflect, Turns;
    var e := Asked(Turn, ReplyOf(req, world, turn, s));
    match OneTurn(req, world, routing, turn, s, x)
    case Done(_) =>
    case Next(s1, invalid) =>
      assert s1.events == s.events + [e];
      TurnUnfolds(req, world, routing, turn, s, x, s1, invalid);
      EventsKept(req, world, routing, turn + 1, s1, invalid);
      var leg := Turns(req, world, routing, turn + 1, s1, invalid);
      assert leg.state.events[|s.events|] == e;
      assert Invalid(world, e);
  }

  ghost predicate NoInvalidYet(world: World, p: Progress) {
    match p
    case Done(_) => true
    case Next(s1, _) => !AnyInvalid(world, s1.events)
  }

  lemma {:induction false} BatchAddsNoAnswer(world: World, routing: Routing, calls: seq<ToolCall>, s: State)
    requires !AnyInvalid(world, s.events)
    ensures !AnyInvalid(world, StateOf(ToolBatch(world, routing, calls, s)).events)
    decreases |calls|
  {
    hide AnyInvalid;
    if calls != [] && calls[0].name in routing && !Gated(routing, calls[0].name) {
      var call := calls[0];
      BatchUnfolds(world, routing, calls, s);
      hide ToolBatch;
      NoAnswerAdded(world, s.events, Called(call, false, false));
      NoAnswerAdded(world, s.events, Called(call, false, true));
      if world.tool(call).Some? {
        BatchAddsNoAnswer(world, routing, calls[1..], Executed(s, call, false, Exchange(call, world.tool(call).value)));
      }
    }
  }

  lemma NoAnswerAdded(world: World, events: seq<Event>, e: Event)
    requires !AnyInvalid(world, events) && !Invalid(world, e)
    ensures !AnyInvalid(world, events + [e])
  {
  }

  lemma ValidTurn(req: Request, world: World, routing: Routing, turn: nat, s: State, x: Body)
    requires !AnyInvalid(world, s.events) && !Unparsed(world, ReplyOf(req, world, turn, s))
    ensures NoInvalidYet(world, OneTurn(req, world, routing, turn, s, x))
  {
    hide AnyInvalid, ToolBatch, Reflect;
    var p := Prompted(req, turn, s);
    var (reply, s1) := Ask(world, Turn, p);
    NoAnswerAdded(world, s.events, Asked(Turn, reply));
    if reply.Some? && reply.value.toolCalls != [] {
      BatchAddsNoAnswer(world, routing, reply.value.toolCalls, s1);
    }
  }

  /** Out of turns, an empty memory and another one end in different legs. */
  lemma MemoryAtTheEnd(world: World, s: State, x: Body)
    ensures FreeCorrection(world, s, Text("")) == Leg(Failed("max_turns_exceeded"), s)
    ensures FreeCorrection(world, s, x) == FreeCorrection(world, s, Text("")) <==> x == Text("")
  {
    if x != Text("") {
      assert |FreeCorrection(world, s, x).state.events| == |s.events| + 1;
    }
  }

  /** Starting a turn loop without its memory changes the leg exactly when the memory would have been used. */
  lemma {:induction false} ForgettingExactly(req: Request, world: World, routing: Routing, turn: nat, s: State, x: Body)
    requires !AnyInvalid(world, s.events)
    ensures var leg := Turns(req, world, routing, turn, s, Text(""));
      Turns(req, world, routing, turn, s, x) == leg <==>
        x == Text("") || !OutOfTurns(req, world, routing, turn, s) || AnyInvalid(world, leg.state.events)
    decreases MaxTurns(req) + 1 - turn
  {
    hide OneTurn, FreeCorrection, AnyInvalid, Unparsed, ReplyOf;
    if turn > MaxTurns(req) {
      MemoryAtTheEnd(world, s, x);
    } else {
      TurnForgets(req, world, routing, turn, s, Text(""), x);
      OutUnfolds(req, world, routing, turn, s, Text(""));
      if Unparsed(world, ReplyOf(req, world, turn, s)) {
        if OneTurn(req, world, routing, turn, s, Text("")).Next? {
          InvalidTurnIsKept(req, world, routing, turn, s, Text(""));
        }
      } else {
        ValidTurn(req, world, routing, turn, s, Text(""));
        match OneTurn(req, world, routing, turn, s, Text("")) {
          case Done(_) =>
          case Next(s1, _) => ForgettingExactly(req, world, routing, turn + 1, s1, x);
        }
      }
    }
  }

  /**
   * What approving and resuming forgets. The resumed leg goes as if it had kept the last invalid
   * answer of the suspended leg, unless that answer was not empty and the resumed leg runs out of
   * turns without an invalid answer of its own: then it fails without the correction it was owed.
   */
  lemma ResumeForgetsExactly(resumed: Request, world: World, again: World, routing: Routing, leg: Leg, text: string)
    requires leg.outcome.Suspended? && leg.state.messages != []
    requires leg.state.messages[|leg.state.messages| - 1] == UseMessage(leg.outcome.pending.call)
    requires Unused(leg.state.messages[..|leg.state.messages| - 1], leg.outcome.pending.call.id)
    requires resumed.messages == leg.state.messages && resumed.approvedToolCalls == [leg.outcome.pending.call.id]
    requires Discover(resumed.servers, again) == Some(routing)
    requires leg.outcome.pending.call.name in routing && again.tool(leg.outcome.pending.call) == Some(text)
    ensures
      var owed := LastInvalid(world, leg.state.events);
      var second := RunLeg(resumed, again);
      Turns(resumed, again, routing, 1, ResumedState(leg, text), owed) == second <==>
        owed == Text("") || !OutOfTurns(resumed, again, routing, 1, ResumedState(leg, text)) || AnyInvalid(again, second.state.events)
  {
    hide RunLeg, Turns, OutOfTurns, LastInvalid, Discover, Unused;
    ResumedLegTurns(resumed, again, routing, leg, text);
    ForgettingExactly(resumed, again, routing, 1, ResumedState(leg, text), LastInvalid(world, leg.state.events));
  }

  // ---- legs that are not corrected as announced ----

  const GATE := Rule("g", "fail", 0, "fail")
  const SERVER := Server("s", [GATE])
  const CALL := ToolCall("1", "t", "")
  const GATED := ToolCall("2", "g", "")
  const INVALID := Response(Text("x"), [], NO_USAGE)
  const CALLING := Response(Text(""), [CALL], NO_USAGE)
  const GATING := Response(Text(""), [GATED], NO_USAGE)
  const EMPTY_ANSWER := Response(Text(""), [], NO_USAGE)

  function Asking(maxTurns: int): Request {
    Request("", "", "", false, 0.0, maxTurns, [SERVER], [], [], false)
  }

  /** A world that answers the first gateway call with `first` and every later one with `rest`. */
  function Answering(first: Response, rest: Response): World {
    World(n => Some(["t", "g"]), n => Some(if n == 0 then first else rest), call => Some(""), body => None)
  }

  function Route(): Routing {
    map["t" := SERVER, "g" := SERVER]
  }

  lemma Discovered(req: Request, first: Response, rest: Response)
    requires req.servers == [SERVER]
    ensures Discover(req.servers, Answering(first, rest)) == Some(Route())
  {
    assert [SERVER][..0] == [];
    assert Discover([], Answering(first, rest)) == Some(map[]);
    assert AddTools(map[], SERVER, ["t", "g"]) == Route();
  }

  lemma GatesOnlyOne()
    ensures !Gated(Route(), "t") && FindRule("g", SERVER.rules) == Some(GATE)
  {
    assert FindRule("t", [GATE]) == FindRule("t", []);
  }

  lemma AskedOnce(events: seq<Event>, e: Event)
    ensures Asks(events + [e]) == Asks(events) + if e.Asked? then 1 else 0
  {
    assert (events + [e])[..|events|] == events;
  }

  /** A turn whose answer is neither a tool call nor an object. */
  lemma InvalidTurn(req: Request, world: World, routing: Routing, turn: nat, s: State, x: Body, reply: Response) returns (s1: State)
    requires world.gateway(Asks(s.events)) == Some(reply) && reply.toolCalls == [] && world.parse(reply.content).None?
    ensures OneTurn(req, world, routing, turn, s, x) == Next(s1, reply.content)
    ensures s1.events == s.events + [Asked(Turn, Some(reply))] && Asks(s1.events) == Asks(s.events) + 1
    ensures s1.messages == Prompted(req, turn, s).messages + [Message(Assistant, reply.content), JSON_CORRECTION]
  {
    s1 := OneTurn(req, world, routing, turn, s, x).state;
    AskedOnce(s.events, Asked(Turn, Some(reply)));
  }

  /** A turn whose reply asks for one call, which needs no approval and is answered. */
  lemma OneCallTurn(req: Request, world: World, routing: Routing, turn: nat, s: State, x: Body, reply: Response, call: ToolCall)
    returns (s1: State)
    requires world.gateway(Asks(s.events)) == Some(reply) && reply.toolCalls == [call]
    requires call.name in routing && !Gated(routing, call.name) && world.tool(call).Some?
    ensures OneTurn(req, world, routing, turn, s, x) == Next(s1, x)
    ensures s1.events == s.events + [Asked(Turn, Some(reply)), Called(call, false, true)]
    ensures Asks(s1.events) == Asks(s.events) + 1
  {
    hide ToolBatch, Gated, Asks;
    var asked := Ask(world, Turn, Prompted(req, turn, s)).1;
    AskedOnce(s.events, Asked(Turn, Some(reply)));
    AskedOnce(asked.events, Called(call, false, true));
    OneCallBatch(world, routing, call, asked);
    s1 := Executed(asked, call, false, Exchange(call, world.tool(call).value));
  }

  lemma OneCallBatch(world: World, routing: Routing, call: ToolCall, s: State)
    requires call.name in routing && !Gated(routing, call.name) && world.tool(call).Some?
    ensures ToolBatch(world, routing, [call], s) == More(Executed(s, call, false, Exchange(call, world.tool(call).value)))
  {
    hide Gated;
    BatchUnfolds(world, routing, [call], s);
    assert [call][1..] == [];
  }

  /** A turn that calls the tool that needs no approval. */
  lemma CallingTurn(req: Request, first: Response, turn: nat, s: State, x: Body) returns (s1: State)
    requires first == CALLING || Asks(s.events) > 0
    ensures OneTurn(req, Answering(first, CALLING), Route(), turn, s, x) == Next(s1, x)
    ensures s1.events == s.events + [Asked(Turn, Some(CALLING)), Called(CALL, false, true)]
    ensures Asks(s1.events) == Asks(s.events) + 1
  {
    hide OneTurn, Gated, Asks;
    GatesOnlyOne();
    s1 := OneCallTurn(req, Answering(first, CALLING), Route(), turn, s, x, CALLING, CALL);
  }

  /** A turn that asks for the tool that needs approval. */
  lemma GatingTurn(req: Request, turn: nat, s: State, x: Body) returns (leg: Leg)
    requires Asks(s.events) > 0
    ensures OneTurn(req, Answering(INVALID, GATING), Route(), turn, s, x) == Done(leg)
    ensures leg.outcome.Suspended? && leg.outcome.pending.call == GATED
    ensures leg.state.events == s.events + [Asked(Turn, Some(GATING))]
    ensures leg.state.messages == Prompted(req, turn, s).messages + [UseMessage(GATED)]
  {
    var world := Answering(INVALID, GATING);
    var asked := Ask(world, Turn, Prompted(req, turn, s)).1;
    GatesOnlyOne();
    leg := ToolBatch(world, Route(), [GATED], asked).leg;
  }

  /** The last answer is a tool call that was made, and a correction of the one before is asked for. */
  lemma CorrectedAfterToolCall()
    ensures RunLeg(Asking(2), Answering(INVALID, CALLING)).state.events ==
      [Asked(Turn, Some(INVALID)), Asked(Turn, Some(CALLING)), Called(CALL, false, true), Asked(Correction, Some(CALLING))]
  {
    hide OneTurn, Turns, Discover, Route;
    var req, world := Asking(2), Answering(INVALID, CALLING);
    Discovered(req, INVALID, CALLING);
    FirstLegTurns(req, world, Route());
    var s0 := State(InitialMessages(req), ZERO, []);
    var s1 := InvalidTurn(req, world, Route(), 1, s0, Text(""), INVALID);
    var s2 := CallingTurn(req, INVALID, 2, s1, Text("x"));
    TurnUnfolds(req, world, Route(), 1, s0, Text(""), s1, Text("x"));
    TurnUnfolds(req, world, Route(), 2, s1, Text("x"), s2, Text("x"));
    LastTurnOver(req, world, Route(), 3, s2, Text("x"));
  }

  lemma LastTurnOver(req: Request, world: World, routing: Routing, turn: nat, s: State, x: Body)
    requires turn > MaxTurns(req)
    ensures Turns(req, world, routing, turn, s, x) == FreeCorrection(world, s, x)
  {
  }

  lemma TurnEnds(req: Request, world: World, routing: Routing, turn: nat, s: State, x: Body, leg: Leg)
    requires turn <= MaxTurns(req) && OneTurn(req, world, routing, turn, s, x) == Done(leg)
    ensures Turns(req, world, routing, turn, s, x) == leg
  {
  }

  /** The last answer is invalid and empty, and no correction is asked for. */
  lemma EmptyAnswerIsNotCorrected()
    ensures var leg := RunLeg(Asking(1), Answering(EMPTY_ANSWER, CALLING));
      leg.state.events == [Asked(Turn, Some(EMPTY_ANSWER))] && leg.outcome == Failed("max_turns_exceeded")
  {
    hide OneTurn, Turns, Discover, Route;
    var req, world := Asking(1), Answering(EMPTY_ANSWER, CALLING);
    Discovered(req, EMPTY_ANSWER, CALLING);
    FirstLegTurns(req, world, Route());
    var s0 := State(InitialMessages(req), ZERO, []);
    var s1 := InvalidTurn(req, world, Route(), 1, s0, Text(""), EMPTY_ANSWER);
    TurnUnfolds(req, world, Route(), 1, s0, Text(""), s1, Text(""));
    LastTurnOver(req, world, Route(), 2, s1, Text(""));
  }

  /** The suspended leg of the example below. */
  lemma OwedLeg() returns (leg: Leg)
    ensures leg == RunLeg(Asking(2), Answering(INVALID, GATING))
    ensures leg.outcome.Suspended? && leg.outcome.pending.call == GATED
    ensures leg.state.events == [Asked(Turn, Some(INVALID)), Asked(Turn, Some(GATING))]
    ensures leg.state.messages != [] && leg.state.messages[|leg.state.messages| - 1] == UseMessage(GATED)
    ensures Unused(leg.state.messages[..|leg.state.messages| - 1], GATED.id)
  {
    hide OneTurn, Turns, Discover, Route;
    var req, world := Asking(2), Answering(INVALID, GATING);
    Discovered(req, INVALID, GATING);
    FirstLegTurns(req, world, Route());
    var s0 := State(InitialMessages(req), ZERO, []);
    var s1 := InvalidTurn(req, world, Route(), 1, s0, Text(""), INVALID);
    leg := GatingTurn(req, 2, s1, Text("x"));
    TurnUnfolds(req, world, Route(), 1, s0, Text(""), s1, Text("x"));
    TurnEnds(req, world, Route(), 2, s1, Text("x"), leg);
    var front := Prompted(req, 2, s1).messages;
    assert leg.state.messages[..|leg.state.messages| - 1] == front;
    assert forall m :: m in front ==> m.body.Text?;
  }

  /**
   * A correction lost by approval: the suspended leg had an invalid answer, the resumed leg runs
   * out of turns, and no correction is asked for.
   */
  lemma ApprovalLosesCorrection() returns (leg: Leg)
    ensures leg == RunLeg(Asking(2), Answering(INVALID, GATING)) && leg.outcome.Suspended?
    ensures LastInvalid(Answering(INVALID, GATING), leg.state.events) == Text("x")
    ensures var resumed := RunLeg(ApprovedRequest(Asking(2), leg.state.messages, GATED.id), Answering(CALLING, CALLING));
      resumed.outcome == Failed("max_turns_exceeded") && !Corrects(resumed.state.events)
  {
    hide OneTurn, Turns, Discover, RunLeg, Unused;
    leg := OwedLeg();
    var world, again := Answering(INVALID, GATING), Answering(CALLING, CALLING);
    LastOne(world, [], Asked(Turn, Some(INVALID)));
    LastOne(world, [Asked(Turn, Some(INVALID))], Asked(Turn, Some(GATING)));
    assert [] + [Asked(Turn, Some(INVALID))] == [Asked(Turn, Some(INVALID))];
    var req := ApprovedRequest(Asking(2), leg.state.messages, GATED.id);
    Discovered(req, CALLING, CALLING);
    ResumedLegTurns(req, again, Route(), leg, "");
    var s0 := ResumedState(leg, "");
    var s1 := CallingTurn(req, CALLING, 1, s0, Text(""));
    var s2 := CallingTurn(req, CALLING, 2, s1, Text(""));
    TurnUnfolds(req, again, Route(), 1, s0, Text(""), s1, Text(""));
    TurnUnfolds(req, again, Route(), 2, s1, Text(""), s2, Text(""));
    LastTurnOver(req, again, Route(), 3, s2, Text(""));
  }
}
