/** When a leg reflects on its draft, and which answer it returns. */
module Reflections {
  import opened Wrappers
  import opened Values
  import opened Metrics
  import opened AgentLoop
  import opened LoopProperties
  import opened Transcript
  import opened Corrections

  // ---- drafts ----

  /** A turn's answer without tool calls that is the object `draft`. */
  predicate Drafts(world: World, e: Event, draft: Object) {
    && e.Asked? && e.purpose == Turn && e.reply.Some? && e.reply.value.toolCalls == []
    && world.parse(e.reply.value.content) == Some(draft)
  }

  /** The draft declares an injection, untrusted content, low quality or the need of a human, or says anything but `false` there. */
  predicate Tainted(draft: Object) {
    || ("ktsu_injection_attempt" in draft && draft["ktsu_injection_attempt"] != Bool(false))
    || ("ktsu_untrusted_content" in draft && draft["ktsu_untrusted_content"] != Bool(false))
    || ("ktsu_low_quality" in draft && draft["ktsu_low_quality"] != Bool(false))
    || ("ktsu_needs_human" in draft && draft["ktsu_needs_human"] != Bool(false))
  }

  /** The schema declares a confidence, the step sets a positive threshold, and the draft states a number that reaches it. */
  predicate Confident(req: Request, draft: Object) {
    && req.confidenceDeclared && req.confidenceThreshold > 0.0
    && "ktsu_confidence" in draft && draft["ktsu_confidence"].Num? && draft["ktsu_confidence"].n >= req.confidenceThreshold
  }

  lemma TaintedExactly(draft: Object)
    ensures Fatal(draft) <==> Tainted(draft)
  {
    if Tainted(draft) {
      assert FATAL_FIELDS[0] == "ktsu_injection_attempt" && FATAL_FIELDS[1] == "ktsu_untrusted_content";
      assert FATAL_FIELDS[2] == "ktsu_low_quality" && FATAL_FIELDS[3] == "ktsu_needs_human";
    }
  }

  /** Only turns so far, and none with a draft. */
  ghost predicate Undrafted(world: World, events: seq<Event>) {
    forall e :: e in events && e.Asked? ==> e.purpose == Turn && forall draft :: !Drafts(world, e, draft)
  }

  ghost predicate Reflects(events: seq<Event>) {
    exists e :: e in events && e.Asked? && e.purpose == Reflection
  }

  // ---- what becomes of a draft ----

  /** The last gateway call was answered with this object. */
  predicate LastAnswered(world: World, events: seq<Event>, output: Object) {
    && events != [] && events[|events| - 1].Asked? && events[|events| - 1].reply.Some?
    && world.parse(events[|events| - 1].reply.value.content) == Some(output)
  }

  /** The draft is reflected on exactly when a reflection is set, the draft is not tainted and not confident; a tainted one fails. */
  ghost predicate RightlyEnded(req: Request, world: World, leg: Leg, draft: Object) {
    && (Reflects(leg.state.events) <==> req.reflect != "" && !Tainted(draft) && !Confident(req, draft))
    && (req.reflect != "" && Tainted(draft) ==> leg.outcome.Failed?)
    && (!Reflects(leg.state.events) && !(req.reflect != "" && Tainted(draft)) ==> leg.outcome == Finished(draft))
    && (leg.outcome.Finished? ==> LastAnswered(world, leg.state.events, leg.outcome.output))
  }

  lemma ReflectedOne(events: seq<Event>, e: Event)
    ensures Reflects(events + [e]) <==> Reflects(events) || (e.Asked? && e.purpose == Reflection)
  {
    if Reflects(events) {
      var x :| x in events && x.Asked? && x.purpose == Reflection;
      assert x in events + [e];
    } else if e.Asked? && e.purpose == Reflection {
      assert e in events + [e];
    }
  }

  lemma UndraftedOne(world: World, events: seq<Event>, e: Event)
    requires Undrafted(world, events)
    requires e.Asked? ==> e.purpose == Turn && (e.reply.Some? ==> e.reply.value.toolCalls != [] || world.parse(e.reply.value.content).None?)
    ensures Undrafted(world, events + [e])
  {
  }

  lemma UndraftedUnreflected(world: World, events: seq<Event>)
    requires Undrafted(world, events)
    ensures !Reflects(events)
  {
  }

  lemma ReflectionEnds(req: Request, world: World, draft: Object, s: State)
    requires !Reflects(s.events) && LastAnswered(world, s.events, draft)
    ensures RightlyEnded(req, world, Reflect(req, world, draft, s), draft)
  {
    hide Asks, Fatal, Tainted, Reflects;
    TaintedExactly(draft);
    var (reply, s1) := Ask(world, Reflection, s);
    ReflectedOne(s.events, Asked(Reflection, reply));
    var s2 := CountReflection(s1);
    var (again, s3) := Ask(world, Reflection, s2);
    ReflectedOne(s1.events, Asked(Reflection, again));
  }

  // ---- the turn loop ----

  lemma {:induction false} BatchStaysUndrafted(world: World, routing: Routing, calls: seq<ToolCall>, s: State)
    requires Undrafted(world, s.events)
    ensures Undrafted(world, StateOf(ToolBatch(world, routing, calls, s)).events)
    decreases |calls|
  {
    hide Undrafted;
    if calls != [] && calls[0].name in routing && !Gated(routing, calls[0].name) {
      var call := calls[0];
      BatchUnfolds(world, routing, calls, s);
      hide ToolBatch;
      UndraftedOne(world, s.events, Called(call, false, false));
      UndraftedOne(world, s.events, Called(call, false, true));
      if world.tool(call).Some? {
        BatchStaysUndrafted(world, routing, calls[1..], Executed(s, call, false, Exchange(call, world.tool(call).value)));
      }
    }
  }

  lemma {:induction false} BatchFinishesNothing(world: World, routing: Routing, calls: seq<ToolCall>, s: State)
    ensures match ToolBatch(world, routing, calls, s) case More(_) => true case Halt(leg) => !leg.outcome.Finished?
    decreases |calls|
  {
    if calls != [] && world.tool(calls[0]).Some? {
      BatchFinishesNothing(world, routing, calls[1..], Executed(s, calls[0], false, Exchange(calls[0], world.tool(calls[0]).value)));
    }
  }

  /** A leg that ended with a draft did so rightly; one without a draft never reflected. */
  ghost predicate EndedWell(req: Request, world: World, leg: Leg) {
    && (forall e, draft :: e in leg.state.events && Drafts(world, e, draft) ==> RightlyEnded(req, world, leg, draft))
    && ((forall e, draft :: e in leg.state.events ==> !Drafts(world, e, draft)) ==> !Reflects(leg.state.events))
    && (leg.outcome.Finished? ==> LastAnswered(world, leg.state.events, leg.outcome.output))
  }

  ghost predicate TurnWell(req: Request, world: World, p: Progress) {
    match p
    case Done(leg) => EndedWell(req, world, leg)
    case Next(s1, _) => Undrafted(world, s1.events)
  }

  lemma UndraftedEnd(req: Request, world: World, leg: Leg)
    requires Undrafted(world, leg.state.events) && !leg.outcome.Finished?
    ensures EndedWell(req, world, leg)
  {
    UndraftedUnreflected(world, leg.state.events);
  }

  /** The only draft of a leg is that of its last turn. */
  lemma DraftedEnd(req: Request, world: World, draft: Object, s: State, reply: Response, s1: State)
    requires Undrafted(world, s.events) && s1.events == s.events + [Asked(Turn, Some(reply))]
    requires reply.toolCalls == [] && world.parse(reply.content) == Some(draft)
    ensures EndedWell(req, world, Reflect(req, world, draft, s1))
  {
    hide RightlyEnded;
    var leg := Reflect(req, world, draft, s1);
    UndraftedUnreflected(world, s.events);
    ReflectedOne(s.events, Asked(Turn, Some(reply)));
    ReflectionEnds(req, world, draft, s1);
    ReflectAddsNoDraft(req, world, draft, s1);
    forall e, d | e in leg.state.events && Drafts(world, e, d) ensures d == draft {
    }
    assert Asked(Turn, Some(reply)) in s1.events;
    AnswerKeepsEvents(req, world, draft, s1, Text(""));
    assert Asked(Turn, Some(reply)) in leg.state.events && Drafts(world, Asked(Turn, Some(reply)), draft);
    FinishedRightly(req, world, leg, draft);
  }

  lemma FinishedRightly(req: Request, world: World, leg: Leg, draft: Object)
    requires RightlyEnded(req, world, leg, draft)
    ensures leg.outcome.Finished? ==> LastAnswered(world, leg.state.events, leg.outcome.output)
  {
  }

  lemma ReflectAddsNoDraft(req: Request, world: World, draft: Object, s: State)
    ensures forall e :: e in Reflect(req, world, draft, s).state.events ==> e in s.events || (e.Asked? && e.purpose == Reflection)
  {
    hide Asks, Fatal, ShouldReflect;
  }

  lemma OneTurnWell(req: Request, world: World, routing: Routing, turn: nat, s: State, lastInvalid: Body)
    requires Undrafted(world, s.events)
    ensures TurnWell(req, world, OneTurn(req, world, routing, turn, s, lastInvalid))
  {
    hide ToolBatch, Reflect, Undrafted, EndedWell, Asks;
    var (reply, s1) := Ask(world, Turn, Prompted(req, turn, s));
    if reply.Some? && reply.value.toolCalls == [] && world.parse(reply.value.content).Some? {
      DraftedEnd(req, world, world.parse(reply.value.content).value, s, reply.value, s1);
    } else {
      UndraftedOne(world, s.events, Asked(Turn, reply));
      if reply.None? {
        UndraftedEnd(req, world, Leg(Failed("gateway"), s1));
      } else if reply.value.toolCalls != [] {
        BatchStaysUndrafted(world, routing, reply.value.toolCalls, s1);
        BatchFinishesNothing(world, routing, reply.value.toolCalls, s1);
        match ToolBatch(world, routing, reply.value.toolCalls, s1)
        case Halt(leg) => UndraftedEnd(req, world, leg);
        case More(_) =>
      }
    }
  }

  lemma CorrectionWell(req: Request, world: World, s: State, lastInvalid: Body)
    requires Undrafted(world, s.events)
    ensures EndedWell(req, world, FreeCorrection(world, s, lastInvalid))
  {
    hide Asks;
    UndraftedUnreflected(world, s.events);
    ReflectedOne(s.events, Asked(Correction, Ask(world, Correction, s).0));
  }

  lemma {:induction false} TurnsWell(req: Request, world: World, routing: Routing, turn: nat, s: State, lastInvalid: Body)
    requires Undrafted(world, s.events)
    ensures EndedWell(req, world, Turns(req, world, routing, turn, s, lastInvalid))
    decreases MaxTurns(req) + 1 - turn
  {
    hide OneTurn, FreeCorrection, Undrafted, EndedWell;
    if turn > MaxTurns(req) {
      CorrectionWell(req, world, s, lastInvalid);
    } else {
      OneTurnWell(req, world, routing, turn, s, lastInvalid);
      match OneTurn(req, world, routing, turn, s, lastInvalid) {
        case Done(_) =>
        case Next(s1, invalid) => TurnsWell(req, world, routing, turn + 1, s1, invalid);
      }
    }
  }

  lemma CallsUndrafted(world: World, events: seq<Event>)
    requires forall e :: e in events ==> e.Called?
    ensures Undrafted(world, events)
  {
  }

  /**
   * A leg returns the object in the answer to its last gateway call. A draft is what a turn answers
   * without tool calls; it is reflected on exactly when the request has a reflect prompt, the draft
   * is not tainted and not confident, a tainted one fails when there is a prompt, and in all other
   * cases the draft is returned. Without a draft there is no reflection.
   */
  lemma DraftsEndRightly(req: Request, world: World)
    ensures EndedWell(req, world, RunLeg(req, world))
  {
    hide Turns, Resume, Undrafted;
    match Discover(req.servers, world)
    case None => CallsUndrafted(world, []); UndraftedEnd(req, world, RunLeg(req, world));
    case Some(routing) =>
      PreludeTold(req, world, routing);
      CallsUndrafted(world, StateOf(Prelude(req, world, routing)).events);
      match Prelude(req, world, routing)
      case Halt(leg) => UndraftedEnd(req, world, leg);
      case More(s) => TurnsWell(req, world, routing, 1, s, Text(""));
  }

  // ---- how many turns ----

  /** A leg that runs out of turns has had exactly as many as it may. */
  lemma {:induction false} TurnsHad(req: Request, world: World, routing: Routing, turn: nat, s: State, lastInvalid: Body)
    requires 1 <= turn <= MaxTurns(req) + 1 && Good(req, routing, s) && TallyOf(s.events) == Tally(turn - 1, 0, 0)
    requires OutOfTurns(req, world, routing, turn, s)
    ensures TallyOf(Turns(req, world, routing, turn, s, lastInvalid).state.events).turns == MaxTurns(req)
    decreases MaxTurns(req) + 1 - turn
  {
    hide OneTurn, Good;
    if turn > MaxTurns(req) {
      LogOne(s.events, Asked(Correction, Ask(world, Correction, s).0));
    } else {
      OutUnfolds(req, world, routing, turn, s, lastInvalid);
      OneTurnGood(req, world, routing, turn, s, lastInvalid);
      match OneTurn(req, world, routing, turn, s, lastInvalid) {
        case Done(_) => assert false;
        case Next(s1, invalid) => TurnsHad(req, world, routing, turn + 1, s1, invalid);
      }
    }
  }

  /** Ten turns, unless the request allows another number. */
  lemma RunsOutAfterAllTurns(req: Request, world: World, routing: Routing)
    requires Discover(req.servers, world) == Some(routing) && RunsOut(req, world, routing)
    ensures TallyOf(RunLeg(req, world).state.events).turns == if req.maxTurns > 0 then req.maxTurns else 10
  {
    hide Turns, OutOfTurns, Resume, Good, TallyOf;
    PreludeIsGood(req, world, routing);
    TurnsHad(req, world, routing, 1, Prelude(req, world, routing).state, Text(""));
  }

  lemma PreludeIsGood(req: Request, world: World, routing: Routing)
    ensures Good(req, routing, StateOf(Prelude(req, world, routing)))
    ensures TallyOf(StateOf(Prelude(req, world, routing)).events) == Tally(0, 0, 0)
  {
    hide Resume;
    var start := State(InitialMessages(req), ZERO, []);
    ResumeGood(req, world, routing, start.messages, start);
  }
}
