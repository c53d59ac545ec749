/** What the legs of a step leave in the transcript, and why resuming an approved call is transparent. */
module Transcript {
  import opened Wrappers
  import opened Values
  import opened Metrics
  import opened AgentLoop
  import opened LoopProperties

  // ---- the transcript is what happened ----

  /**
   * A stretch of the conversation: a tool call with its result, an answer the model was asked to
   * correct, or a message that is not the model's.
   */
  datatype Part = Answered(call: ToolCall, text: string) | Corrected(content: Body) | Said(message: Message)

  function Words(p: Part): seq<Message> {
    match p
    case Answered(call, text) => [UseMessage(call), ResultMessage(call.id, text)]
    case Corrected(content) => [Message(Assistant, content), JSON_CORRECTION]
    case Said(message) => [message]
  }

  function Spoken(parts: seq<Part>): seq<Message> {
    if parts == [] then [] else Spoken(parts[..|parts| - 1]) + Words(parts[|parts| - 1])
  }

  /** An answer without tool calls that is not an object. */
  predicate Unparsed(world: World, reply: Option<Response>) {
    reply.Some? && reply.value.toolCalls == [] && world.parse(reply.value.content).None?
  }

  /** What an event of the turn loop puts on record when `turns` turns were asked for before it. */
  function PartsOf(req: Request, world: World, turns: nat, e: Event): seq<Part> {
    match e
    case Asked(Turn, reply) =>
      (if turns + 1 == MaxTurns(req) then [Said(FORCED_CONCLUSION)] else []) +
      (if Unparsed(world, reply) then [Corrected(reply.value.content)] else [])
    case Asked(_, _) => []
    case Called(call, preApproved, ok) =>
      if preApproved || !ok || world.tool(call).None? then [] else [Answered(call, world.tool(call).value)]
  }

  /** What a turn loop's events put on record, in order. */
  function Script(req: Request, world: World, events: seq<Event>): seq<Part> {
    if events == [] then []
    else
      var front := events[..|events| - 1];
      Script(req, world, front) + PartsOf(req, world, TallyOf(front).turns, events[|events| - 1])
  }

  lemma ScriptOne(req: Request, world: World, events: seq<Event>, e: Event)
    ensures Script(req, world, events + [e]) == Script(req, world, events) + PartsOf(req, world, TallyOf(events).turns, e)
  {
    assert (events + [e])[..|events|] == events;
  }

  lemma SpokenNothing()
    ensures Spoken([]) == []
  {
  }

  /** What a part of the record says about the events of a leg. */
  ghost predicate Happened(world: World, events: seq<Event>, p: Part) {
    match p
    case Answered(call, text) => Called(call, false, true) in events && world.tool(call) == Some(text)
    case Corrected(content) =>
      exists reply :: Asked(Turn, Some(reply)) in events && Unparsed(world, Some(reply)) && content == reply.content
    case Said(message) => message == FORCED_CONCLUSION
  }

  lemma {:induction false} ScriptHappened(req: Request, world: World, events: seq<Event>, all: seq<Event>)
    requires forall e :: e in events ==> e in all
    ensures forall p :: p in Script(req, world, events) ==> Happened(world, all, p)
  {
    if events != [] {
      var front, e := events[..|events| - 1], events[|events| - 1];
      assert e in events;
      ScriptHappened(req, world, front, all);
      PartsHappened(req, world, TallyOf(front).turns, e, all);
    }
  }

  lemma PartsHappened(req: Request, world: World, turns: nat, e: Event, all: seq<Event>)
    requires e in all
    ensures forall p :: p in PartsOf(req, world, turns, e) ==> Happened(world, all, p)
  {
    if e.Asked? && Unparsed(world, e.reply) {
      assert Asked(e.purpose, Some(e.reply.value)) in all;
    }
  }

  lemma Adjoin<T>(a: seq<T>, b: seq<T>, c: seq<T>)
    ensures a + b + c == a + (b + c)
  {
  }

  lemma {:induction false} SpokenConcat(a: seq<Part>, b: seq<Part>)
    ensures Spoken(a + b) == Spoken(a) + Spoken(b)
  {
    hide Words;
    if b == [] {
      assert a + b == a;
    } else {
      var front, last := b[..|b| - 1], b[|b| - 1];
      SpokenConcat(a, front);
      assert (a + b)[..|a + b| - 1] == a + front;
      Adjoin(Spoken(a), Spoken(front), Words(last));
    }
  }

  lemma SpokenOne(p: Part)
    ensures Spoken([p]) == Words(p)
  {
    assert [p][..0] == [];
  }

  lemma Stands<T>(a: seq<T>, b: seq<T>, c: seq<T>)
    ensures (a + (b + c))[|a|..|a| + |b|] == b
  {
  }

  /** Every part stands in the conversation as a whole: a tool call immediately before its own result. */
  lemma PartStands(parts: seq<Part>, i: nat)
    requires i < |parts|
    ensures
      var (k, words) := (|Spoken(parts[..i])|, Words(parts[i]));
      k + |words| <= |Spoken(parts)| && Spoken(parts)[k..k + |words|] == words
    ensures parts[i].Answered? ==>
      var (k, call) := (|Spoken(parts[..i])|, parts[i].call);
      && k + 2 <= |Spoken(parts)|
      && Spoken(parts)[k] == Message(Assistant, Blocks([ToolUse(call.id, call.name, call.input)]))
      && Spoken(parts)[k + 1] == Message(User, Blocks([ToolResult(call.id, parts[i].text)]))
  {
    Standing(parts, i);
    var k, words := |Spoken(parts[..i])|, Words(parts[i]);
    if parts[i].Answered? {
      assert Spoken(parts)[k..k + |words|][0] == words[0] && Spoken(parts)[k..k + |words|][1] == words[1];
    }
  }

  lemma Standing(parts: seq<Part>, i: nat)
    requires i < |parts|
    ensures
      var (k, words) := (|Spoken(parts[..i])|, Words(parts[i]));
      k + |words| <= |Spoken(parts)| && Spoken(parts)[k..k + |words|] == words
  {
    hide Words, Spoken;
    SpokenConcat(parts[..i], parts[i..]);
    SpokenConcat([parts[i]], parts[i + 1..]);
    SpokenOne(parts[i]);
    assert parts == parts[..i] + parts[i..];
    assert parts[i..] == [parts[i]] + parts[i + 1..];
    Stands(Spoken(parts[..i]), Words(parts[i]), Spoken(parts[i + 1..]));
  }

  /** The messages are those the turn loop started with, followed by what its events put on record. */
  ghost predicate Told(req: Request, world: World, start: seq<Message>, s: State) {
    s.messages == start + Spoken(Script(req, world, s.events))
  }

  /** The call a suspended leg waits for stands at the end of its transcript. */
  function Waiting(o: Outcome): seq<Message> {
    if o.Suspended? then [UseMessage(o.pending.call)] else []
  }

  /** A finished turn loop: besides the waiting call the transcript says exactly what happened. */
  ghost predicate ToldOut(req: Request, world: World, start: seq<Message>, leg: Leg) {
    leg.state.messages == start + Spoken(Script(req, world, leg.state.events)) + Waiting(leg.outcome)
  }

  /** One more event, with what it puts on record. */
  lemma ToldOne(req: Request, world: World, start: seq<Message>, s: State, e: Event, s': State)
    requires Told(req, world, start, s) && s'.events == s.events + [e]
    requires s'.messages == s.messages + Spoken(PartsOf(req, world, TallyOf(s.events).turns, e))
    ensures Told(req, world, start, s')
  {
    hide TallyOf, PartsOf;
    var told, more := Script(req, world, s.events), PartsOf(req, world, TallyOf(s.events).turns, e);
    ScriptOne(req, world, s.events, e);
    SpokenConcat(told, more);
    Adjoin(start, Spoken(told), Spoken(more));
  }

  /** One phase of a turn: the transcript still says what happened, and no turn was asked for. */
  ghost predicate StillTold(req: Request, world: World, start: seq<Message>, s: State, s': State) {
    Told(req, world, start, s') && TallyOf(s'.events) == TallyOf(s.events)
  }

  /** A tool call that succeeded, or failed. */
  lemma CallTold(req: Request, world: World, start: seq<Message>, s: State, call: ToolCall)
    requires Told(req, world, start, s)
    ensures world.tool(call).Some? ==>
      StillTold(req, world, start, s, Executed(s, call, false, Exchange(call, world.tool(call).value)))
    ensures StillTold(req, world, start, s, Logged(s, Called(call, false, false)))
  {
    hide Told, Script;
    LogOne(s.events, Called(call, false, true));
    LogOne(s.events, Called(call, false, false));
    assert s.messages + [] == s.messages;
    ToldOne(req, world, start, s, Called(call, false, false), Logged(s, Called(call, false, false)));
    if world.tool(call).Some? {
      var text := world.tool(call).value;
      SpokenOne(Answered(call, text));
      ToldOne(req, world, start, s, Called(call, false, true), Executed(s, call, false, Exchange(call, text)));
    }
  }

  lemma {:induction false} BatchTold(req: Request, world: World, routing: Routing, calls: seq<ToolCall>, start: seq<Message>, s: State)
    requires Told(req, world, start, s)
    ensures match ToolBatch(world, routing, calls, s)
      case More(s1) => StillTold(req, world, start, s, s1)
      case Halt(leg) => ToldOut(req, world, start, leg)
    decreases |calls|
  {
    if calls != [] && calls[0].name in routing && !Gated(routing, calls[0].name) {
      var call := calls[0];
      CallTold(req, world, start, s, call);
      BatchUnfolds(world, routing, calls, s);
      if world.tool(call).Some? {
        BatchTold(req, world, routing, calls[1..], start, Executed(s, call, false, Exchange(call, world.tool(call).value)));
      }
    }
  }

  /** Reflection and free correction work on copies of the conversation: they put nothing on record. */
  lemma AnswerKeepsMessages(req: Request, world: World, draft: Object, s: State, lastInvalid: Body)
    ensures Reflect(req, world, draft, s).state.messages == s.messages
    ensures FreeCorrection(world, s, lastInvalid).state.messages == s.messages
    ensures !Reflect(req, world, draft, s).outcome.Suspended? && !FreeCorrection(world, s, lastInvalid).outcome.Suspended?
  {
  }

  /** A gateway call that is not a turn. */
  lemma AsideTold(req: Request, world: World, start: seq<Message>, purpose: Purpose, s: State)
    requires Told(req, world, start, s) && purpose != Turn
    ensures Told(req, world, start, Ask(world, purpose, s).1)
  {
    hide Told;
    var (reply, s1) := Ask(world, purpose, s);
    AskAdds(world, purpose, s, reply, s1);
    assert s.messages + [] == s.messages;
    ToldOne(req, world, start, s, Asked(purpose, reply), s1);
  }

  lemma FromDraftTold(req: Request, world: World, start: seq<Message>, s: State, leg: Leg)
    requires Told(req, world, start, s) && FromDraft(req, world, s, leg)
    ensures Told(req, world, start, leg.state)
  {
    AsideTold(req, world, start, Reflection, s);
    var (reply, s1) := Ask(world, Reflection, s);
    AsideTold(req, world, start, Reflection, CountReflection(s1));
  }

  lemma PlainlyOut(req: Request, world: World, start: seq<Message>, leg: Leg)
    requires Told(req, world, start, leg.state) && !leg.outcome.Suspended?
    ensures ToldOut(req, world, start, leg)
  {
    assert leg.state.messages + [] == leg.state.messages;
  }

  lemma ReflectTold(req: Request, world: World, start: seq<Message>, draft: Object, s: State)
    requires Told(req, world, start, s)
    ensures ToldOut(req, world, start, Reflect(req, world, draft, s))
  {
    hide Told, ToldOut;
    ReflectCases(req, world, draft, s);
    FromDraftTold(req, world, start, s, Reflect(req, world, draft, s));
    AnswerKeepsMessages(req, world, draft, s, Text(""));
    PlainlyOut(req, world, start, Reflect(req, world, draft, s));
  }

  lemma FreeCorrectionTold(req: Request, world: World, start: seq<Message>, s: State, lastInvalid: Body)
    requires Told(req, world, start, s)
    ensures ToldOut(req, world, start, FreeCorrection(world, s, lastInvalid))
  {
    hide Told, ToldOut;
    AsideTold(req, world, start, Correction, s);
    PlainlyOut(req, world, start, FreeCorrection(world, s, lastInvalid));
  }

  /** What a turn has said once its reply is in: the prompt to conclude, and an answer to correct. */
  function TurnWords(req: Request, world: World, turn: nat, reply: Option<Response>): seq<Message> {
    (if turn == MaxTurns(req) then [FORCED_CONCLUSION] else []) +
    (if Unparsed(world, reply) then [Message(Assistant, reply.value.content), JSON_CORRECTION] else [])
  }

  lemma SaidWords(m: Message)
    ensures Words(Said(m)) == [m]
  {
  }

  lemma CorrectedWords(content: Body)
    ensures Words(Corrected(content)) == [Message(Assistant, content), JSON_CORRECTION]
  {
  }

  lemma TurnWordsSpoken(req: Request, world: World, turn: nat, reply: Option<Response>)
    requires turn >= 1
    ensures Spoken(PartsOf(req, world, turn - 1, Asked(Turn, reply))) == TurnWords(req, world, turn, reply)
  {
    hide Words;
    var prompt: seq<Part> := if turn == MaxTurns(req) then [Said(FORCED_CONCLUSION)] else [];
    var invalid: seq<Part> := if Unparsed(world, reply) then [Corrected(reply.value.content)] else [];
    SpokenConcat(prompt, invalid);
    SpokenOne(Said(FORCED_CONCLUSION));
    SaidWords(FORCED_CONCLUSION);
    if Unparsed(world, reply) {
      SpokenOne(Corrected(reply.value.content));
      CorrectedWords(reply.value.content);
    }
  }

  ghost predicate TurnTold(req: Request, world: World, start: seq<Message>, turn: nat, p: Progress) {
    match p
    case Done(leg) => ToldOut(req, world, start, leg)
    case Next(s1, _) => Told(req, world, start, s1) && TallyOf(s1.events).turns == turn
  }

  lemma RepliedTold(req: Request, world: World, routing: Routing, start: seq<Message>, turn: nat, reply: Option<Response>, s1: State, lastInvalid: Body)
    requires !Unparsed(world, reply) && Told(req, world, start, s1) && TallyOf(s1.events).turns == turn
    ensures TurnTold(req, world, start, turn, Replied(req, world, routing, reply, s1, lastInvalid))
  {
    hide Told, ToldOut;
    if reply.None? {
      PlainlyOut(req, world, start, Leg(Failed("gateway"), s1));
    } else if reply.value.toolCalls != [] {
      BatchTold(req, world, routing, reply.value.toolCalls, start, s1);
    } else {
      ReflectTold(req, world, start, world.parse(reply.value.content).value, s1);
    }
  }

  /** The gateway call of a turn, with what the turn says about it. */
  lemma TurnAsked(req: Request, world: World, start: seq<Message>, turn: nat, s: State)
    requires turn >= 1 && Told(req, world, start, s) && TallyOf(s.events).turns == turn - 1
    ensures var (reply, s1) := Ask(world, Turn, Prompted(req, turn, s));
      var said := s1.(messages := s.messages + TurnWords(req, world, turn, reply));
      Told(req, world, start, said) && TallyOf(said.events).turns == turn
  {
    hide Told, Spoken, PartsOf, TurnWords;
    var p := Prompted(req, turn, s);
    var (reply, s1) := Ask(world, Turn, p);
    AskAdds(world, Turn, p, reply, s1);
    LogOne(s.events, Asked(Turn, reply));
    TurnWordsSpoken(req, world, turn, reply);
    ToldOne(req, world, start, s, Asked(Turn, reply), s1.(messages := s.messages + TurnWords(req, world, turn, reply)));
  }

  /** Up to its reply a turn says no more than the prompt to conclude, unless there is an answer to correct. */
  lemma TurnSays(req: Request, world: World, turn: nat, s: State, lastInvalid: Body, routing: Routing)
    ensures var (reply, s1) := Ask(world, Turn, Prompted(req, turn, s));
      var said := s1.(messages := s.messages + TurnWords(req, world, turn, reply));
      if Unparsed(world, reply) then Replied(req, world, routing, reply, s1, lastInvalid) == Next(said, reply.value.content)
      else said == s1
  {
    hide Asks, ToolBatch, Reflect;
    var (reply, s1) := Ask(world, Turn, Prompted(req, turn, s));
    assert s.messages + [] == s.messages;
    if Unparsed(world, reply) {
      assert s.messages + TurnWords(req, world, turn, reply) ==
        s1.messages + [Message(Assistant, reply.value.content), JSON_CORRECTION];
    }
  }

  lemma OneTurnTold(req: Request, world: World, routing: Routing, start: seq<Message>, turn: nat, s: State, lastInvalid: Body)
    requires turn >= 1 && Told(req, world, start, s) && TallyOf(s.events).turns == turn - 1
    ensures TurnTold(req, world, start, turn, OneTurn(req, world, routing, turn, s, lastInvalid))
  {
    hide Told, ToldOut, Ask, Prompted, TurnWords, Replied, Unparsed;
    var (reply, s1) := Ask(world, Turn, Prompted(req, turn, s));
    TurnAsked(req, world, start, turn, s);
    TurnSays(req, world, turn, s, lastInvalid, routing);
    if !Unparsed(world, reply) {
      RepliedTold(req, world, routing, start, turn, reply, s1, lastInvalid);
    }
  }

  /** The turn loop keeps a transcript that says exactly what happened. */
  lemma {:induction false} TurnsTold(req: Request, world: World, routing: Routing, start: seq<Message>, turn: nat, s: State, lastInvalid: Body)
    requires turn >= 1 && Told(req, world, start, s) && TallyOf(s.events).turns == turn - 1
    ensures ToldOut(req, world, start, Turns(req, world, routing, turn, s, lastInvalid))
    decreases MaxTurns(req) + 1 - turn
  {
    hide Told, ToldOut, OneTurn, FreeCorrection;
    if turn > MaxTurns(req) {
      FreeCorrectionTold(req, world, start, s, lastInvalid);
    } else {
      OneTurnTold(req, world, routing, start, turn, s, lastInvalid);
      match OneTurn(req, world, routing, turn, s, lastInvalid) {
        case Done(_) =>
        case Next(s1, invalid) => TurnsTold(req, world, routing, start, turn + 1, s1, invalid);
      }
    }
  }

  // ---- what the resume prelude adds ----

  function ResultOf(world: World, e: Event): seq<Message> {
    if e.Called? && e.ok && world.tool(e.call).Some? then [ResultMessage(e.call.id, world.tool(e.call).value)] else []
  }

  /** The results of the calls that were made and answered, in order. */
  function Results(world: World, events: seq<Event>): seq<Message> {
    if events == [] then []
    else Results(world, events[..|events| - 1]) + ResultOf(world, events[|events| - 1])
  }

  /** A prelude makes approved calls only, and appends their results and nothing else. */
  ghost predicate Preluded(world: World, start: seq<Message>, s: State) {
    && s.messages == start + Results(world, s.events)
    && (forall e :: e in s.events ==> e.Called? && e.preApproved)
  }

  lemma ResultAdded(world: World, start: seq<Message>, s: State, e: Event, s': State)
    requires Preluded(world, start, s) && e.Called? && e.preApproved
    requires s'.events == s.events + [e] && s'.messages == s.messages + ResultOf(world, e)
    ensures Preluded(world, start, s')
  {
    hide ResultOf;
    assert s'.events[..|s.events|] == s.events;
    Adjoin(start, Results(world, s.events), ResultOf(world, e));
  }

  lemma ApprovedCallTold(world: World, start: seq<Message>, s: State, call: ToolCall)
    requires Preluded(world, start, s)
    ensures world.tool(call).Some? ==>
      Preluded(world, start, Executed(s, call, true, [ResultMessage(call.id, world.tool(call).value)]))
    ensures Preluded(world, start, Logged(s, Called(call, true, false)))
  {
    hide Preluded;
    assert s.messages + [] == s.messages;
    ResultAdded(world, start, s, Called(call, true, false), Logged(s, Called(call, true, false)));
    if world.tool(call).Some? {
      ResultAdded(world, start, s, Called(call, true, true),
        Executed(s, call, true, [ResultMessage(call.id, world.tool(call).value)]));
    }
  }

  lemma {:induction false} ResumeBlocksTold(req: Request, world: World, routing: Routing, blocks: seq<Block>, start: seq<Message>, s: State)
    requires Preluded(world, start, s)
    ensures var step := ResumeBlocks(req, world, routing, blocks, s);
      Preluded(world, start, StateOf(step)) && (step.Halt? ==> step.leg.outcome.Failed?)
    decreases |blocks|
  {
    hide Preluded;
    if blocks != [] {
      var b := blocks[0];
      if b.ToolUse? && b.id in req.approvedToolCalls && b.name in routing {
        var call := ToolCall(b.id, b.name, b.input);
        ApprovedCallTold(world, start, s, call);
        match world.tool(call)
        case None =>
        case Some(text) =>
          ResumeBlocksTold(req, world, routing, blocks[1..], start, Executed(s, call, true, [ResultMessage(call.id, text)]));
      } else {
        ResumeBlocksTold(req, world, routing, blocks[1..], start, s);
      }
    }
  }

  lemma {:induction false} ResumeTold(req: Request, world: World, routing: Routing, stored: seq<Message>, start: seq<Message>, s: State)
    requires Preluded(world, start, s)
    ensures var step := Resume(req, world, routing, stored, s);
      Preluded(world, start, StateOf(step)) && (step.Halt? ==> step.leg.outcome.Failed?)
    decreases |stored|
  {
    hide Preluded;
    if stored != [] {
      var m := stored[0];
      if m.role.Assistant? && m.body.Blocks? {
        ResumeBlocksTold(req, world, routing, m.body.blocks, start, s);
        var step := ResumeBlocks(req, world, routing, m.body.blocks, s);
        if step.More? {
          ResumeTold(req, world, routing, stored[1..], start, step.state);
        }
      } else {
        ResumeTold(req, world, routing, stored[1..], start, s);
      }
    }
  }

  /** Approved calls put nothing on record besides their results, and are no turns. */
  lemma {:induction false} PreludeSaysNothing(req: Request, world: World, events: seq<Event>)
    requires forall e :: e in events ==> e.Called? && e.preApproved
    ensures Script(req, world, events) == [] && TallyOf(events).turns == 0
  {
    if events != [] {
      var front, e := events[..|events| - 1], events[|events| - 1];
      assert events == front + [e] && e in events;
      PreludeSaysNothing(req, world, front);
      ScriptOne(req, world, front, e);
      LogOne(front, e);
    }
  }

  /** Where the turn loop of a leg starts: after the prelude, if there are approved ids. */
  function Prelude(req: Request, world: World, routing: Routing): Step {
    var start := State(InitialMessages(req), ZERO, []);
    if req.approvedToolCalls == [] then More(start) else Resume(req, world, routing, start.messages, start)
  }

  lemma PreludeTold(req: Request, world: World, routing: Routing)
    ensures var step := Prelude(req, world, routing);
      Preluded(world, InitialMessages(req), StateOf(step)) && (step.Halt? ==> step.leg.outcome.Failed?)
  {
    hide Resume;
    var start := State(InitialMessages(req), ZERO, []);
    assert start.messages + [] == start.messages;
    ResumeTold(req, world, routing, start.messages, start.messages, start);
  }

  /**
   * The transcript of a leg says exactly what happened in it. First come the messages it started
   * with and the results of the approved calls the prelude made. Then, for each tool call that was
   * made and answered, the call immediately followed by its result; for each answer that was
   * neither a tool call nor an object, that answer and the request to correct it; the prompt to
   * conclude before the last turn; and at the end the call a suspended leg waits for.
   */
  lemma LegTold(req: Request, world: World, routing: Routing)
    requires Discover(req.servers, world) == Some(routing)
    ensures var (leg, step) := (RunLeg(req, world), Prelude(req, world, routing));
      && StateOf(step).messages == InitialMessages(req) + Results(world, StateOf(step).events)
      && (step.Halt? ==> leg == step.leg && leg.outcome.Failed?)
      && (step.More? ==>
            leg.state.messages == step.state.messages + Spoken(Script(req, world, leg.state.events)) + Waiting(leg.outcome))
  {
    hide Turns, Resume, Script, Spoken, Waiting;
    PreludeTold(req, world, routing);
    match Prelude(req, world, routing)
    case Halt(_) =>
    case More(s) =>
      TellFrom(req, world, s);
      TurnsTold(req, world, routing, s.messages, 1, s, Text(""));
  }

  /** The turn loop only adds to the calls made. */
  lemma {:induction false} EventsKept(req: Request, world: World, routing: Routing, turn: nat, s: State, lastInvalid: Body)
    ensures s.events <= Turns(req, world, routing, turn, s, lastInvalid).state.events
    decreases MaxTurns(req) + 1 - turn
  {
    hide OneTurn, FreeCorrection;
    if turn > MaxTurns(req) {
      AnswerKeepsEvents(req, world, map[], s, lastInvalid);
    } else {
      TurnKeepsEvents(req, world, routing, turn, s, lastInvalid);
      match OneTurn(req, world, routing, turn, s, lastInvalid) {
        case Done(_) =>
        case Next(s1, invalid) => EventsKept(req, world, routing, turn + 1, s1, invalid);
      }
    }
  }

  lemma AnswerKeepsEvents(req: Request, world: World, draft: Object, s: State, lastInvalid: Body)
    ensures s.events <= Reflect(req, world, draft, s).state.events
    ensures s.events <= FreeCorrection(world, s, lastInvalid).state.events
  {
  }

  lemma {:induction false} BatchKeepsEvents(world: World, routing: Routing, calls: seq<ToolCall>, s: State)
    ensures s.events <= StateOf(ToolBatch(world, routing, calls, s)).events
    decreases |calls|
  {
    if calls != [] && world.tool(calls[0]).Some? {
      BatchKeepsEvents(world, routing, calls[1..], Executed(s, calls[0], false, Exchange(calls[0], world.tool(calls[0]).value)));
    }
  }

  lemma TurnKeepsEvents(req: Request, world: World, routing: Routing, turn: nat, s: State, lastInvalid: Body)
    ensures s.events <= match OneTurn(req, world, routing, turn, s, lastInvalid)
      case Done(leg) => leg.state.events
      case Next(s1, _) => s1.events
  {
    hide ToolBatch, Reflect, Asks;
    var (reply, s1) := Ask(world, Turn, Prompted(req, turn, s));
    assert s.events <= s1.events;
    if reply.Some? && reply.value.toolCalls != [] {
      BatchKeepsEvents(world, routing, reply.value.toolCalls, s1);
    } else if reply.Some? && world.parse(reply.value.content).Some? {
      AnswerKeepsEvents(req, world, world.parse(reply.value.content).value, s1, lastInvalid);
    }
  }

  lemma TellFrom(req: Request, world: World, s: State)
    requires forall e :: e in s.events ==> e.Called? && e.preApproved
    ensures Told(req, world, s.messages, s) && TallyOf(s.events).turns == 0
  {
    PreludeSaysNothing(req, world, s.events);
    assert s.messages + [] == s.messages;
  }

  // ---- the last invalid answer ----

  /** A turn's answer that is neither a tool call nor an object. */
  predicate Invalid(world: World, e: Event) {
    e.Asked? && e.purpose == Turn && Unparsed(world, e.reply)
  }

  /** The last answer of a turn that was neither a tool call nor an object; the empty text if there was none. */
  function LastInvalid(world: World, events: seq<Event>): Body {
    if events == [] then Text("")
    else
      var e := events[|events| - 1];
      if Invalid(world, e) then e.reply.value.content else LastInvalid(world, events[..|events| - 1])
  }

  lemma LastOne(world: World, events: seq<Event>, e: Event)
    ensures LastInvalid(world, events + [e]) == if Invalid(world, e) then e.reply.value.content else LastInvalid(world, events)
  {
    assert (events + [e])[..|events|] == events;
  }

  lemma {:induction false} BatchKeepsLast(world: World, routing: Routing, calls: seq<ToolCall>, s: State)
    ensures LastInvalid(world, StateOf(ToolBatch(world, routing, calls, s)).events) == LastInvalid(world, s.events)
    decreases |calls|
  {
    hide LastInvalid;
    if calls != [] && calls[0].name in routing && !Gated(routing, calls[0].name) {
      var call := calls[0];
      BatchUnfolds(world, routing, calls, s);
      hide ToolBatch;
      LastOne(world, s.events, Called(call, false, false));
      if world.tool(call).Some? {
        LastOne(world, s.events, Called(call, false, true));
        BatchKeepsLast(world, routing, calls[1..], Executed(s, call, false, Exchange(call, world.tool(call).value)));
      }
    }
  }

  ghost predicate Remembered(world: World, lastInvalid: Body, p: Progress) {
    match p
    case Done(leg) => leg.outcome.Suspended? ==> LastInvalid(world, leg.state.events) == lastInvalid
    case Next(s1, invalid) => invalid == LastInvalid(world, s1.events)
  }

  /** The turn loop's memory is the last invalid answer of the leg. */
  lemma TurnRemembers(req: Request, world: World, routing: Routing, turn: nat, s: State, lastInvalid: Body)
    requires lastInvalid == LastInvalid(world, s.events)
    ensures Remembered(world, lastInvalid, OneTurn(req, world, routing, turn, s, lastInvalid))
  {
    hide LastInvalid, ToolBatch, Reflect;
    var p := Prompted(req, turn, s);
    var (reply, s1) := Ask(world, Turn, p);
    LastOne(world, s.events, Asked(Turn, reply));
    if reply.Some? && reply.value.toolCalls != [] {
      BatchKeepsLast(world, routing, reply.value.toolCalls, s1);
    } else if reply.Some? && world.parse(reply.value.content).Some? {
      AnswerKeepsMessages(req, world, world.parse(reply.value.content).value, s1, lastInvalid);
    }
  }

  // ---- the resume prelude on a checkpoint ----

  /** No assistant block of the transcript carries this tool-use id. */
  ghost predicate Unused(messages: seq<Message>, id: string) {
    forall m :: m in messages && m.role.Assistant? && m.body.Blocks? ==>
      forall b :: b in m.body.blocks && b.ToolUse? ==> b.id != id
  }

  lemma {:induction false} SkipBlocks(req: Request, world: World, routing: Routing, blocks: seq<Block>, s: State)
    requires forall b :: b in blocks && b.ToolUse? ==> b.id !in req.approvedToolCalls
    ensures ResumeBlocks(req, world, routing, blocks, s) == More(s)
  {
    if blocks != [] {
      SkipBlocks(req, world, routing, blocks[1..], s);
    }
  }

  /** One approved call on a checkpoint: exactly the call that waited is made, once. */
  function ResumeOne(world: World, routing: Routing, call: ToolCall, s: State): Step {
    if call.name !in routing then Fail(s, "tool_not_permitted")
    else
      match world.tool(call)
      case None => Fail(Logged(s, Called(call, true, false)), "tool call")
      case Some(text) => More(Executed(s, call, true, [ResultMessage(call.id, text)]))
  }

  lemma {:induction false} ResumeExactly(req: Request, world: World, routing: Routing, front: seq<Message>, call: ToolCall, s: State)
    requires req.approvedToolCalls == [call.id] && Unused(front, call.id)
    ensures Resume(req, world, routing, front + [UseMessage(call)], s) == ResumeOne(world, routing, call, s)
    decreases |front|
  {
    var stored := front + [UseMessage(call)];
    if front == [] {
      assert stored == [UseMessage(call)] && stored[1..] == [];
      var blocks := stored[0].body.blocks;
      assert blocks == [ToolUse(call.id, call.name, call.input)] && blocks[1..] == [];
      assert call.id in req.approvedToolCalls;
      assert ResumeBlocks(req, world, routing, blocks, s) == ResumeOne(world, routing, call, s);
    } else {
      assert stored[0] == front[0] && stored[1..] == front[1..] + [UseMessage(call)];
      if front[0].role.Assistant? && front[0].body.Blocks? {
        SkipBlocks(req, world, routing, front[0].body.blocks, s);
      }
      ResumeExactly(req, world, routing, front[1..], call, s);
    }
  }

  /** How many tool uses with this id are stored. */
  function BlockUses(blocks: seq<Block>, id: string): nat {
    if blocks == [] then 0 else (if blocks[0].ToolUse? && blocks[0].id == id then 1 else 0) + BlockUses(blocks[1..], id)
  }

  function Uses(messages: seq<Message>, id: string): nat {
    if messages == [] then 0
    else (if messages[0].role.Assistant? && messages[0].body.Blocks? then BlockUses(messages[0].body.blocks, id) else 0) +
         Uses(messages[1..], id)
  }

  lemma {:induction false} BlocksUnused(blocks: seq<Block>, id: string)
    ensures BlockUses(blocks, id) == 0 <==> forall b :: b in blocks && b.ToolUse? ==> b.id != id
  {
    if blocks != [] {
      BlocksUnused(blocks[1..], id);
      assert forall b :: b in blocks <==> b == blocks[0] || b in blocks[1..];
    }
  }

  lemma {:induction false} UnusedIsNone(messages: seq<Message>, id: string)
    ensures Uses(messages, id) == 0 <==> Unused(messages, id)
  {
    if messages != [] {
      UnusedIsNone(messages[1..], id);
      assert forall m :: m in messages <==> m == messages[0] || m in messages[1..];
      if messages[0].body.Blocks? {
        BlocksUnused(messages[0].body.blocks, id);
      }
    }
  }

  lemma {:induction false} UsesConcat(a: seq<Message>, b: seq<Message>, id: string)
    ensures Uses(a + b, id) == Uses(a, id) + Uses(b, id)
  {
    if a == [] {
      assert a + b == b;
    } else {
      assert (a + b)[1..] == a[1..] + b;
      UsesConcat(a[1..], b, id);
    }
  }

  lemma {:induction false} ResumeBlocksCount(req: Request, world: World, routing: Routing, blocks: seq<Block>, s: State, id: string)
    requires req.approvedToolCalls == [id] && ResumeBlocks(req, world, routing, blocks, s).More?
    ensures |ResumeBlocks(req, world, routing, blocks, s).state.events| == |s.events| + BlockUses(blocks, id)
    decreases |blocks|
  {
    if blocks != [] {
      var b := blocks[0];
      if b.ToolUse? && b.id == id {
        var call := ToolCall(b.id, b.name, b.input);
        ResumeBlocksCount(req, world, routing, blocks[1..],
          Executed(s, call, true, [ResultMessage(call.id, world.tool(call).value)]), id);
      } else {
        ResumeBlocksCount(req, world, routing, blocks[1..], s, id);
      }
    }
  }

  lemma {:induction false} ResumeCount(req: Request, world: World, routing: Routing, stored: seq<Message>, s: State, id: string)
    requires req.approvedToolCalls == [id] && Resume(req, world, routing, stored, s).More?
    ensures |Resume(req, world, routing, stored, s).state.events| == |s.events| + Uses(stored, id)
    decreases |stored|
  {
    if stored != [] {
      if stored[0].role.Assistant? && stored[0].body.Blocks? {
        ResumeBlocksCount(req, world, routing, stored[0].body.blocks, s, id);
        ResumeCount(req, world, routing, stored[1..], ResumeBlocks(req, world, routing, stored[0].body.blocks, s).state, id);
      } else {
        ResumeCount(req, world, routing, stored[1..], s, id);
      }
    }
  }

  /** A prelude that runs through makes the waiting call and no other exactly when its id is used only once. */
  lemma MadeOnceExactly(req: Request, world: World, routing: Routing, front: seq<Message>, call: ToolCall, s: State)
    requires req.approvedToolCalls == [call.id] && Resume(req, world, routing, front + [UseMessage(call)], s).More?
    ensures Resume(req, world, routing, front + [UseMessage(call)], s).state.events == s.events + [Called(call, true, true)]
      <==> Unused(front, call.id)
  {
    hide Resume, Unused;
    if Unused(front, call.id) {
      ResumeExactly(req, world, routing, front, call, s);
    } else {
      ResumeCount(req, world, routing, front + [UseMessage(call)], s, call.id);
      UsesConcat(front, [UseMessage(call)], call.id);
      UnusedIsNone(front, call.id);
      WaitingUse(call);
    }
  }

  lemma WaitingUse(call: ToolCall)
    ensures Uses([UseMessage(call)], call.id) == 1
  {
    var m := UseMessage(call);
    assert m.body.blocks == [ToolUse(call.id, call.name, call.input)] && m.body.blocks[1..] == [];
    assert BlockUses(m.body.blocks, call.id) == 1 + BlockUses([], call.id);
    assert [m][0] == m && [m][1..] == [];
  }

  // ---- approve and resume is transparent ----

  /** `free` offers the same tools as `routing`, asks no more often for approval, and not for `name`. */
  ghost predicate Lifted(routing: Routing, free: Routing, name: string) {
    && free.Keys == routing.Keys
    && (forall n :: n in routing && !Gated(routing, n) ==> !Gated(free, n))
    && !Gated(free, name)
  }

  /** A batch that runs through does so just the same with fewer rules. */
  lemma {:induction false} BatchAgrees(world: World, cut: World, routing: Routing, free: Routing, name: string, calls: seq<ToolCall>, s: State)
    requires Lifted(routing, free, name) && cut.tool == world.tool
    requires ToolBatch(world, routing, calls, s).More?
    ensures ToolBatch(cut, free, calls, s) == ToolBatch(world, routing, calls, s)
    decreases |calls|
  {
    if calls != [] {
      var call := calls[0];
      assert call.name in routing && !Gated(routing, call.name) && world.tool(call).Some?;
      BatchAgrees(world, cut, routing, free, name, calls[1..], Executed(s, call, false, Exchange(call, world.tool(call).value)));
    }
  }

  /** Position of the call a suspended batch stopped at. */
  lemma {:induction false} BatchStop(world: World, routing: Routing, calls: seq<ToolCall>, s: State) returns (i: nat)
    requires ToolBatch(world, routing, calls, s).Halt? && ToolBatch(world, routing, calls, s).leg.outcome.Suspended?
    ensures i < |calls| && calls[i] == ToolBatch(world, routing, calls, s).leg.outcome.pending.call
    ensures Gated(routing, calls[i].name)
    ensures forall j :: 0 <= j < i ==> calls[j].name in routing && !Gated(routing, calls[j].name) && world.tool(calls[j]).Some?
    decreases |calls|
  {
    var call := calls[0];
    if Gated(routing, call.name) {
      i := 0;
    } else {
      var j := BatchStop(world, routing, calls[1..], Executed(s, call, false, Exchange(call, world.tool(call).value)));
      i := j + 1;
    }
  }

  lemma LiftOne(world: World, cut: World, routing: Routing, free: Routing, calls: seq<ToolCall>, s: State, t: State, text: string)
    requires calls != [] && Gated(routing, calls[0].name)
    requires Lifted(routing, free, calls[0].name) && cut.tool == world.tool && world.tool(calls[0]) == Some(text)
    requires t.messages == s.messages && t.metrics == s.metrics
    ensures ToolBatch(world, routing, calls, s).Halt?
    ensures Resumed(ToolBatch(world, routing, calls, s).leg, text, ToolBatch(cut, free, [calls[0]], t))
  {
    var call := calls[0];
    var t2 := Executed(t, call, false, Exchange(call, text));
    assert [call][1..] == [];
    assert ToolBatch(cut, free, [call], t) == ToolBatch(cut, free, [], t2) == More(t2);
    assert t2.messages == (s.messages + [UseMessage(call)]) + [ResultMessage(call.id, text)];
  }

  /** Without the rule, the batch up to the waiting call runs through and adds that call's result. */
  lemma {:induction false} BatchLiftedFrom(world: World, cut: World, routing: Routing, free: Routing, calls: seq<ToolCall>, s: State, t: State, i: nat, text: string)
    requires i < |calls| && Gated(routing, calls[i].name)
    requires forall j :: 0 <= j < i ==> calls[j].name in routing && !Gated(routing, calls[j].name) && world.tool(calls[j]).Some?
    requires Lifted(routing, free, calls[i].name) && cut.tool == world.tool && world.tool(calls[i]) == Some(text)
    requires t.messages == s.messages && t.metrics == s.metrics
    ensures ToolBatch(world, routing, calls, s).Halt?
    ensures Resumed(ToolBatch(world, routing, calls, s).leg, text, ToolBatch(cut, free, calls[..i + 1], t))
    decreases |calls|
  {
    hide Resumed;
    var call := calls[0];
    assert calls[..i + 1][0] == call;
    if i == 0 {
      assert calls[..1] == [call];
      LiftOne(world, cut, routing, free, calls, s, t, text);
    } else {
      assert calls[..i + 1][1..] == calls[1..][..i];
      assert calls[1..][i - 1] == calls[i];
      assert call.name in free && !Gated(free, call.name);
      BatchUnfolds(world, routing, calls, s);
      BatchUnfolds(cut, free, calls[..i + 1], t);
      hide ToolBatch, Gated, FindRule, Lifted;
      var pair := Exchange(call, world.tool(call).value);
      BatchLiftedFrom(world, cut, routing, free, calls[1..], Executed(s, call, false, pair), Executed(t, call, false, pair), i - 1, text);
    }
  }

  /** The state `step` arrives at is the suspended one with the call's result added. */
  ghost predicate Resumed(leg: Leg, text: string, step: Step) {
    && leg.outcome.Suspended?
    && step.More?
    && step.state.messages == leg.state.messages + [ResultMessage(leg.outcome.pending.call.id, text)]
    && step.state.metrics == CountToolCall(leg.state.metrics)
  }

  /** `r` as far as tool call `i`. */
  function Cut(r: Response, i: nat): Response
    requires i < |r.toolCalls|
  {
    r.(toolCalls := r.toolCalls[..i + 1])
  }

  /** `cut` answers like `world`, except that reply `n` asks for nothing after its tool call `i`. */
  ghost predicate CutAfter(world: World, cut: World, n: nat, i: nat, call: ToolCall) {
    && cut.tool == world.tool && cut.parse == world.parse
    && (forall k :: k != n ==> cut.gateway(k) == world.gateway(k))
    && world.gateway(n).Some? && i < |world.gateway(n).value.toolCalls|
    && world.gateway(n).value.toolCalls[i] == call
    && cut.gateway(n) == Some(Cut(world.gateway(n).value, i))
  }

  function CutWorld(world: World, n: nat, i: nat): World
    requires world.gateway(n).Some? && i < |world.gateway(n).value.toolCalls|
  {
    world.(gateway := (k: nat) => if k == n then Some(Cut(world.gateway(n).value, i)) else world.gateway(k))
  }

  /** The turn after which the uncut loop goes on where the resumed leg starts its turn loop. */
  datatype Continuation = Continuation(cut: World, n: nat, i: nat, turn: nat, state: State, lastInvalid: Body)

  ghost predicate Continues(req: Request, world: World, free: Routing, turn: nat, s: State, lastInvalid: Body, leg: Leg, text: string, c: Continuation) {
    && leg.outcome.Suspended?
    && CutAfter(world, c.cut, c.n, c.i, leg.outcome.pending.call)
    && Asks(s.events) <= c.n && turn < c.turn <= MaxTurns(req) + 1
    && c.state.messages == leg.state.messages + [ResultMessage(leg.outcome.pending.call.id, text)]
    && c.state.metrics == CountToolCall(leg.state.metrics)
    && SameRest(req, c.cut, free, turn, s, lastInvalid, c.turn, c.state, c.lastInvalid)
  }

  /** The loop started at one turn is the loop started at a later one. */
  ghost predicate SameRest(req: Request, world: World, routing: Routing, turn: nat, s: State, lastInvalid: Body, turn1: nat, s1: State, invalid: Body) {
    Turns(req, world, routing, turn, s, lastInvalid) == Turns(req, world, routing, turn1, s1, invalid)
  }

  lemma AskCounts(world: World, purpose: Purpose, s: State)
    ensures Asks(Ask(world, purpose, s).1.events) == Asks(s.events) + 1
  {
    var e := Asked(purpose, world.gateway(Asks(s.events)));
    assert (s.events + [e])[..|s.events|] == s.events;
  }

  lemma {:induction false} BatchAsksNothing(world: World, routing: Routing, calls: seq<ToolCall>, s: State)
    ensures match ToolBatch(world, routing, calls, s)
      case More(s1) => Asks(s1.events) == Asks(s.events)
      case Halt(_) => true
    decreases |calls|
  {
    if calls != [] {
      var call := calls[0];
      if call.name in routing && !Gated(routing, call.name) && world.tool(call).Some? {
        var e := Called(call, false, true);
        assert (s.events + [e])[..|s.events|] == s.events;
        BatchAsksNothing(world, routing, calls[1..], Executed(s, call, false, Exchange(call, world.tool(call).value)));
      }
    }
  }

  /** A turn suspends only inside its tool batch. */
  lemma SuspendsInBatch(req: Request, world: World, routing: Routing, turn: nat, s: State, lastInvalid: Body)
    requires OneTurn(req, world, routing, turn, s, lastInvalid).Done?
    requires OneTurn(req, world, routing, turn, s, lastInvalid).leg.outcome.Suspended?
    ensures var (reply, s1) := Ask(world, Turn, Prompted(req, turn, s));
      && reply.Some? && reply == world.gateway(Asks(s.events))
      && ToolBatch(world, routing, reply.value.toolCalls, s1) == Halt(OneTurn(req, world, routing, turn, s, lastInvalid).leg)
  {
    var (reply, s1) := Ask(world, Turn, Prompted(req, turn, s));
    if reply.Some? && reply.value.toolCalls == [] && world.parse(reply.value.content).Some? {
      AnswerKeepsMessages(req, world, world.parse(reply.value.content).value, s1, lastInvalid);
    }
  }

  lemma CutFits(world: World, n: nat, i: nat)
    requires world.gateway(n).Some? && i < |world.gateway(n).value.toolCalls|
    ensures CutAfter(world, CutWorld(world, n, i), n, i, world.gateway(n).value.toolCalls[i])
  {
  }

  /** Cutting a reply's batch leaves its tokens and cost alone: only the log differs. */
  lemma CutAsk(world: World, cut: World, n: nat, i: nat, call: ToolCall, p: State)
    requires CutAfter(world, cut, n, i, call) && n == Asks(p.events)
    ensures var ((reply, s1), (cutReply, t1)) := (Ask(world, Turn, p), Ask(cut, Turn, p));
      && reply.Some? && cutReply == Some(Cut(reply.value, i))
      && t1.messages == s1.messages && t1.metrics == s1.metrics
  {
  }

  lemma TurnUnfolds(req: Request, world: World, routing: Routing, turn: nat, s: State, lastInvalid: Body, s1: State, invalid: Body)
    requires turn <= MaxTurns(req) && OneTurn(req, world, routing, turn, s, lastInvalid) == Next(s1, invalid)
    ensures Turns(req, world, routing, turn, s, lastInvalid) == Turns(req, world, routing, turn + 1, s1, invalid)
  {
  }

  lemma CutTurn(req: Request, cut: World, free: Routing, turn: nat, s: State, lastInvalid: Body, calls: seq<ToolCall>, after: State)
    requires Ask(cut, Turn, Prompted(req, turn, s)).0.Some? && calls != []
    requires Ask(cut, Turn, Prompted(req, turn, s)).0.value.toolCalls == calls
    requires ToolBatch(cut, free, calls, Ask(cut, Turn, Prompted(req, turn, s)).1) == More(after)
    requires turn <= MaxTurns(req)
    ensures SameRest(req, cut, free, turn, s, lastInvalid, turn + 1, after, lastInvalid)
  {
    assert OneTurn(req, cut, free, turn, s, lastInvalid) == Next(after, lastInvalid);
    TurnUnfolds(req, cut, free, turn, s, lastInvalid, after, lastInvalid);
  }

  /** The same turn with the batch cut after the waiting call and the rule lifted. */
  lemma LiftBatch(world: World, routing: Routing, free: Routing, p: State, s1: State, calls: seq<ToolCall>, leg: Leg, text: string)
    returns (i: nat, cut: World, after: State)
    requires Ask(world, Turn, p) == (world.gateway(Asks(p.events)), s1)
    requires world.gateway(Asks(p.events)).Some? && calls == world.gateway(Asks(p.events)).value.toolCalls
    requires ToolBatch(world, routing, calls, s1) == Halt(leg) && leg.outcome.Suspended?
    requires Lifted(routing, free, leg.outcome.pending.call.name) && world.tool(leg.outcome.pending.call) == Some(text)
    ensures CutAfter(world, cut, Asks(p.events), i, leg.outcome.pending.call)
    ensures i < |calls| && ToolBatch(cut, free, calls[..i + 1], Ask(cut, Turn, p).1) == More(after)
    ensures Resumed(leg, text, More(after))
  {
    i := BatchStop(world, routing, calls, s1);
    cut := CutWorld(world, Asks(p.events), i);
    CutFits(world, Asks(p.events), i);
    CutAsk(world, cut, Asks(p.events), i, calls[i], p);
    var t1 := Ask(cut, Turn, p).1;
    BatchLiftedFrom(world, cut, routing, free, calls, s1, t1, i, text);
    after := ToolBatch(cut, free, calls[..i + 1], t1).state;
  }

  /** The turn in which the leg suspends, from what `LiftBatch` found for it. */
  lemma LastTurnLifted(req: Request, world: World, free: Routing, turn: nat, s: State, lastInvalid: Body, leg: Leg, text: string,
                       i: nat, cut: World, after: State)
    requires 1 <= turn <= MaxTurns(req) && leg.outcome.Suspended?
    requires CutAfter(world, cut, Asks(s.events), i, leg.outcome.pending.call)
    requires ToolBatch(cut, free, world.gateway(Asks(s.events)).value.toolCalls[..i + 1], Ask(cut, Turn, Prompted(req, turn, s)).1) == More(after)
    requires Resumed(leg, text, More(after))
    ensures Continues(req, world, free, turn, s, lastInvalid, leg, text, Continuation(cut, Asks(s.events), i, turn + 1, after, lastInvalid))
  {
    CutTurn(req, cut, free, turn, s, lastInvalid, world.gateway(Asks(s.events)).value.toolCalls[..i + 1], after);
  }

  lemma NextAsksMore(req: Request, world: World, routing: Routing, turn: nat, s: State, lastInvalid: Body)
    requires OneTurn(req, world, routing, turn, s, lastInvalid).Next?
    ensures Asks(OneTurn(req, world, routing, turn, s, lastInvalid).state.events) == Asks(s.events) + 1
  {
    var p := Prompted(req, turn, s);
    AskCounts(world, Turn, p);
    var (reply, s1) := Ask(world, Turn, p);
    if reply.value.toolCalls != [] {
      BatchAsksNothing(world, routing, reply.value.toolCalls, s1);
    }
  }

  /** A turn before the one that suspends is the same with the rule lifted and a later reply cut. */
  lemma EarlierTurnAgrees(req: Request, world: World, cut: World, routing: Routing, free: Routing, turn: nat, s: State, lastInvalid: Body, name: string)
    requires Lifted(routing, free, name)
    requires cut.tool == world.tool && cut.parse == world.parse && cut.gateway(Asks(s.events)) == world.gateway(Asks(s.events))
    requires OneTurn(req, world, routing, turn, s, lastInvalid).Next?
    ensures OneTurn(req, cut, free, turn, s, lastInvalid) == OneTurn(req, world, routing, turn, s, lastInvalid)
  {
    var p := Prompted(req, turn, s);
    var (reply, s1) := Ask(world, Turn, p);
    assert Ask(cut, Turn, p) == (reply, s1);
    if reply.value.toolCalls != [] {
      BatchAgrees(world, cut, routing, free, name, reply.value.toolCalls, s1);
    }
  }

  lemma SuspendingTurnLifted(req: Request, world: World, routing: Routing, free: Routing, turn: nat, s: State, lastInvalid: Body, leg: Leg, text: string)
    returns (c: Continuation)
    requires 1 <= turn <= MaxTurns(req)
    requires OneTurn(req, world, routing, turn, s, lastInvalid) == Done(leg) && leg.outcome.Suspended?
    requires Lifted(routing, free, leg.outcome.pending.call.name) && world.tool(leg.outcome.pending.call) == Some(text)
    ensures Continues(req, world, free, turn, s, lastInvalid, leg, text, c) && c.lastInvalid == lastInvalid
  {
    SuspendsInBatch(req, world, routing, turn, s, lastInvalid);
    var p, n := Prompted(req, turn, s), Asks(s.events);
    var i, cut, after := LiftBatch(world, routing, free, p, Ask(world, Turn, p).1, world.gateway(n).value.toolCalls, leg, text);
    LastTurnLifted(req, world, free, turn, s, lastInvalid, leg, text, i, cut, after);
    c := Continuation(cut, n, i, turn + 1, after, lastInvalid);
  }

  /** What holds from the next turn on holds from this one. */
  lemma ContinuesEarlier(req: Request, world: World, routing: Routing, free: Routing, turn: nat, s: State, lastInvalid: Body,
                         s1: State, invalid: Body, leg: Leg, text: string, c: Continuation)
    requires turn <= MaxTurns(req) && OneTurn(req, world, routing, turn, s, lastInvalid) == Next(s1, invalid)
    requires leg.outcome.Suspended? && Lifted(routing, free, leg.outcome.pending.call.name)
    requires Continues(req, world, free, turn + 1, s1, invalid, leg, text, c)
    ensures Continues(req, world, free, turn, s, lastInvalid, leg, text, c)
  {
    hide OneTurn, Lifted;
    NextAsksMore(req, world, routing, turn, s, lastInvalid);
    EarlierTurnAgrees(req, world, c.cut, routing, free, turn, s, lastInvalid, leg.outcome.pending.call.name);
    TurnUnfolds(req, c.cut, free, turn, s, lastInvalid, s1, invalid);
  }

  lemma {:induction false} TurnsLifted(req: Request, world: World, routing: Routing, free: Routing, turn: nat, s: State, lastInvalid: Body, leg: Leg, text: string)
    returns (c: Continuation)
    requires 1 <= turn
    requires Turns(req, world, routing, turn, s, lastInvalid) == leg && leg.outcome.Suspended?
    requires Lifted(routing, free, leg.outcome.pending.call.name) && world.tool(leg.outcome.pending.call) == Some(text)
    requires lastInvalid == LastInvalid(world, s.events)
    ensures Continues(req, world, free, turn, s, lastInvalid, leg, text, c)
    ensures c.lastInvalid == LastInvalid(world, leg.state.events)
    decreases MaxTurns(req) + 1 - turn
  {
    hide OneTurn, FreeCorrection, Continues, Lifted, LastInvalid;
    if turn > MaxTurns(req) {
      AnswerKeepsMessages(req, world, map[], s, lastInvalid);
      assert false;
    }
    TurnRemembers(req, world, routing, turn, s, lastInvalid);
    match OneTurn(req, world, routing, turn, s, lastInvalid) {
      case Done(_) =>
        c := SuspendingTurnLifted(req, world, routing, free, turn, s, lastInvalid, leg, text);
      case Next(s1, invalid) =>
        c := TurnsLifted(req, world, routing, free, turn + 1, s1, invalid, leg, text);
        ContinuesEarlier(req, world, routing, free, turn, s, lastInvalid, s1, invalid, leg, text, c);
    }
  }

  /** The request a decision to approve sends back to the runtime. */
  function ApprovedRequest(req: Request, messages: seq<Message>, id: string): Request {
    req.(messages := messages, approvedToolCalls := [id], isResume := true)
  }

  /** Where the resumed leg starts its turn loop. */
  function ResumedState(leg: Leg, text: string): State
    requires leg.outcome.Suspended?
  {
    State(leg.state.messages + [ResultMessage(leg.outcome.pending.call.id, text)], CountToolCall(ZERO),
          [Called(leg.outcome.pending.call, true, true)])
  }

  lemma FirstLegTurns(req: Request, world: World, routing: Routing)
    requires req.approvedToolCalls == [] && Discover(req.servers, world) == Some(routing)
    ensures RunLeg(req, world) == Turns(req, world, routing, 1, State(InitialMessages(req), ZERO, []), Text(""))
  {
  }

  /** The resumed leg makes the approved call, once, and enters its turn loop with the result. */
  lemma ResumedLegTurns(resumed: Request, again: World, routing: Routing, leg: Leg, text: string)
    requires leg.outcome.Suspended? && leg.state.messages != []
    requires leg.state.messages[|leg.state.messages| - 1] == UseMessage(leg.outcome.pending.call)
    requires Unused(leg.state.messages[..|leg.state.messages| - 1], leg.outcome.pending.call.id)
    requires resumed.messages == leg.state.messages && resumed.approvedToolCalls == [leg.outcome.pending.call.id]
    requires Discover(resumed.servers, again) == Some(routing)
    requires leg.outcome.pending.call.name in routing && again.tool(leg.outcome.pending.call) == Some(text)
    ensures RunLeg(resumed, again) == Turns(resumed, again, routing, 1, ResumedState(leg, text), Text(""))
  {
    var messages, call := leg.state.messages, leg.outcome.pending.call;
    assert messages == messages[..|messages| - 1] + [UseMessage(call)];
    var start := State(messages, ZERO, []);
    ResumeExactly(resumed, again, routing, messages[..|messages| - 1], call, start);
    assert [] + [Called(call, true, true)] == [Called(call, true, true)];
    assert Resume(resumed, again, routing, messages, start) == More(ResumedState(leg, text));
  }

  /** The counters of the two legs add up to those of the state the loop goes on from. */
  lemma CountersAddUp(req: Request, world: World, free: Routing, turn: nat, s: State, lastInvalid: Body, leg: Leg, text: string, c: Continuation)
    requires Continues(req, world, free, turn, s, lastInvalid, leg, text, c)
    ensures ResumedState(leg, text).messages == c.state.messages
    ensures leg.state.metrics.Plus(ResumedState(leg, text).metrics) == c.state.metrics
  {
    hide SameRest, CutAfter, Asks;
  }

  /**
   * Approving a suspended call and resuming is transparent. Take the loop with the rule lifted
   * and the one batch cut after the waiting call: after some turn it is in a state `c.state`, and
   * the resumed leg starts its turn loop with the same messages, the counters of the two legs
   * adding up to the counters of that state. What starts again is the turn counter and the memory
   * of invalid answers: the loop would go on with the last invalid answer of the suspended leg,
   * the resumed leg starts without one.
   */
  lemma ApproveAndResume(req: Request, world: World, again: World, routing: Routing, free: Routing, leg: Leg, text: string)
    returns (c: Continuation)
    requires req.approvedToolCalls == [] && leg == RunLeg(req, world) && leg.outcome.Suspended?
    requires Discover(req.servers, world) == Some(routing) && Lifted(routing, free, leg.outcome.pending.call.name)
    requires Discover(req.servers, again) == Some(routing)
    requires world.tool(leg.outcome.pending.call) == again.tool(leg.outcome.pending.call) == Some(text)
    requires leg.state.messages != [] && Unused(leg.state.messages[..|leg.state.messages| - 1], leg.outcome.pending.call.id)
    ensures Continues(req, world, free, 1, State(InitialMessages(req), ZERO, []), Text(""), leg, text, c)
    ensures RunLeg(ApprovedRequest(req, leg.state.messages, leg.outcome.pending.call.id), again) ==
      Turns(ApprovedRequest(req, leg.state.messages, leg.outcome.pending.call.id), again, routing, 1, ResumedState(leg, text), Text(""))
    ensures ResumedState(leg, text).messages == c.state.messages
    ensures leg.state.metrics.Plus(ResumedState(leg, text).metrics) == c.state.metrics
    ensures c.lastInvalid == LastInvalid(world, leg.state.events)
  {
    hide RunLeg, Turns, Continues, Unused, ResumedState, Lifted;
    var start := State(InitialMessages(req), ZERO, []);
    FirstLegTurns(req, world, routing);
    c := TurnsLifted(req, world, routing, free, 1, start, Text(""), leg, text);
    CountersAddUp(req, world, free, 1, start, Text(""), leg, text, c);
    ApprovalGate(req, world, routing);
    ResumedLegTurns(ApprovedRequest(req, leg.state.messages, leg.outcome.pending.call.id), again, routing, leg, text);
  }
}
