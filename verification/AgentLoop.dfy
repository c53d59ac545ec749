/** The agent reasoning loop of internal/runtime/agent/loop.go. */
module AgentLoop {
  import opened Wrappers
  import opened Values
  import opened Metrics

  // ---- messages ----

  datatype Role = System | User | Assistant

  datatype Block =
    | ToolUse(id: string, name: string, input: string)
    | ToolResult(id: string, text: string)
    | OtherBlock

  /** A message content: either it parses as a JSON list of blocks, or it is other text. */
  datatype Body = Text(text: string) | Blocks(blocks: seq<Block>)

  datatype Message = Message(role: Role, body: Body)

  const FORCED_CONCLUSION := Message(User, Text("You have reached the maximum number of tool calls. Provide your final answer now without requesting any additional tools."))
  const JSON_CORRECTION := Message(User, Text("Your response was not valid JSON. Please respond with only a valid JSON object and nothing else."))

  // ---- what is asked for ----

  datatype Rule = Rule(pattern: string, onReject: string, timeoutMS: int, timeoutBehavior: string)

  datatype Server = Server(name: string, rules: seq<Rule>)

  datatype Request = Request(
    system: string,
    userMessage: string,
    reflect: string,
    confidenceDeclared: bool,
    confidenceThreshold: real,
    maxTurns: int,
    servers: seq<Server>,
    messages: seq<Message>,
    approvedToolCalls: seq<string>,
    isResume: bool)

  datatype ToolCall = ToolCall(id: string, name: string, input: string)

  datatype Response = Response(content: Body, toolCalls: seq<ToolCall>, usage: Usage)

  /**
   * Everything outside the loop that answers during one leg: the tools each server offers, the
   * reply to each gateway call in turn, the result of each tool call, and the JSON parser.
   * None stands for an error.
   */
  datatype World = World(
    discovery: nat -> Option<seq<string>>,
    gateway: nat -> Option<Response>,
    tool: ToolCall -> Option<string>,
    parse: Body -> Option<Object>)

  // ---- what comes out ----

  datatype Purpose = Turn | Reflection | Correction

  /** The calls the loop makes to the outside, in order. */
  datatype Event =
    | Asked(purpose: Purpose, reply: Option<Response>)
    | Called(call: ToolCall, preApproved: bool, ok: bool)

  datatype Pending = Pending(call: ToolCall, onReject: string, timeoutMS: int, timeoutBehavior: string)

  datatype Outcome =
    | Finished(output: Object)
    | Suspended(pending: Pending)
    | Failed(error: string)

  datatype State = State(messages: seq<Message>, metrics: Metrics, events: seq<Event>)

  datatype Leg = Leg(outcome: Outcome, state: State)

  /** Either the loop goes on, or it has returned. */
  datatype Step = More(state: State) | Halt(leg: Leg)

  // ---- tool routing and approval rules ----

  predicate MatchesPattern(toolName: string, pattern: string) {
    pattern == "*" ||
    (if |pattern| > 0 && pattern[|pattern| - 1] == '*' then pattern[..|pattern| - 1] <= toolName
     else toolName == pattern)
  }

  /** The first rule whose pattern matches. */
  function FindRule(toolName: string, rules: seq<Rule>): (rule: Option<Rule>)
    ensures rule.None? <==> forall r :: r in rules ==> !MatchesPattern(toolName, r.pattern)
    ensures rule.Some? ==> rule.value in rules && MatchesPattern(toolName, rule.value.pattern)
  {
    if rules == [] then None
    else if MatchesPattern(toolName, rules[0].pattern) then Some(rules[0])
    else FindRule(toolName, rules[1..])
  }

  lemma {:induction false} FindRuleFirst(toolName: string, rules: seq<Rule>, i: nat)
    requires i < |rules| && MatchesPattern(toolName, rules[i].pattern)
    requires forall j :: 0 <= j < i ==> !MatchesPattern(toolName, rules[j].pattern)
    ensures FindRule(toolName, rules) == Some(rules[i])
  {
    if i > 0 {
      FindRuleFirst(toolName, rules[1..], i - 1);
    }
  }

  type Routing = map<string, Server>

  /** Adds the tools of one server; a name offered twice is routed to the later server. */
  function AddTools(routing: Routing, server: Server, tools: seq<string>): Routing {
    routing + map t | t in tools :: server
  }

  function Discover(servers: seq<Server>, world: World): Option<Routing> {
    if servers == [] then Some(map[])
    else
      var n := |servers| - 1;
      match (Discover(servers[..n], world), world.discovery(n))
      case (Some(routing), Some(tools)) => Some(AddTools(routing, servers[n], tools))
      case _ => None
  }

  predicate Gated(routing: Routing, name: string) {
    name in routing && FindRule(name, routing[name].rules).Some?
  }

  // ---- the phases of a leg ----

  function MaxTurns(req: Request): nat {
    if req.maxTurns <= 0 then 10 else req.maxTurns
  }

  function InitialMessages(req: Request): seq<Message> {
    if req.messages != [] then req.messages
    else [Message(System, Text(req.system)), Message(User, Text(req.userMessage))]
  }

  function UseMessage(call: ToolCall): Message {
    Message(Assistant, Blocks([ToolUse(call.id, call.name, call.input)]))
  }

  function ResultMessage(id: string, text: string): Message {
    Message(User, Blocks([ToolResult(id, text)]))
  }

  function CountToolCall(m: Metrics): Metrics {
    m.(counts := m.counts.(toolCalls := m.counts.toolCalls + 1))
  }

  function AddResponse(m: Metrics, r: Response): Metrics {
    m.Plus(Metrics(r.usage, Counts(1, 0, 0)))
  }

  function Logged(s: State, e: Event): State {
    s.(events := s.events + [e])
  }

  function Fail(s: State, error: string): Step {
    Halt(Leg(Failed(error), s))
  }

  /** A tool call that succeeded: logged, counted, its messages appended. */
  function Executed(s: State, call: ToolCall, preApproved: bool, added: seq<Message>): State {
    State(s.messages + added, CountToolCall(s.metrics), s.events + [Called(call, preApproved, true)])
  }

  function Exchange(call: ToolCall, text: string): seq<Message> {
    [UseMessage(call), ResultMessage(call.id, text)]
  }

  /** Runs the blocks of one stored assistant message that carry an approved id. */
  function ResumeBlocks(req: Request, world: World, routing: Routing, blocks: seq<Block>, s: State): Step {
    if blocks == [] then More(s)
    else if !(blocks[0].ToolUse? && blocks[0].id in req.approvedToolCalls) then
      ResumeBlocks(req, world, routing, blocks[1..], s)
    else
      var call := ToolCall(blocks[0].id, blocks[0].name, blocks[0].input);
      if call.name !in routing then Fail(s, "tool_not_permitted")
      else
        match world.tool(call)
        case None => Fail(Logged(s, Called(call, true, false)), "tool call")
        case Some(text) =>
          ResumeBlocks(req, world, routing, blocks[1..], Executed(s, call, true, [ResultMessage(call.id, text)]))
  }

  /** The resume prelude: scans the messages the leg started with. */
  function Resume(req: Request, world: World, routing: Routing, stored: seq<Message>, s: State): Step {
    if stored == [] then More(s)
    else if !(stored[0].role.Assistant? && stored[0].body.Blocks?) then
      Resume(req, world, routing, stored[1..], s)
    else
      match ResumeBlocks(req, world, routing, stored[0].body.blocks, s)
      case Halt(leg) => Halt(leg)
      case More(s1) => Resume(req, world, routing, stored[1..], s1)
  }

  /** Executes a batch of requested tool calls up to the first one that needs approval or fails. */
  function ToolBatch(world: World, routing: Routing, calls: seq<ToolCall>, s: State): Step {
    if calls == [] then More(s)
    else
      var call := calls[0];
      if call.name !in routing then Fail(s, "tool_not_permitted")
      else
        match FindRule(call.name, routing[call.name].rules)
        case Some(rule) =>
          Halt(Leg(Suspended(Pending(call, rule.onReject, rule.timeoutMS, rule.timeoutBehavior)),
                   s.(messages := s.messages + [UseMessage(call)])))
        case None =>
          match world.tool(call)
          case None => Fail(Logged(s, Called(call, false, false)), "tool call")
          case Some(text) =>
            ToolBatch(world, routing, calls[1..], Executed(s, call, false, Exchange(call, text)))
  }

  /** How many gateway calls a leg has made; the next reply is the one with this number. */
  function Asks(events: seq<Event>): nat {
    if events == [] then 0 else Asks(events[..|events| - 1]) + if events[|events| - 1].Asked? then 1 else 0
  }

  function Ask(world: World, purpose: Purpose, s: State): (Option<Response>, State) {
    var reply := world.gateway(Asks(s.events));
    var s1 := Logged(s, Asked(purpose, reply));
    (reply, if reply.Some? then s1.(metrics := AddResponse(s1.metrics, reply.value)) else s1)
  }

  function CountReflection(s: State): State {
    s.(metrics := s.metrics.(counts := s.metrics.counts.(reflectCalls := s.metrics.counts.reflectCalls + 1)))
  }

  const FATAL_FIELDS := ["ktsu_injection_attempt", "ktsu_untrusted_content", "ktsu_low_quality", "ktsu_needs_human"]

  /** A fatal reserved field is present and is anything but `false`. */
  predicate Fatal(output: Object) {
    exists f :: f in FATAL_FIELDS && f in output && output[f] != Bool(false)
  }

  predicate ShouldReflect(req: Request, output: Object) {
    !req.confidenceDeclared || req.confidenceThreshold <= 0.0 ||
    "ktsu_confidence" !in output || !output["ktsu_confidence"].Num? || output["ktsu_confidence"].n < req.confidenceThreshold
  }

  /** The retry when the reflection's answer is not an object. */
  function RetryReflection(world: World, s: State): Leg {
    var (reply, s1) := Ask(world, Reflection, s);
    if reply.None? then Leg(Failed("reflect correction gateway"), s1)
    else
      match world.parse(reply.value.content)
      case Some(output) => Leg(Finished(output), CountReflection(s1))
      case None => Leg(Failed("reflect_output_invalid"), CountReflection(s1))
  }

  /** The single reflection on a draft. */
  function Reflect(req: Request, world: World, draft: Object, s: State): Leg {
    if req.reflect == "" then Leg(Finished(draft), s)
    else if Fatal(draft) then Leg(Failed("fatal reserved field"), s)
    else if !ShouldReflect(req, draft) then Leg(Finished(draft), s)
    else
      var (reply, s1) := Ask(world, Reflection, s);
      if reply.None? then Leg(Failed("gateway"), s1)
      else
        match world.parse(reply.value.content)
        case Some(output) => Leg(Finished(output), CountReflection(s1))
        case None => RetryReflection(world, CountReflection(s1))
  }

  /** After the last turn: one more answer without tools if some answer was not valid JSON. */
  function FreeCorrection(world: World, s: State, lastInvalid: Body): Leg {
    if lastInvalid == Text("") then Leg(Failed("max_turns_exceeded"), s)
    else
      var (reply, s1) := Ask(world, Correction, s);
      if reply.None? then Leg(Failed("max_turns_exceeded"), s1)
      else
        match world.parse(reply.value.content)
        case Some(output) => Leg(Finished(output), s1)
        case None => Leg(Failed("max_turns_exceeded"), s1)
  }

  function Prompted(req: Request, turn: nat, s: State): State {
    if turn == MaxTurns(req) then s.(messages := s.messages + [FORCED_CONCLUSION]) else s
  }

  /** Either the leg is over, or the next turn starts with this state and last invalid answer. */
  datatype Progress = Done(leg: Leg) | Next(state: State, lastInvalid: Body)

  /** What a turn makes of the reply to its gateway call. */
  function Replied(req: Request, world: World, routing: Routing, reply: Option<Response>, s1: State, lastInvalid: Body): Progress {
    if reply.None? then Done(Leg(Failed("gateway"), s1))
    else if reply.value.toolCalls != [] then
      match ToolBatch(world, routing, reply.value.toolCalls, s1)
      case Halt(leg) => Done(leg)
      case More(s2) => Next(s2, lastInvalid)
    else
      match world.parse(reply.value.content)
      case Some(draft) => Done(Reflect(req, world, draft, s1))
      case None =>
        Next(s1.(messages := s1.messages + [Message(Assistant, reply.value.content), JSON_CORRECTION]), reply.value.content)
  }

  function OneTurn(req: Request, world: World, routing: Routing, turn: nat, s: State, lastInvalid: Body): Progress {
    var (reply, s1) := Ask(world, Turn, Prompted(req, turn, s));
    Replied(req, world, routing, reply, s1, lastInvalid)
  }

  function Turns(req: Request, world: World, routing: Routing, turn: nat, s: State, lastInvalid: Body): Leg
    decreases MaxTurns(req) + 1 - turn
  {
    if turn > MaxTurns(req) then FreeCorrection(world, s, lastInvalid)
    else
      match OneTurn(req, world, routing, turn, s, lastInvalid)
      case Done(leg) => leg
      case Next(s1, invalid) => Turns(req, world, routing, turn + 1, s1, invalid)
  }

  /** One leg, from the request to the callback. */
  function RunLeg(req: Request, world: World): Leg {
    match Discover(req.servers, world)
    case None => Leg(Failed("discover tools"), State([], ZERO, []))
    case Some(routing) =>
      var start := State(InitialMessages(req), ZERO, []);
      match if req.approvedToolCalls == [] then More(start) else Resume(req, world, routing, start.messages, start)
      case Halt(leg) => leg
      case More(s) => Turns(req, world, routing, 1, s, Text(""))
  }

  // ---- the loop as the program runs it ----

  method RunDiscovery(servers: seq<Server>, world: World) returns (routing: Option<Routing>)
    ensures routing == Discover(servers, world)
  {
    var toolByName: Routing := map[];
    for i := 0 to |servers|
      invariant Discover(servers[..i], world) == Some(toolByName)
    {
      assert servers[..i + 1][..i] == servers[..i];
      if world.discovery(i).None? {
        DiscoverFails(servers, world, i);
        return None;
      }
      toolByName := AddTools(toolByName, servers[i], world.discovery(i).value);
    }
    assert servers[..|servers|] == servers;
    return Some(toolByName);
  }

  lemma {:induction false} DiscoverFails(servers: seq<Server>, world: World, i: nat)
    requires i < |servers| && world.discovery(i).None?
    ensures Discover(servers, world) == None
    decreases |servers|
  {
    if i < |servers| - 1 {
      DiscoverFails(servers[..|servers| - 1], world, i);
    }
  }

  method RunPrelude(req: Request, world: World, routing: Routing, start: State) returns (step: Step)
    ensures step == Resume(req, world, routing, start.messages, start)
  {
    var messages, metrics, events := start.messages, start.metrics, start.events;
    var stored := start.messages;
    var i := 0;
    while i < |stored|
      invariant 0 <= i <= |stored|
      invariant Resume(req, world, routing, stored, start) ==
        Resume(req, world, routing, stored[i..], State(messages, metrics, events))
    {
      assert stored[i..][1..] == stored[i + 1..];
      if stored[i].role.Assistant? && stored[i].body.Blocks? {
        var blocks := stored[i].body.blocks;
        ghost var before := State(messages, metrics, events);
        var j := 0;
        while j < |blocks|
          invariant 0 <= j <= |blocks|
          invariant ResumeBlocks(req, world, routing, blocks, before) ==
            ResumeBlocks(req, world, routing, blocks[j..], State(messages, metrics, events))
        {
          assert blocks[j..][1..] == blocks[j + 1..];
          if blocks[j].ToolUse? && blocks[j].id in req.approvedToolCalls {
            var call := ToolCall(blocks[j].id, blocks[j].name, blocks[j].input);
            if call.name !in routing {
              return Fail(State(messages, metrics, events), "tool_not_permitted");
            }
            var reply := world.tool(call);
            events := events + [Called(call, true, reply.Some?)];
            if reply.None? {
              return Fail(State(messages, metrics, events), "tool call");
            }
            metrics := CountToolCall(metrics);
            messages := messages + [ResultMessage(call.id, reply.value)];
          }
          j := j + 1;
        }
      }
      i := i + 1;
    }
    return More(State(messages, metrics, events));
  }

  method RunBatch(world: World, routing: Routing, calls: seq<ToolCall>, start: State) returns (step: Step)
    ensures step == ToolBatch(world, routing, calls, start)
  {
    var messages, metrics, events := start.messages, start.metrics, start.events;
    var i := 0;
    while i < |calls|
      invariant 0 <= i <= |calls|
      invariant ToolBatch(world, routing, calls, start) ==
        ToolBatch(world, routing, calls[i..], State(messages, metrics, events))
    {
      assert calls[i..][1..] == calls[i + 1..];
      var call := calls[i];
      if call.name !in routing {
        return Fail(State(messages, metrics, events), "tool_not_permitted");
      }
      var rule := FindRule(call.name, routing[call.name].rules);
      if rule.Some? {
        messages := messages + [UseMessage(call)];
        var pending := Pending(call, rule.value.onReject, rule.value.timeoutMS, rule.value.timeoutBehavior);
        return Halt(Leg(Suspended(pending), State(messages, metrics, events)));
      }
      var reply := world.tool(call);
      events := events + [Called(call, false, reply.Some?)];
      if reply.None? {
        return Fail(State(messages, metrics, events), "tool call");
      }
      metrics := CountToolCall(metrics);
      messages := messages + [UseMessage(call), ResultMessage(call.id, reply.value)];
      i := i + 1;
    }
    return More(State(messages, metrics, events));
  }

  method RunTurns(req: Request, world: World, routing: Routing, start: State) returns (leg: Leg)
    ensures leg == Turns(req, world, routing, 1, start, Text(""))
  {
    var s, lastInvalid := start, Text("");
    var turn := 1;
    while turn <= MaxTurns(req)
      invariant 1 <= turn <= MaxTurns(req) + 1
      invariant Turns(req, world, routing, 1, start, Text("")) == Turns(req, world, routing, turn, s, lastInvalid)
    {
      var (reply, asked) := Ask(world, Turn, Prompted(req, turn, s));
      s := asked;
      if reply.None? {
        return Leg(Failed("gateway"), s);
      }
      if reply.value.toolCalls != [] {
        var step := RunBatch(world, routing, reply.value.toolCalls, s);
        if step.Halt? {
          return step.leg;
        }
        s := step.state;
      } else {
        var parsed := world.parse(reply.value.content);
        if parsed.Some? {
          return Reflect(req, world, parsed.value, s);
        }
        lastInvalid := reply.value.content;
        s := s.(messages := s.messages + [Message(Assistant, reply.value.content), JSON_CORRECTION]);
      }
      turn := turn + 1;
    }
    return FreeCorrection(world, s, lastInvalid);
  }

  /** `run`: discovery, resume prelude, turn loop with reflection, free correction. */
  method Run(req: Request, world: World) returns (leg: Leg)
    ensures leg == RunLeg(req, world)
  {
    var discovered := RunDiscovery(req.servers, world);
    if discovered.None? {
      return Leg(Failed("discover tools"), State([], ZERO, []));
    }
    var routing := discovered.value;
    var s := State(InitialMessages(req), ZERO, []);
    if req.approvedToolCalls != [] {
      var step := RunPrelude(req, world, routing, s);
      if step.Halt? {
        return step.leg;
      }
      s := step.state;
    }
    leg := RunTurns(req, world, routing, s);
  }
}
