/** What the conversation of a step says at the start and at the end of each of its legs. */
module ApprovalTranscripts {
  import opened Wrappers
  import opened Metrics
  import opened Approvals
  import opened Types
  import opened Protocol
  import opened ApprovalAccounting
  import L = AgentLoop
  import P = LoopProperties
  import T = Transcript
  import G = ApprovalGating

  // ---- a conversation ----

  /** The leg made the call and got this answer. */
  ghost predicate Made(r: LegRecord, call: L.ToolCall, text: string) {
    && (L.Called(call, true, true) in LegOf(r).state.events || L.Called(call, false, true) in LegOf(r).state.events)
    && r.world.tool(call) == Some(text)
  }

  /**
   * What a part of a step's conversation rests on: the answer to a tool call is what a leg that
   * made the call got, or the rejection of a call a leg suspended on; an answer to correct is one a
   * leg got; everything else is plain text that is not the model's.
   */
  ghost predicate Backed(legs: seq<LegRecord>, p: T.Part) {
    match p
    case Answered(call, text) => (exists r :: r in legs && Made(r, call, text)) || (text == REJECTION && G.AskedBy(legs, call))
    case Corrected(_) => exists r :: r in legs && T.Happened(r.world, LegOf(r).state.events, p)
    case Said(message) => !message.role.Assistant? && message.body.Text?
  }

  ghost predicate AllBacked(legs: seq<LegRecord>, parts: seq<T.Part>) {
    forall p :: p in parts ==> Backed(legs, p)
  }

  /** Messages that fall into such parts: every tool call the loop adds comes with its own answer, every answer with its call. */
  ghost predicate Conversation(legs: seq<LegRecord>, messages: seq<L.Message>) {
    exists parts :: messages == T.Spoken(parts) && AllBacked(legs, parts)
  }

  /** A leg's transcript: a conversation, and the call a suspended leg waits for. */
  ghost predicate Conversed(legs: seq<LegRecord>, leg: L.Leg) {
    exists said :: Conversation(legs, said) && leg.state.messages == said + T.Waiting(leg.outcome)
  }

  lemma ConversationOf(legs: seq<LegRecord>, messages: seq<L.Message>, parts: seq<T.Part>, more: seq<T.Part>)
    requires messages == T.Spoken(parts) && AllBacked(legs, parts) && AllBacked(legs, more)
    ensures Conversation(legs, messages + T.Spoken(more))
  {
    hide Backed, T.Spoken;
    T.SpokenConcat(parts, more);
    assert AllBacked(legs, parts + more);
  }

  /** What a finished leg put on record rests on that leg. */
  lemma ScriptBacked(legs: seq<LegRecord>, r: LegRecord)
    requires r in legs
    ensures AllBacked(legs, T.Script(r.req, r.world, LegOf(r).state.events))
  {
    hide L.RunLeg, T.Script, P.TallyOf;
    var script, events := T.Script(r.req, r.world, LegOf(r).state.events), LegOf(r).state.events;
    T.ScriptHappened(r.req, r.world, events, events);
    forall p | p in script ensures Backed(legs, p) {
      assert T.Happened(r.world, events, p);
      if p.Answered? {
        assert Made(r, p.call, p.text);
      }
    }
  }

  lemma PartKept(legs: seq<LegRecord>, legs': seq<LegRecord>, p: T.Part)
    requires Backed(legs, p) && forall r :: r in legs ==> r in legs'
    ensures Backed(legs', p)
  {
    hide Made, T.Happened, LegOf, L.RunLeg;
    match p
    case Answered(call, text) =>
      if r :| r in legs && Made(r, call, text) {
        assert r in legs';
      } else {
        var r :| r in legs && L.RunLeg(r.req, r.world).outcome.Suspended? && L.RunLeg(r.req, r.world).outcome.pending.call == call;
        assert r in legs';
      }
    case Corrected(_) =>
      var r :| r in legs && T.Happened(r.world, LegOf(r).state.events, p);
      assert r in legs';
    case Said(_) =>
  }

  lemma ConversationKept(legs: seq<LegRecord>, legs': seq<LegRecord>, messages: seq<L.Message>)
    requires Conversation(legs, messages) && forall r :: r in legs ==> r in legs'
    ensures Conversation(legs', messages)
  {
    hide Backed, T.Spoken;
    var parts :| messages == T.Spoken(parts) && AllBacked(legs, parts);
    forall p | p in parts ensures Backed(legs', p) {
      PartKept(legs, legs', p);
    }
    assert AllBacked(legs', parts);
  }

  // ---- one leg ----

  /** The conversation a first leg starts: the system prompt and the user message. */
  function Opening(req: L.Request): seq<T.Part> {
    [T.Said(L.Message(L.System, L.Text(req.system))), T.Said(L.Message(L.User, L.Text(req.userMessage)))]
  }

  lemma OpeningSpoken(req: L.Request)
    ensures T.Spoken(Opening(req)) == [L.Message(L.System, L.Text(req.system)), L.Message(L.User, L.Text(req.userMessage))]
  {
    hide T.Spoken;
    var parts := Opening(req);
    assert parts == [parts[0]] + [parts[1]];
    T.SpokenConcat([parts[0]], [parts[1]]);
    T.SpokenOne(parts[0]);
    T.SpokenOne(parts[1]);
  }

  /** Nothing is resumed where no assistant message is stored. */
  lemma {:induction false} NothingToResume(req: L.Request, world: L.World, routing: L.Routing, stored: seq<L.Message>, s: L.State)
    requires forall m :: m in stored ==> !m.role.Assistant?
    ensures L.Resume(req, world, routing, stored, s) == L.More(s)
  {
    if stored != [] {
      NothingToResume(req, world, routing, stored[1..], s);
    }
  }

  /** A leg whose turn loop starts on a conversation leaves a conversation. */
  lemma GoesOn(legs: seq<LegRecord>, r: LegRecord, said: seq<L.Message>)
    requires r in legs && Conversation(legs, said)
    requires LegOf(r).state.messages ==
      said + T.Spoken(T.Script(r.req, r.world, LegOf(r).state.events)) + T.Waiting(LegOf(r).outcome)
    ensures Conversed(legs, LegOf(r))
  {
    hide T.Spoken, T.Script, T.Waiting, LegOf, Backed;
    var parts :| said == T.Spoken(parts) && AllBacked(legs, parts);
    var script := T.Script(r.req, r.world, LegOf(r).state.events);
    ScriptBacked(legs, r);
    ConversationOf(legs, said, parts, script);
  }

  /** A leg without approved ids, or without a saved transcript. */
  lemma PlainLeg(legs: seq<LegRecord>, r: LegRecord, routing: L.Routing)
    requires r in legs && L.Discover(r.req.servers, r.world) == Some(routing)
    requires r.req.messages == [] || (r.req.approvedToolCalls == [] && Conversation(legs, r.req.messages))
    ensures Conversed(legs, LegOf(r))
  {
    hide T.Spoken, T.Script, T.Waiting, L.Discover, L.Turns;
    var (req, world) := (r.req, r.world);
    var initial := L.InitialMessages(req);
    var start := L.State(initial, ZERO, []);
    if req.messages == [] {
      OpeningSpoken(req);
      assert Conversation(legs, initial) by {
        assert AllBacked(legs, Opening(req));
      }
      NothingToResume(req, world, routing, initial, start);
    }
    T.LegTold(req, world, routing);
    GoesOn(legs, r, initial);
  }

  /** The approved id is carried by the call at the end of the transcript and by no other. */
  ghost predicate UsedOnce(req: L.Request) {
    req.messages != [] && req.approvedToolCalls != [] && T.Unused(req.messages[..|req.messages| - 1], req.approvedToolCalls[0])
  }

  /** A checkpoint: a conversation and the call that waits. */
  ghost predicate Checkpoint(legs: seq<LegRecord>, messages: seq<L.Message>, call: L.ToolCall) {
    && messages != [] && messages[|messages| - 1] == L.UseMessage(call)
    && Conversation(legs, messages[..|messages| - 1])
  }

  /** One more answered call. */
  lemma Answer(legs: seq<LegRecord>, said: seq<L.Message>, call: L.ToolCall, text: string)
    requires Conversation(legs, said) && Backed(legs, T.Answered(call, text))
    ensures Conversation(legs, said + [L.UseMessage(call), L.ResultMessage(call.id, text)])
  {
    hide T.Spoken, Backed;
    var parts :| said == T.Spoken(parts) && AllBacked(legs, parts);
    ConversationOf(legs, said, parts, [T.Answered(call, text)]);
    T.SpokenOne(T.Answered(call, text));
  }

  /** A resumed call that cannot be made leaves the transcript as it was. */
  ghost predicate FailsAtOnce(r: LegRecord) {
    LegOf(r).outcome.Failed? && LegOf(r).state.messages == r.req.messages
  }

  /** The prelude on a checkpoint whose id is used once: the waiting call is made, or the leg fails. */
  lemma CheckpointPrelude(r: LegRecord, routing: L.Routing, call: L.ToolCall)
    requires L.Discover(r.req.servers, r.world) == Some(routing)
    requires UsedOnce(r.req) && r.req.approvedToolCalls == [call.id]
    requires r.req.messages[|r.req.messages| - 1] == L.UseMessage(call)
    ensures match T.Prelude(r.req, r.world, routing)
      case Halt(leg) => FailsAtOnce(r)
      case More(s) =>
        && r.world.tool(call).Some?
        && s.messages == r.req.messages + [L.ResultMessage(call.id, r.world.tool(call).value)]
        && s.events == [L.Called(call, true, true)]
  {
    hide L.Resume, L.Turns, L.Discover;
    var (req, world) := (r.req, r.world);
    var front, start := req.messages[..|req.messages| - 1], L.State(req.messages, ZERO, []);
    assert req.messages == front + [L.UseMessage(call)];
    T.ResumeExactly(req, world, routing, front, call, start);
    assert [] + [L.Called(call, true, true)] == [L.Called(call, true, true)];
  }

  /** Calls once made stay on record. */
  lemma MadeByPrelude(r: LegRecord, routing: L.Routing, call: L.ToolCall, s: L.State)
    requires L.Discover(r.req.servers, r.world) == Some(routing) && T.Prelude(r.req, r.world, routing) == L.More(s)
    requires L.Called(call, true, true) in s.events && r.world.tool(call).Some?
    ensures Made(r, call, r.world.tool(call).value)
  {
    hide L.Resume, L.Turns, L.Discover;
    T.EventsKept(r.req, r.world, routing, 1, s, L.Text(""));
  }

  /** A leg that resumes a checkpoint. */
  lemma ResumedLeg(legs: seq<LegRecord>, r: LegRecord, routing: L.Routing, call: L.ToolCall)
    requires r in legs && L.Discover(r.req.servers, r.world) == Some(routing)
    requires UsedOnce(r.req) && r.req.approvedToolCalls == [call.id] && Checkpoint(legs, r.req.messages, call)
    ensures Conversed(legs, LegOf(r)) || FailsAtOnce(r)
  {
    hide T.Spoken, T.Script, T.Waiting, L.Discover, L.RunLeg, T.Prelude, UsedOnce, Conversation, Made;
    CheckpointPrelude(r, routing, call);
    match T.Prelude(r.req, r.world, routing)
    case Halt(_) =>
    case More(s) =>
      var text := r.world.tool(call).value;
      var front := r.req.messages[..|r.req.messages| - 1];
      MadeByPrelude(r, routing, call, s);
      assert Backed(legs, T.Answered(call, text));
      Answer(legs, front, call, text);
      assert s.messages == front + [L.UseMessage(call), L.ResultMessage(call.id, text)];
      T.LegTold(r.req, r.world, routing);
      GoesOn(legs, r, s.messages);
  }

  // ---- over whole runs ----

  /** The request resumes this leg, with the call it waits for approved. */
  ghost predicate ResumesLeg(first: LegRecord, req: L.Request, call: L.ToolCall) {
    && Fresh(first.req) && LegOf(first).outcome.Suspended? && LegOf(first).outcome.pending.call == call
    && req == T.ApprovedRequest(first.req, req.messages, call.id)
    && (req.messages == [] || req.messages == LegOf(first).state.messages)
  }

  /** The approved ids are those of one call that a human granted, and on which a leg suspended. */
  ghost predicate Resumes(legs: seq<LegRecord>, granted: seq<Approval>, req: L.Request, call: L.ToolCall) {
    && req.approvedToolCalls == [call.id]
    && (exists g :: g in granted && g.call == call)
    && (exists first :: first in legs && ResumesLeg(first, req, call))
    && (req.messages == [] || Checkpoint(legs, req.messages, call))
  }

  /** A rejection sent back when no transcript of the step was saved: nothing stands before it. */
  ghost predicate Forgotten(legs: seq<LegRecord>, req: L.Request) {
    req.approvedToolCalls == [] && exists call: L.ToolCall :: req.messages == [L.ResultMessage(call.id, REJECTION)] && G.AskedBy(legs, call)
  }

  lemma ForgottenKept(legs: seq<LegRecord>, legs': seq<LegRecord>, req: L.Request)
    requires Forgotten(legs, req) && forall r :: r in legs ==> r in legs'
    ensures Forgotten(legs', req)
  {
    hide L.RunLeg;
    var call: L.ToolCall :| req.messages == [L.ResultMessage(call.id, REJECTION)] && G.AskedBy(legs, call);
    var r :| r in legs && L.RunLeg(r.req, r.world).outcome.Suspended? && L.RunLeg(r.req, r.world).outcome.pending.call == call;
    assert r in legs';
    assert G.AskedBy(legs', call);
  }

  /** How every leg starts: with a conversation, or with a checkpoint and its call approved. */
  ghost predicate Starts(legs: seq<LegRecord>, granted: seq<Approval>, req: L.Request) {
    if req.approvedToolCalls == [] then req.messages == [] || Conversation(legs, req.messages) || Forgotten(legs, req)
    else exists call :: Resumes(legs, granted, req, call)
  }

  ghost predicate AllStart(c: Cell) {
    && (forall a :: a in c.acts && a.RunningLeg? ==> Starts(c.past.legs, c.past.granted, a.req))
    && (forall r :: r in c.past.legs ==> Starts(c.past.legs, c.past.granted, r.req))
  }

  lemma StartKept(legs: seq<LegRecord>, granted: seq<Approval>, legs': seq<LegRecord>, granted': seq<Approval>, req: L.Request)
    requires Starts(legs, granted, req)
    requires (forall r :: r in legs ==> r in legs') && (forall g :: g in granted ==> g in granted')
    ensures Starts(legs', granted', req)
  {
    hide Conversation, ResumesLeg, Forgotten;
    if req.approvedToolCalls == [] {
      if Forgotten(legs, req) {
        ForgottenKept(legs, legs', req);
      } else if req.messages != [] {
        ConversationKept(legs, legs', req.messages);
      }
    } else {
      var call :| Resumes(legs, granted, req, call);
      var g :| g in granted && g.call == call;
      assert g in granted';
      var first :| first in legs && ResumesLeg(first, req, call);
      assert first in legs';
      if req.messages != [] {
        ConversationKept(legs, legs', req.messages[..|req.messages| - 1]);
      }
      assert Resumes(legs', granted', req, call);
    }
  }

  /** A suspended first leg leaves a checkpoint. */
  lemma CheckpointOf(c: Cell)
    requires Recorded(c) && Fresh(c.past.origin.value)
    ensures Checkpoint(c.past.legs, c.past.suspended.value.state.messages, c.approval.value.call)
    ensures G.AskedBy(c.past.legs, c.approval.value.call)
  {
    hide Conversation, L.RunLeg;
    var leg := c.past.suspended.value;
    var r :| r in c.past.legs && r.req == c.past.origin.value && leg == L.RunLeg(r.req, r.world);
    SuspendedDiscovered(r.req, r.world);
    PlainLeg(c.past.legs, r, L.Discover(r.req.servers, r.world).value);
    var said :| Conversation(c.past.legs, said) && leg.state.messages == said + T.Waiting(leg.outcome);
    assert leg.state.messages[..|leg.state.messages| - 1] == said;
  }

  /** The leg the approval was recorded for. */
  lemma SuspendedLeg(c: Cell) returns (first: LegRecord)
    requires Recorded(c)
    ensures first in c.past.legs && first.req == c.past.origin.value && LegOf(first) == c.past.suspended.value
  {
    hide L.RunLeg;
    first :| first in c.past.legs && first.req == c.past.origin.value && c.past.suspended.value == L.RunLeg(first.req, first.world);
  }

  lemma SuspendedDiscovered(req: L.Request, world: L.World)
    requires L.RunLeg(req, world).outcome.Suspended?
    ensures L.Discover(req.servers, world).Some?
  {
  }

  lemma ResumeStarts(c: Cell, i: nat)
    requires Books(c) && G.Sound(c) && i < |c.acts| && (c.acts[i].Redispatching? || c.acts[i].Recovering?)
    ensures Starts(c.past.legs, c.past.granted, ResumeRequest(c, c.acts[i]))
  {
    hide L.RunLeg, Conversation, Backed, G.AskedBy;
    assert TokenOK(c, c.acts[i]);
    CheckpointOf(c);
    var first := SuspendedLeg(c);
    var req, messages, call := ResumeRequest(c, c.acts[i]), c.past.suspended.value.state.messages, c.approval.value.call;
    if c.acts[i].Redispatching? {
      assert G.ActivitySound(c, c.acts[i]);
      assert ResumesLeg(first, req, call);
      assert Resumes(c.past.legs, c.past.granted, req, call);
    } else if SavedMessages(c.step) != [] {
      RejectionAnswers(c.past.legs, messages, call);
    } else {
      assert req.messages == [L.ResultMessage(call.id, REJECTION)];
    }
  }

  /** The rejection answers the call that waited. */
  lemma RejectionAnswers(legs: seq<LegRecord>, messages: seq<L.Message>, call: L.ToolCall)
    requires Checkpoint(legs, messages, call) && G.AskedBy(legs, call)
    ensures Conversation(legs, messages + [L.ResultMessage(call.id, REJECTION)])
  {
    hide Conversation, G.AskedBy;
    var front, result := messages[..|messages| - 1], L.ResultMessage(call.id, REJECTION);
    Answer(legs, front, call, REJECTION);
    assert messages == front + [L.UseMessage(call)];
    assert front + [L.UseMessage(call), result] == messages + [result];
  }

  lemma AllStartKept(c: Cell, c': Cell)
    requires AllStart(c) && G.Preserves(c, c')
    requires forall a :: a in c'.acts && a.RunningLeg? ==> a in c.acts || Starts(c.past.legs, c.past.granted, a.req)
    requires forall r :: r in c'.past.legs ==> r in c.past.legs || Starts(c.past.legs, c.past.granted, r.req)
    ensures AllStart(c')
  {
    hide Starts;
    forall req | Starts(c.past.legs, c.past.granted, req) ensures Starts(c'.past.legs, c'.past.granted, req) {
      StartKept(c.past.legs, c.past.granted, c'.past.legs, c'.past.granted, req);
    }
  }

  lemma RepostStarts(c: Cell, i: nat, accepted: bool)
    requires Books(c) && G.Sound(c) && AllStart(c) && RepostIt(c, i, accepted).Some?
    requires G.Preserves(c, RepostIt(c, i, accepted).value)
    ensures AllStart(RepostIt(c, i, accepted).value)
  {
    hide Starts, G.Sound, Books, ResumeRequest;
    var put :=
      if accepted then [RunningLeg(ResumeRequest(c, c.acts[i]))] else if c.acts[i].Redispatching? then []
      else [Signalling(FailedPayload(c.acts[i].approval, "approval rejected (recover dispatch failed)"))];
    ResumeStarts(c, i);
    G.SwapRest(c.acts, i, put);
    AllStartKept(c, RepostIt(c, i, accepted).value);
  }

  lemma EndLegStarts(c: Cell, i: nat, world: L.World, delivered: bool)
    requires AllStart(c) && EndTheLeg(c, i, world, delivered).Some?
    requires G.Preserves(c, EndTheLeg(c, i, world, delivered).value)
    ensures AllStart(EndTheLeg(c, i, world, delivered).value)
  {
    hide Starts, L.RunLeg;
    var (req, c') := (c.acts[i].req, EndTheLeg(c, i, world, delivered).value);
    var leg := L.RunLeg(req, world);
    assert c.acts[i] in c.acts;
    G.SwapRest(c.acts, i, []);
    G.SwapRest(c.acts, i, [Checkpointing(req, leg)]);
    if !leg.outcome.Suspended? {
      G.SwapRest(c.acts, i, [Completing(FinalPayload(req, leg))]);
    }
    AllStartKept(c, c');
  }

  /** Activity `i` ends or becomes another, and that is no leg. */
  lemma NoLegSwapped(acts: seq<Activity>, i: nat, put: seq<Activity>)
    requires i < |acts| && forall a :: a in put ==> !a.RunningLeg?
    ensures forall a :: a in Swap(acts, i, put) && a.RunningLeg? ==> a in acts
  {
  }

  /** Only a POST starts a leg. */
  lemma CallbackStartsNone(c: Cell, a: Action)
    requires CallbackNext(c, a).Some? && !a.EndLeg?
    ensures forall act :: act in CallbackNext(c, a).value.acts && act.RunningLeg? ==> act in c.acts
  {
    hide Swap, Accumulated, Reviewed, NewApproval, CheckpointStep, L.RunLeg;
    match a
    case ReadStep(i) => NoLegSwapped(c.acts, i, [CheckpointRead(c.acts[i].req, c.acts[i].leg, c.step)]);
    case WriteStep(i) => NoLegSwapped(c.acts, i, [Recording(c.acts[i].req, c.acts[i].leg)]);
    case CreateApproval(i) =>
      NoLegSwapped(c.acts, i, []);
      if c.approval.None? {
        var approval := NewApproval(c.acts[i].req, c.acts[i].leg);
        NoLegSwapped(c.acts, i, [Timer(approval.timeoutBehavior)]);
      }
    case Accumulate(i) => NoLegSwapped(c.acts, i, [Signalling(Accumulated(Reviewed(c.acts[i].payload), c.approval))]);
    case LookUp(i) => NoLegSwapped(c.acts, i, if c.registered then [Sending(c.acts[i].payload)] else []);
    case Send(i) => NoLegSwapped(c.acts, i, []);
  }

  lemma DecisionStartsNone(c: Cell, a: Action)
    requires DecisionNext(c, a).Some? && !a.Repost?
    ensures forall act :: act in DecisionNext(c, a).value.acts && act.RunningLeg? ==> act in c.acts
  {
    hide Swap, FailedPayload;
    match a
    case Decide(_) =>
    case Fire(i) => NoLegSwapped(c.acts, i, if IsPending(c) then [Expiring(c.acts[i].behavior, c.approval.value)] else []);
    case Write(i) =>
      var read := c.acts[i].read;
      NoLegSwapped(c.acts, i, [Redispatching(read.(status := Approved))]);
      NoLegSwapped(c.acts, i, [AfterReject(read.(status := Rejected))]);
      NoLegSwapped(c.acts, i, [AfterReject(read.(status := TimedOut))]);
      NoLegSwapped(c.acts, i, [Signalling(FailedPayload(read.(status := TimedOut), "approval timed out: " + read.call.name))]);
  }

  lemma NoNewLeg(c: Cell, a: Action)
    requires Next(c, a).Some? && !a.Post? && !a.Repost? && !a.EndLeg?
    ensures forall act :: act in Next(c, a).value.acts && act.RunningLeg? ==> act in c.acts
  {
    hide CallbackNext, DecisionNext;
    if ByCallback(a) {
      CallbackStartsNone(c, a);
    } else if ByDecision(a) {
      DecisionStartsNone(c, a);
    }
  }

  lemma StartsStep(c: Cell, a: Action)
    requires Books(c) && G.Sound(c) && AllStart(c) && Next(c, a).Some? && G.Preserves(c, Next(c, a).value)
    ensures AllStart(Next(c, a).value)
  {
    hide G.Sound, Books, Starts;
    if a.Post? {
      FreshStarts(c, a.req);
      AllStartKept(c, Next(c, a).value);
    } else if a.Repost? {
      RepostStarts(c, a.i, a.accepted);
    } else if a.EndLeg? {
      EndLegStarts(c, a.i, a.world, a.delivered);
    } else {
      NoNewLeg(c, a);
      OthersSpendNothing(c, a);
      AllStartKept(c, Next(c, a).value);
    }
  }

  lemma FreshStarts(c: Cell, req: L.Request)
    ensures Fresh(req) ==> Starts(c.past.legs, c.past.granted, req)
  {
  }

  lemma {:induction false} EveryLegStarts(actions: seq<Action>)
    requires Run(actions).Some? && Exclusive(actions)
    ensures AllStart(Run(actions).value)
  {
    hide AllStart, G.Sound, G.Preserves, Books, Conserved;
    if actions == [] {
      NoLegsYet();
    } else {
      var front, a := actions[..|actions| - 1], actions[|actions| - 1];
      EveryLegStarts(front);
      BooksBalance(front);
      TokenConservation(front);
      G.AllSound(front);
      G.SoundStep(Run(front).value, a);
      StartsStep(Run(front).value, a);
    }
  }

  lemma NoLegsYet()
    ensures AllStart(START)
  {
  }

  // ---- what every leg of a run leaves behind ----

  lemma ForgottenLeg(legs: seq<LegRecord>, r: LegRecord, routing: L.Routing)
    requires r in legs && L.Discover(r.req.servers, r.world) == Some(routing) && Forgotten(legs, r.req)
    ensures !Conversed(legs, LegOf(r))
    ensures exists said :: Conversation(legs, said) && LegOf(r).state.messages == r.req.messages + said + T.Waiting(LegOf(r).outcome)
  {
    hide T.Spoken, T.Script, L.Discover, L.Turns, Backed;
    T.LegTold(r.req, r.world, routing);
    ScriptBacked(legs, r);
    var script := T.Script(r.req, r.world, LegOf(r).state.events);
    assert Conversation(legs, T.Spoken(script));
    var messages := LegOf(r).state.messages;
    assert messages[0] == r.req.messages[0];
    forall said | Conversation(legs, said) ensures messages != said + T.Waiting(LegOf(r).outcome) {
      if said != [] {
        OpensProperly(legs, said);
      }
    }
  }

  /** No conversation opens with the result of a tool call. */
  lemma OpensProperly(legs: seq<LegRecord>, said: seq<L.Message>)
    requires Conversation(legs, said) && said != []
    ensures said[0].role.Assistant? || said[0].body.Text?
  {
    hide T.Spoken;
    var parts :| said == T.Spoken(parts) && AllBacked(legs, parts);
    if parts == [] {
      T.SpokenNothing();
    } else {
      T.PartStands(parts, 0);
      assert parts[..0] == [] && parts[0] in parts;
      T.SpokenNothing();
      assert Backed(legs, parts[0]);
      assert said[0] == said[..|T.Words(parts[0])|][0];
    }
  }

  /**
   * Transcripts over whole runs. In every exclusive run the transcript of every leg that found its
   * tools is a conversation of its step, in which every tool call the loop adds stands immediately
   * before its own answer and rests on a call some leg made or on a rejection, with the waiting call of a suspended
   * leg at the end. The exceptions are a resumed call that cannot be made, and a step whose saved
   * transcript was gone when a rejection was sent back: then the leg starts with the bare rejection.
   */
  lemma TranscriptsArePaired(actions: seq<Action>, r: LegRecord)
    requires Run(actions).Some? && Exclusive(actions) && r in Run(actions).value.past.legs
    requires r.req.approvedToolCalls == [] || r.req.messages == [] || UsedOnce(r.req)
    ensures var legs := Run(actions).value.past.legs;
      if L.Discover(r.req.servers, r.world).None? then LegOf(r).outcome.Failed? && LegOf(r).state.messages == []
      else if Forgotten(legs, r.req) then
        && !Conversed(legs, LegOf(r))
        && exists said :: Conversation(legs, said) && LegOf(r).state.messages == r.req.messages + said + T.Waiting(LegOf(r).outcome)
      else Conversed(legs, LegOf(r)) || (r.req.approvedToolCalls != [] && FailsAtOnce(r))
  {
    hide Conversation, Conversed, L.Turns, L.Resume, FailsAtOnce;
    EveryLegStarts(actions);
    var c := Run(actions).value;
    assert Starts(c.past.legs, c.past.granted, r.req);
    match L.Discover(r.req.servers, r.world)
    case None =>
    case Some(routing) =>
      if Forgotten(c.past.legs, r.req) {
        ForgottenLeg(c.past.legs, r, routing);
      } else if r.req.approvedToolCalls == [] || r.req.messages == [] {
        PlainLeg(c.past.legs, r, routing);
      } else {
        var call :| Resumes(c.past.legs, c.past.granted, r.req, call);
        ResumedLeg(c.past.legs, r, routing, call);
      }
  }

  lemma ApprovedCall(actions: seq<Action>, r: LegRecord) returns (call: L.ToolCall)
    requires Run(actions).Some? && Exclusive(actions) && r in Run(actions).value.past.legs && r.req.approvedToolCalls != []
    ensures Resumes(Run(actions).value.past.legs, Run(actions).value.past.granted, r.req, call)
  {
    hide Resumes, Run, Exclusive;
    EveryLegStarts(actions);
    var c := Run(actions).value;
    assert Starts(c.past.legs, c.past.granted, r.req);
    call :| Resumes(c.past.legs, c.past.granted, r.req, call);
  }

  /**
   * A call executed without asking is the very call a human granted: same tool, same input, unless
   * its id is used twice in the transcript.
   */
  lemma ExecutedAsGranted(actions: seq<Action>, r: LegRecord, routing: L.Routing, e: L.Event)
    requires Run(actions).Some? && Exclusive(actions) && r in Run(actions).value.past.legs
    requires L.Discover(r.req.servers, r.world) == Some(routing) && UsedOnce(r.req)
    requires e in LegOf(r).state.events && e.Called? && e.preApproved
    ensures exists g :: g in Run(actions).value.past.granted && g.call == e.call
  {
    hide Conversation, L.RunLeg, L.Discover, Run, Exclusive, ResumesLeg;
    var call := ApprovedCall(actions, r);
    P.ApprovalGate(r.req, r.world, routing);
    assert P.Permitted(r.req, routing, e);
    hide P.StoredUse, UsedOnce;
    OnlyUse(r.req, call, e.call);
  }

  /** The only stored call with the approved id is the one at the end. */
  lemma OnlyUse(req: L.Request, call: L.ToolCall, made: L.ToolCall)
    requires UsedOnce(req) && req.approvedToolCalls == [call.id] && made.id == call.id
    requires req.messages[|req.messages| - 1] == L.UseMessage(call) && P.StoredUse(req.messages, made)
    ensures made == call
  {
  }

  // ---- when the saved transcript is gone ----

  /** A resumed leg without a saved transcript starts over: the approved call is not made. */
  lemma StartsOver(r: LegRecord, routing: L.Routing)
    requires r.req.messages == [] && L.Discover(r.req.servers, r.world) == Some(routing)
    ensures forall e :: e in LegOf(r).state.events && e.Called? ==> !e.preApproved
  {
    hide L.RunLeg, L.Discover;
    P.ApprovalGate(r.req, r.world, routing);
    forall e | e in LegOf(r).state.events && e.Called? ensures !e.preApproved {
      assert P.Permitted(r.req, routing, e);
    }
  }

  /** A bare rejection is no conversation. */
  lemma BareRejection(legs: seq<LegRecord>, call: L.ToolCall)
    ensures !Conversation(legs, [L.ResultMessage(call.id, REJECTION)])
  {
    hide Conversation;
    if Conversation(legs, [L.ResultMessage(call.id, REJECTION)]) {
      OpensProperly(legs, [L.ResultMessage(call.id, REJECTION)]);
    }
  }

  /**
   * What a decision sends back depends on the step record at that moment: an approval resumes from a
   * checkpoint, and a rejection continues a conversation, exactly when the record has a transcript.
   */
  lemma ResumesExactly(actions: seq<Action>, i: nat)
    requires Run(actions).Some? && Exclusive(actions) && i < |Run(actions).value.acts|
    requires Run(actions).value.acts[i].Redispatching? || Run(actions).value.acts[i].Recovering?
    ensures var c := Run(actions).value;
      var (req, saved) := (ResumeRequest(c, c.acts[i]), SavedMessages(c.step));
      if c.acts[i].Redispatching? then
        if saved != [] then Checkpoint(c.past.legs, req.messages, c.acts[i].approval.call) else req.messages == []
      else Conversation(c.past.legs, req.messages) <==> saved != []
  {
    hide Conversation, Run, Exclusive, L.RunLeg, Backed, G.AskedBy;
    BooksBalance(actions);
    G.AllSound(actions);
    var c := Run(actions).value;
    assert TokenOK(c, c.acts[i]);
    CheckpointOf(c);
    var call := c.approval.value.call;
    if c.acts[i].Recovering? {
      RejectionAnswers(c.past.legs, c.past.suspended.value.state.messages, call);
      BareRejection(c.past.legs, call);
      assert [] + [L.ResultMessage(call.id, REJECTION)] == [L.ResultMessage(call.id, REJECTION)];
    }
  }

  // ---- approve and resume, over whole runs ----

  /** Both legs find the same tools, `free` has the waiting call's rule lifted, and the tool answers `text`. */
  ghost predicate SameTools(first: LegRecord, r: LegRecord, routing: L.Routing, free: L.Routing, text: string)
    requires LegOf(first).outcome.Suspended?
  {
    var call := LegOf(first).outcome.pending.call;
    && L.Discover(first.req.servers, first.world) == Some(routing) && L.Discover(r.req.servers, r.world) == Some(routing)
    && T.Lifted(routing, free, call.name)
    && first.world.tool(call) == r.world.tool(call) == Some(text)
  }

  /** Where the first leg's loop goes on without the rule, the second leg starts its turn loop. */
  ghost predicate TakesOver(first: LegRecord, r: LegRecord, routing: L.Routing, free: L.Routing, text: string, c: T.Continuation)
    requires LegOf(first).outcome.Suspended?
  {
    var start := T.ResumedState(LegOf(first), text);
    && T.Continues(first.req, first.world, free, 1, L.State(L.InitialMessages(first.req), ZERO, []), L.Text(""), LegOf(first), text, c)
    && LegOf(r) == L.Turns(r.req, r.world, routing, 1, start, L.Text(""))
    && start.messages == c.state.messages
    && LegOf(first).state.metrics.Plus(start.metrics) == c.state.metrics
    && c.lastInvalid == T.LastInvalid(first.world, LegOf(first).state.events)
  }

  lemma TakeOver(first: LegRecord, r: LegRecord, routing: L.Routing, free: L.Routing, text: string) returns (c: T.Continuation)
    requires Fresh(first.req) && LegOf(first).outcome.Suspended? && LegOf(first).state.messages != []
    requires r.req == T.ApprovedRequest(first.req, LegOf(first).state.messages, LegOf(first).outcome.pending.call.id)
    requires UsedOnce(r.req) && SameTools(first, r, routing, free, text)
    ensures TakesOver(first, r, routing, free, text, c)
  {
    hide L.RunLeg, L.Turns, L.Discover, T.Continues, T.Lifted, T.ResumedState, T.LastInvalid, T.Unused;
    c := T.ApproveAndResume(first.req, first.world, r.world, routing, free, LegOf(first), text);
  }

  /**
   * Approve and resume over whole runs. Every leg of an exclusive run that resumes a saved transcript,
   * with the id of its waiting call used once, resumes a first leg of that run and takes over from
   * it: where the first leg's loop would have gone on had the call needed no approval, it starts its
   * turn loop, with the same messages and the counters adding up.
   */
  lemma ResumedLegTakesOver(actions: seq<Action>, r: LegRecord) returns (first: LegRecord)
    requires Run(actions).Some? && Exclusive(actions) && r in Run(actions).value.past.legs && UsedOnce(r.req)
    ensures first in Run(actions).value.past.legs && Fresh(first.req) && LegOf(first).outcome.Suspended?
    ensures r.req == T.ApprovedRequest(first.req, LegOf(first).state.messages, LegOf(first).outcome.pending.call.id)
    ensures forall routing, free, text :: SameTools(first, r, routing, free, text) ==>
      exists c :: TakesOver(first, r, routing, free, text, c)
  {
    hide L.RunLeg, SameTools, TakesOver, Conversation, Run, Exclusive;
    var c := Run(actions).value;
    var call := ApprovedCall(actions, r);
    first :| first in c.past.legs && ResumesLeg(first, r.req, call);
    forall routing, free, text | SameTools(first, r, routing, free, text)
      ensures exists c :: TakesOver(first, r, routing, free, text, c)
    {
      var k := TakeOver(first, r, routing, free, text);
    }
  }
}
