/**
 * What flows through a run: what each step was given, what its body answered, and what became of the
 * answer in the step's record and in what later steps see. Nothing here speaks of how the runner
 * goes about it; the theorem at the end says that every run it makes is of this kind.
 */
module RunnerFlows {
  import opened Wrappers
  import opened Values
  import opened Metrics
  import opened Types
  import opened Reserved
  import opened Graphs
  import opened CycleDetection
  import opened Layering
  import opened LayerOrder
  import opened MemStore
  import opened RunnerSpec
  import opened RunTree
  import opened RunnerProperties
  import opened Items
  import F = Fanout

  // ---- what a step does ----

  /** A step is of this kind in a root run, or in a nested one. */
  predicate RunsAs(kind: StepKind, s: PipelineStep, root: bool) {
    match kind
    case SubWorkflow => s.workflow != NoWorkflow
    case Transform => s.workflow == NoWorkflow && s.transform && !(root && s.agent)
    case Webhook => s.workflow == NoWorkflow && s.webhook && !s.transform && !(root && s.agent)
    case Agent => s.workflow == NoWorkflow && ((root && s.agent) || !(s.transform || s.webhook))
  }

  lemma KindExactly(kind: StepKind, s: PipelineStep, root: bool)
    ensures Kind(s, root) == kind <==> RunsAs(kind, s, root)
  {
  }

  ghost predicate Yields(o: F.Outcome, r: Result<Object>) {
    && o.metrics == ZERO
    && match r
       case Ok(v) => o.output == v && o.error == None
       case Err(e) => o.error == Some(e)
  }

  /** What an agent step answers: a stub without a dispatcher, else what was dispatched. */
  ghost predicate Dispatched(w: World, runID: string, id: string, before: Outputs, o: F.Outcome) {
    if !w.dispatches then o == F.Outcome(map["stubbed" := Bool(true)], ZERO, None)
    else
      match w.agentParams(runID, id, before)
      case Some(e) => o.error == Some(e) && o.metrics == ZERO
      case None =>
        var reply := w.dispatch(runID, id, before);
        o.output == reply.output && o.metrics == reply.metrics && o.error == reply.error
  }

  // ---- what becomes of an answer ----

  /** The outcome `o` of step `s` made this record, and this entry for the steps after it. */
  ghost predicate Stands(rec: Step, s: PipelineStep, o: F.Outcome, entry: Option<Object>) {
    && rec.metrics == o.metrics
    && if o.error.Some? then Broken(rec, o.error.value, entry)
       else if IsTrue(o.output, "skipped") then PassedOver(rec) && entry == Some(o.output)
       else if Warns(o.output) || TooUnsure(o.output, s.threshold) then
         Broken(rec, rec.error, entry) && ProcessReservedFields(o.output, s.threshold) == Reject(rec.error)
       else if AsksToSkip(o.output) then PassedOver(rec) && entry.Some? && Unreserved(entry.value, o.output)
       else if exists f :: f in s.required && Undelivered(f, o.output) then
         Broken(rec, "output missing required field", entry)
       else
         && rec.status == Complete && rec.error == ""
         && entry.Some? && rec.output == entry && Unreserved(entry.value, o.output)
  }

  /** The field is missing, or has a reserved name. */
  predicate Undelivered(field: string, raw: Object) {
    field !in raw || "ktsu_" <= field
  }

  predicate Broken(rec: Step, error: string, entry: Option<Object>) {
    rec.status == Failed && rec.error == error && rec.output == None && entry == None
  }

  predicate PassedOver(rec: Step) {
    rec.status == Skipped && rec.error == "" && rec.output == None
  }

  // ---- what a run was given and did ----

  /** Of the outputs those of the given steps. */
  function Among(outputs: Outputs, ids: seq<string>): Outputs {
    map id | id in outputs && id in ids :: outputs[id]
  }

  function Entry(outputs: Outputs, id: string): Option<Object> {
    if id in outputs then Some(outputs[id]) else None
  }

  /** The run of a workflow a step starts: under the step's id, and firing webhooks only if both sides say so. */
  function Below(env: Env, sub: Workflow, s: PipelineStep): Env {
    Env(env.runID + "/" + s.id, false, !sub.executesWebhooks || !s.executesWebhooks)
  }

  /** The step has started no run. */
  predicate NoRunBelow(c: Contents, env: Env, s: PipelineStep) {
    env.runID + "/" + s.id !in c.runs
  }

  /** What a workflow step answers, and the run it left behind. */
  ghost predicate Delegated(w: World, c: Contents, wf: Workflow, env: Env, s: PipelineStep, before: Outputs, o: F.Outcome)
    requires s in wf.pipeline
    decreases wf, 0
  {
    if !s.workflow.Resolved? then
      o.error == Some("workflow step: resolve") && o.metrics == ZERO && NoRunBelow(c, env, s)
    else
      match w.subInput(env.runID, s.id, before)
      case Err(e) => o.error == Some(e) && o.metrics == ZERO && NoRunBelow(c, env, s)
      case Ok(input) =>
        var sub := s.workflow.wf;
        exists outs, e :: Walked(w, c, sub, Below(env, sub, s), sub.name, input, outs, e) && HandsBack(o, e)
  }

  /** A nested run that ends well gives its step its output and metrics, another one only its error. */
  predicate HandsBack(o: F.Outcome, e: F.Outcome) {
    if e.error.None? then o == e
    else o.error == Some("sub-workflow failed: " + e.error.value) && o.metrics == ZERO
  }

  ghost predicate Answered(w: World, c: Contents, wf: Workflow, env: Env, s: PipelineStep, before: Outputs, o: F.Outcome)
    requires s in wf.pipeline
    decreases wf, 1
  {
    && (RunsAs(SubWorkflow, s, env.root) || NoRunBelow(c, env, s))
    && (RunsAs(Transform, s, env.root) ==> Yields(o, w.transform(env.runID, s.id, before)))
    && (RunsAs(Webhook, s, env.root) ==> Yields(o, w.webhook(env.runID, s.id, before)))
    && (RunsAs(SubWorkflow, s, env.root) ==> Delegated(w, c, wf, env, s, before, o))
    && (RunsAs(Agent, s, env.root) && s.forEach.None? ==> Dispatched(w, env.runID, s.id, before, o))
    && (RunsAs(Agent, s, env.root) && s.forEach.Some? ==> FannedOut(w, env.runID, s.id, s.forEach.value, before, o))
  }

  /** A webhook of a nested run that is not to fire. */
  predicate Silenced(env: Env, s: PipelineStep) {
    !env.root && env.suppress && RunsAs(Webhook, s, false)
  }

  /** A step that was given `before`: its record, and the entry it left for the steps after it. */
  ghost predicate StepFlows(w: World, c: Contents, wf: Workflow, env: Env, s: PipelineStep, before: Outputs, entry: Option<Object>)
    requires s in wf.pipeline
    decreases wf, 2
  {
    && s.id in StepsOf(c, env.runID)
    && var rec := StepsOf(c, env.runID)[s.id];
    && rec.id == s.id && rec.runID == env.runID && RunsAs(rec.kind, s, env.root)
    && if Silenced(env, s) then
         && PassedOver(rec) && rec.metrics == ZERO
         && entry == Some(map["suppressed" := Bool(true)])
         && NoRunBelow(c, env, s)
       else if s.condition && !w.condition(env.runID, s.id, before) then
         && PassedOver(rec) && rec.metrics == ZERO
         && entry == Some(map["skipped" := Bool(true), "reason" := Str("condition_false")])
         && NoRunBelow(c, env, s)
       else exists o :: Answered(w, c, wf, env, s, before, o) && Stands(rec, s, o, entry)
  }

  /**
   * Exactly the steps `done` have records, and each of them was given the outputs of those before
   * it; `outputs` are what they left in the end.
   */
  ghost predicate Flows(w: World, c: Contents, wf: Workflow, env: Env, done: seq<string>, outputs: Outputs)
    decreases wf, 3
  {
    && (forall id :: id in StepsOf(c, env.runID) <==> id in done)
    && (forall id :: id in outputs ==> id in done)
    && forall k, s :: 0 <= k < |done| && s in wf.pipeline && s.id == done[k] ==>
         StepFlows(w, c, wf, env, s, Among(outputs, done[..k]), Entry(outputs, s.id))
  }

  /** The run was opened under this name with this payload. */
  predicate Opened(c: Contents, runID: string, name: string, input: Object) {
    && runID in c.runs
    && c.runs[runID].id == runID && c.runs[runID].workflowName == name && c.runs[runID].payload == input
  }

  /** The error of a failed run is that of its last step, which failed. */
  predicate Blames(c: Contents, runID: string, done: seq<string>)
    requires runID in c.runs && forall id :: id in done ==> id in StepsOf(c, runID)
  {
    match c.runs[runID].status
    case RunFailed =>
      && done != []
      && StepsOf(c, runID)[done[|done| - 1]].status == Failed
      && StepsOf(c, runID)[done[|done| - 1]].error == c.runs[runID].error
    case _ => c.runs[runID].error == ""
  }

  /** What a run that is over reports: its output and the sum of its steps' metrics, or an error alone. */
  ghost predicate Reports(w: World, c: Contents, wf: Workflow, runID: string, outputs: Outputs, o: F.Outcome) {
    if IsComplete(c, runID) then
      && o.error == None
      && o.metrics == TotalOf(StepsOf(c, runID))
      && o.output == if wf.mapsOutput then w.outputMap(runID, outputs) else OutputOf(StepsOf(c, runID), Order(Nodes(wf)))
    else
      && o.metrics == ZERO
      && runID in c.runs && o.error == Some(if Cyclic(wf) then "dag resolve" else c.runs[runID].error)
  }

  /** A run that is over walked through a first part of its order, and reports `o`. */
  ghost predicate Walked(w: World, c: Contents, wf: Workflow, env: Env, name: string, input: Object, outputs: Outputs, o: F.Outcome)
    decreases wf, 5
  {
    && Opened(c, env.runID, name, input)
    && Reports(w, c, wf, env.runID, outputs, o)
    && exists n: nat :: WalkedTo(w, c, wf, env, n, outputs)
  }

  ghost predicate WalkedTo(w: World, c: Contents, wf: Workflow, env: Env, n: nat, outputs: Outputs)
    decreases wf, 4
  {
    && Prefix(StepsOf(c, env.runID), Order(Nodes(wf)), n)
    && Flows(w, c, wf, env, Order(Nodes(wf))[..n], outputs)
    && env.runID in c.runs && Blames(c, env.runID, Order(Nodes(wf))[..n])
  }

  // ---- framing ----

  /** The two stores agree on a run's steps and on everything nested in it. */
  ghost predicate SameWalk(c: Contents, d: Contents, wf: Workflow, runID: string) {
    && StepsOf(c, runID) == StepsOf(d, runID)
    && forall s :: s in wf.pipeline ==> SameUnder(c, d, SubRunID(runID, s.id))
  }

  lemma SameUnderWalk(c: Contents, d: Contents, wf: Workflow, runID: string)
    requires SameUnder(c, d, runID)
    ensures SameWalk(c, d, wf, runID) && SameRun(c, d, runID)
  {
    UnderItself(runID);
    forall s | s in wf.pipeline ensures SameUnder(c, d, SubRunID(runID, s.id)) {
      SubUnder(runID, s.id);
      NarrowFrame(c, d, [], runID, SubRunID(runID, s.id));
    }
  }

  lemma {:induction false} FlowsFrame(w: World, c: Contents, d: Contents, wf: Workflow, env: Env, done: seq<string>, outputs: Outputs)
    requires Flows(w, c, wf, env, done, outputs) && SameWalk(c, d, wf, env.runID)
    ensures Flows(w, d, wf, env, done, outputs)
    decreases wf, 3
  {
    forall k, s | 0 <= k < |done| && s in wf.pipeline && s.id == done[k]
      ensures StepFlows(w, d, wf, env, s, Among(outputs, done[..k]), Entry(outputs, s.id))
    {
      StepFlowsFrame(w, c, d, wf, env, s, Among(outputs, done[..k]), Entry(outputs, s.id));
    }
  }

  lemma {:induction false} StepFlowsFrame(w: World, c: Contents, d: Contents, wf: Workflow, env: Env, s: PipelineStep, before: Outputs, entry: Option<Object>)
    requires s in wf.pipeline && StepFlows(w, c, wf, env, s, before, entry)
    requires SameStep(c, d, env.runID, s.id) && SameUnder(c, d, SubRunID(env.runID, s.id))
    ensures StepFlows(w, d, wf, env, s, before, entry)
    decreases wf, 2
  {
    hide Answered, Stands, Under;
    UnderItself(SubRunID(env.runID, s.id));
    assert SameRun(c, d, SubRunID(env.runID, s.id));
    if !Silenced(env, s) && !(s.condition && !w.condition(env.runID, s.id, before)) {
      var o :| Answered(w, c, wf, env, s, before, o) && Stands(StepsOf(c, env.runID)[s.id], s, o, entry);
      AnsweredFrame(w, c, d, wf, env, s, before, o);
    }
  }

  lemma {:induction false} AnsweredFrame(w: World, c: Contents, d: Contents, wf: Workflow, env: Env, s: PipelineStep, before: Outputs, o: F.Outcome)
    requires s in wf.pipeline && Answered(w, c, wf, env, s, before, o) && SameUnder(c, d, SubRunID(env.runID, s.id))
    ensures Answered(w, d, wf, env, s, before, o)
    decreases wf, 1
  {
    hide Yields, Dispatched, FannedOut, Walked, Under;
    UnderItself(SubRunID(env.runID, s.id));
    assert SameRun(c, d, SubRunID(env.runID, s.id));
    if s.workflow.Resolved? && w.subInput(env.runID, s.id, before).Ok? {
      assert Delegated(w, c, wf, env, s, before, o);
      var sub, input := s.workflow.wf, w.subInput(env.runID, s.id, before).value;
      var outs, e :| Walked(w, c, sub, Below(env, sub, s), sub.name, input, outs, e) && HandsBack(o, e);
      WalkedFrame(w, c, d, sub, Below(env, sub, s), sub.name, input, outs, e);
    }
  }

  lemma {:induction false} WalkedFrame(w: World, c: Contents, d: Contents, wf: Workflow, env: Env, name: string, input: Object, outputs: Outputs, o: F.Outcome)
    requires Walked(w, c, wf, env, name, input, outputs, o) && SameUnder(c, d, env.runID)
    ensures Walked(w, d, wf, env, name, input, outputs, o)
    decreases wf, 5
  {
    hide Flows, Cyclic, OutputOf;
    SameUnderWalk(c, d, wf, env.runID);
    var n: nat :| WalkedTo(w, c, wf, env, n, outputs);
    FlowsFrame(w, c, d, wf, env, Order(Nodes(wf))[..n], outputs);
    assert WalkedTo(w, d, wf, env, n, outputs);
  }

  // ---- one step ----

  lemma AmongGrows(outputs: Outputs, more: Outputs, done: seq<string>, id: string, k: nat)
    requires k <= |done| && id !in done && forall x :: x in outputs ==> x in done
    requires forall x :: x != id ==> Entry(more, x) == Entry(outputs, x)
    ensures Among(more, (done + [id])[..k]) == Among(outputs, done[..k])
    ensures Among(outputs, done[..|done|]) == outputs
  {
    assert (done + [id])[..k] == done[..k] && done[..|done|] == done;
    forall x ensures x in Among(more, done[..k]) <==> x in Among(outputs, done[..k]) {
      assert x in done[..k] ==> x in done;
      assert Entry(more, x) == Entry(outputs, x) || x == id;
    }
    forall x | x in Among(more, done[..k]) ensures Among(more, done[..k])[x] == Among(outputs, done[..k])[x] {
      assert x in done[..k] ==> x in done;
      assert Entry(more, x) == Entry(outputs, x);
    }
  }

  /** One more step: those before it keep what they were given and what they left. */
  lemma FlowsGrow(w: World, p: Progress, q: Progress, wf: Workflow, env: Env, s: PipelineStep, rec: Step, done: seq<string>)
    requires WellNamed(wf) && s in wf.pipeline && rec.id == s.id && s.id !in done
    requires Flows(w, p.store, wf, env, done, p.outputs) && Moved(p.store, q.store, env.runID, rec)
    requires forall id :: id != s.id ==> Entry(q.outputs, id) == Entry(p.outputs, id)
    requires StepFlows(w, q.store, wf, env, s, p.outputs, Entry(q.outputs, s.id))
    ensures Flows(w, q.store, wf, env, done + [s.id], q.outputs)
  {
    hide StepFlows, Among;
    var done' := done + [s.id];
    forall k, t | 0 <= k < |done'| && t in wf.pipeline && t.id == done'[k]
      ensures StepFlows(w, q.store, wf, env, t, Among(q.outputs, done'[..k]), Entry(q.outputs, t.id))
    {
      AmongGrows(p.outputs, q.outputs, done, s.id, k);
      if k == |done| {
        OneStepPerId(wf, s, t);
      } else {
        assert t.id == done[k] && done[k] in done;
        MovedApart(p.store, q.store, env.runID, rec, t.id);
        StepFlowsFrame(w, p.store, q.store, wf, env, t, Among(p.outputs, done[..k]), Entry(p.outputs, t.id));
      }
    }
    forall id | id in q.outputs ensures id in done' {
      assert id == s.id || Entry(q.outputs, id) == Entry(p.outputs, id);
    }
  }

  /** A webhook that is not to fire, or a step whose condition is false. */
  lemma SkipFlows(w: World, env: Env, wf: Workflow, run: Run, s: PipelineStep, p: Progress, p1: Progress, output: Object, done: seq<string>)
    requires WellNamed(wf) && s in wf.pipeline && s.id !in done && run.id == env.runID
    requires Flows(w, p.store, wf, env, done, p.outputs) && Fresh(p.store, p.calls, SubRunID(env.runID, s.id))
    requires p1 == p || p1 == p.(store := WithStep(p.store, NewRecord(env, s)))
    requires if Silenced(env, s) then output == map["suppressed" := Bool(true)]
             else
               && s.condition && !w.condition(env.runID, s.id, p.outputs)
               && output == map["skipped" := Bool(true), "reason" := Str("condition_false")]
    ensures Flows(w, SkipStep(NewRecord(env, s), output, p1).store, wf, env, done + [s.id], SkipStep(NewRecord(env, s), output, p1).outputs)
  {
    hide Flows, Fresh, Moved;
    var final := NewRecord(env, s).(status := Skipped);
    var q := SkipStep(NewRecord(env, s), output, p1);
    SkipMoves(env, run, s, p, p1, q, final);
    NoneBelow(p.store, p.calls, SubRunID(run.id, s.id), q.store);
    KindExactly(final.kind, s, env.root);
    WithStepMoves(p1.store, final);
    FlowsGrow(w, p, q, wf, env, s, final, done);
  }

  /** The record and the entry an outcome makes. */
  lemma ConcludeStands(env: Env, run: Run, s: PipelineStep, rec: Step, o: F.Outcome, p2: Progress, final: Step)
    requires rec == NewRecord(env, s).(metrics := o.metrics) && p2.halt.None? && s.id !in p2.outputs
    requires Stored(p2, Conclude(run, s, rec, o, p2), run, final) && run.id == env.runID && final.runID == run.id
    requires final.id == s.id
    ensures Stands(final, s, o, Entry(Conclude(run, s, rec, o, p2).outputs, s.id)) && final.kind == rec.kind
    ensures forall id :: id != s.id ==> Entry(Conclude(run, s, rec, o, p2).outputs, id) == Entry(p2.outputs, id)
  {
    var q := Conclude(run, s, rec, o, p2);
    StoredStep(p2, q, run, final);
    assert StepsOf(q.store, run.id)[s.id] == final;
    VerdictExactly(o.output, s.threshold);
  }

  lemma StepFlowsBy(w: World, c: Contents, wf: Workflow, env: Env, s: PipelineStep, before: Outputs, rec: Step, entry: Option<Object>, o: F.Outcome)
    requires s in wf.pipeline && s.id in StepsOf(c, env.runID) && StepsOf(c, env.runID)[s.id] == rec
    requires rec.id == s.id && rec.runID == env.runID && RunsAs(rec.kind, s, env.root)
    requires !Silenced(env, s) && !(s.condition && !w.condition(env.runID, s.id, before))
    requires Answered(w, c, wf, env, s, before, o) && Stands(rec, s, o, entry)
    ensures StepFlows(w, c, wf, env, s, before, entry)
  {
    hide Answered, Stands;
  }

  /** A step whose body ran. */
  lemma BodyFlows(w: World, env: Env, wf: Workflow, run: Run, s: PipelineStep, p: Progress, r: Ran, done: seq<string>)
    requires WellNamed(wf) && s in wf.pipeline && s.id !in done && run.id == env.runID && p.halt.None?
    requires Flows(w, p.store, wf, env, done, p.outputs)
    requires !Silenced(env, s) && !(s.condition && !w.condition(env.runID, s.id, p.outputs))
    requires SameOutside(WithStep(p.store, NewRecord(env, s)), r.store, SubRunID(env.runID, s.id))
    requires Answered(w, r.store, wf, env, s, p.outputs, r.outcome)
    ensures
      var p1 := p.(store := WithStep(p.store, NewRecord(env, s)));
      var q := Conclude(run, s, NewRecord(env, s).(metrics := r.outcome.metrics), r.outcome, AfterBody(r, p1));
      Flows(w, q.store, wf, env, done + [s.id], q.outputs)
  {
    hide Flows, Answered, Stands, SameOutside, SameUnder, Moved, Stored, WithStep, Conclude, WellNamed;
    var rec := NewRecord(env, s);
    var p1 := p.(store := WithStep(p.store, rec));
    var p2 := AfterBody(r, p1);
    var q := Conclude(run, s, rec.(metrics := r.outcome.metrics), r.outcome, p2);
    KindExactly(rec.kind, s, env.root);
    var final := ConcludeStores(env, run, s, rec.(metrics := r.outcome.metrics), r.outcome, p2);
    StoredMoves(p, p1, p2, q, run, rec, final);
    StoredStep(p2, q, run, final);
    NotYet(w, p.store, wf, env, done, p.outputs, s.id);
    ConcludeStands(env, run, s, rec.(metrics := r.outcome.metrics), r.outcome, p2, final);
    AnsweredFrame(w, r.store, q.store, wf, env, s, p.outputs, r.outcome);
    StepFlowsBy(w, q.store, wf, env, s, p.outputs, final, Entry(q.outputs, s.id), r.outcome);
    FlowsGrow(w, p, q, wf, env, s, final, done);
  }

  lemma NotYet(w: World, c: Contents, wf: Workflow, env: Env, done: seq<string>, outputs: Outputs, id: string)
    requires Flows(w, c, wf, env, done, outputs) && id !in done
    ensures id !in outputs
  {
  }

  // ---- the induction over nested workflows ----

  lemma SubEnvIsBelow(env: Env, s: PipelineStep)
    requires s.workflow.Resolved?
    ensures SubEnv(env, s) == Below(env, s.workflow.wf, s)
  {
  }

  lemma FreshNone(c: Contents, calls: seq<Call>, env: Env, s: PipelineStep)
    requires Fresh(c, calls, SubRunID(env.runID, s.id))
    ensures NoRunBelow(c, env, s)
  {
    UnderItself(SubRunID(env.runID, s.id));
  }

  lemma {:induction false} WorkflowAnswers(w: World, env: Env, wf: Workflow, s: PipelineStep, p: Progress)
    requires WellNamed(wf) && s in wf.pipeline && s.workflow != NoWorkflow
    requires Fresh(p.store, p.calls, SubRunID(env.runID, s.id))
    ensures Delegated(w, ExecuteWorkflow(w, env, wf, s, p).store, wf, env, s, p.outputs, ExecuteWorkflow(w, env, wf, s, p).outcome)
    decreases wf, 0, 0
  {
    hide Walked, Fresh;
    FreshNone(p.store, p.calls, env, s);
    if s.workflow.Resolved? && w.subInput(env.runID, s.id, p.outputs).Ok? {
      var sub, input := s.workflow.wf, w.subInput(env.runID, s.id, p.outputs).value;
      SubEnvIsBelow(env, s);
      var outs := PipelineWalks(w, SubEnv(env, s), sub, sub.name, input, p.store, p.calls);
      var e := RunPipeline(w, SubEnv(env, s), sub, sub.name, input, p.store, p.calls);
      assert Walked(w, e.store, sub, Below(env, sub, s), sub.name, input, outs, e.outcome);
    }
  }

  lemma {:induction false} BodyAnswers(w: World, env: Env, wf: Workflow, s: PipelineStep, p: Progress)
    requires WellNamed(wf) && s in wf.pipeline
    requires Fresh(p.store, p.calls, SubRunID(env.runID, s.id))
    ensures Answered(w, ExecuteBody(w, env, wf, s, p).store, wf, env, s, p.outputs, ExecuteBody(w, env, wf, s, p).outcome)
    decreases wf, 0, 1
  {
    hide Delegated, FannedOut, ExecuteWorkflow, ExecuteFanout, Fresh, WellNamed;
    FreshNone(p.store, p.calls, env, s);
    match Kind(s, env.root)
    case SubWorkflow => WorkflowAnswers(w, env, wf, s, p);
    case Agent =>
      if s.forEach.Some? {
        FanoutExactly(w, env.runID, s.id, s.forEach.value, p);
      }
    case _ =>
  }

  lemma {:induction false} StepWalks(w: World, env: Env, wf: Workflow, run: Run, s: PipelineStep, p: Progress, done: seq<string>)
    requires WellNamed(wf) && s in wf.pipeline && s.id !in done && run.id == env.runID
    requires Inv(p, wf, env, run, done) && p.halt.None? && Flows(w, p.store, wf, env, done, p.outputs)
    ensures Flows(w, RunStep(w, env, wf, run, s, p).store, wf, env, done + [s.id], RunStep(w, env, wf, run, s, p).outputs)
    decreases wf, 0, 3
  {
    hide Flows, Answered, Fresh, BodyEffect, WellNamed, Conclude, SameOutside;
    var p1 := p.(store := WithStep(p.store, NewRecord(env, s)));
    KindExactly(Webhook, s, env.root);
    FreshBelow(p, wf, env, run, s, done);
    if Suppressed(env, s) {
      SkipFlows(w, env, wf, run, s, p, p, map["suppressed" := Bool(true)], done);
    } else if s.condition && !w.condition(env.runID, s.id, p.outputs) {
      SkipFlows(w, env, wf, run, s, p, p1, map["skipped" := Bool(true), "reason" := Str("condition_false")], done);
    } else {
      StartedFresh(env, s, p);
      var added := AnyBody(w, env, wf, s, p1);
      BodyOutside(p1, ExecuteBody(w, env, wf, s, p1), added, env, s);
      BodyAnswers(w, env, wf, s, p1);
      BodyFlows(w, env, wf, run, s, p, ExecuteBody(w, env, wf, s, p1), done);
    }
  }

  lemma FreshBelow(p: Progress, wf: Workflow, env: Env, run: Run, s: PipelineStep, done: seq<string>)
    requires Inv(p, wf, env, run, done) && s in wf.pipeline && s.id !in done
    ensures Fresh(p.store, p.calls, SubRunID(env.runID, s.id)) && s.id !in StepsOf(p.store, env.runID)
  {
    hide Fresh, Books, Covered, Delivered, Branches;
  }

  lemma BodyOutside(p: Progress, r: Ran, added: seq<Call>, env: Env, s: PipelineStep)
    requires BodyEffect(p, r, added, env, s)
    ensures SameOutside(p.store, r.store, SubRunID(env.runID, s.id))
  {
  }

  lemma {:induction false} StepsWalk(w: World, env: Env, wf: Workflow, run: Run, order: seq<string>, p: Progress, done: seq<string>)
    returns (n: nat, done': seq<string>)
    requires WellNamed(wf) && run.id == env.runID && Inv(p, wf, env, run, done) && Flows(w, p.store, wf, env, done, p.outputs)
    requires Distinct(done + order) && forall id :: id in order ==> id in StepByID(wf.pipeline)
    ensures n <= |order| && done' == done + order[..n]
    ensures
      var q := RunSteps(w, env, wf, run, order, p);
      && Inv(q, wf, env, run, done')
      && Flows(w, q.store, wf, env, done', q.outputs)
      && (q.halt.None? ==> n == |order|)
    decreases wf, 1, |order|
  {
    hide Inv, Flows, WellNamed, RunStep;
    if order == [] || p.halt.Some? {
      n, done' := 0, done;
      NothingAdded(done, order[..n]);
    } else {
      var s := StepByID(wf.pipeline)[order[0]];
      FirstIsNew(done, order);
      var one := OneStep(w, env, wf, run, s, p, done);
      StepWalks(w, env, wf, run, s, p, done);
      OneMore(done, order, |order| - 1);
      var m, last := StepsWalk(w, env, wf, run, order[1..], RunStep(w, env, wf, run, s, p), done + [s.id]);
      n, done' := m + 1, last;
      OneMore(done, order, m);
    }
  }

  // ---- whole runs ----

  /** A run that has not begun its first step. */
  lemma BeginFlows(w: World, wf: Workflow, env: Env, run: Run, store: Contents, calls: seq<Call>)
    requires run.id == env.runID && Fresh(store, calls, env.runID)
    ensures Flows(w, WithRun(store, run), wf, env, [], map[])
  {
    UnderItself(env.runID);
    assert StepsOf(store, env.runID) == map[];
  }

  lemma CyclicWalks(w: World, wf: Workflow, env: Env, name: string, input: Object, store: Contents, calls: seq<Call>)
    requires Fresh(store, calls, env.runID) && Cyclic(wf)
    ensures Walked(w, WithRun(store, NewRun(env, name, input)), wf, env, name, input, map[], Failure("dag resolve"))
  {
    hide Cyclic, Flows;
    UnderItself(env.runID);
    BeginFlows(w, wf, env, NewRun(env, name, input), store, calls);
    NothingAdded(Order(Nodes(wf))[..0], []);
    assert WalkedTo(w, WithRun(store, NewRun(env, name, input)), wf, env, 0, map[]);
  }

  /** The invariant tells of a halted run which step failed, and why. */
  lemma HaltedBlames(p: Progress, wf: Workflow, env: Env, run: Run, done: seq<string>)
    requires Inv(p, wf, env, run, done) && p.halt.Some?
    ensures Records(StepsOf(p.store, run.id), done)
    ensures run.id in p.store.runs && p.store.runs[run.id] == run.(status := RunFailed, error := p.halt.value)
    ensures (forall id :: id in done ==> id in StepsOf(p.store, run.id)) && Blames(p.store, run.id, done)
  {
    hide Branches, Untouched, Covered, Delivered, TotalOf, Spent;
  }

  lemma HaltedWalks(w: World, wf: Workflow, env: Env, run: Run, q: Progress, n: nat, name: string, input: Object)
    requires run == NewRun(env, name, input) && !Cyclic(wf) && q.halt.Some?
    requires n <= |Order(Nodes(wf))| && Inv(q, wf, env, run, Order(Nodes(wf))[..n])
    requires Flows(w, q.store, wf, env, Order(Nodes(wf))[..n], q.outputs)
    ensures Walked(w, q.store, wf, env, name, input, q.outputs, Failure(q.halt.value))
  {
    hide Inv, Flows, Cyclic, OutputOf;
    HaltedBlames(q, wf, env, run, Order(Nodes(wf))[..n]);
    RecordsPrefix(StepsOf(q.store, run.id), Order(Nodes(wf)), n);
    assert WalkedTo(w, q.store, wf, env, n, q.outputs);
  }

  lemma FinishedRecord(q: Progress, wf: Workflow, env: Env, run: Run, done: seq<string>)
    requires Inv(q, wf, env, run, done) && q.halt.None?
    ensures Records(StepsOf(q.store, run.id), done)
    ensures run.id in q.store.runs && q.store.runs[run.id] == run
    ensures forall id :: id in done ==> id in StepsOf(q.store, run.id)
  {
  }

  lemma FinishedWalks(w: World, wf: Workflow, env: Env, run: Run, q: Progress, name: string, input: Object, e: Ended)
    requires run == NewRun(env, name, input) && q.halt.None?
    requires Inv(q, wf, env, run, Order(Nodes(wf))) && Flows(w, q.store, wf, env, Order(Nodes(wf)), q.outputs)
    requires e == Finish(w, env, wf, run, q)
    ensures Walked(w, e.store, wf, env, name, input, q.outputs, e.outcome)
  {
    hide Inv, Flows, Cyclic, OutputOf, Order;
    var order := Order(Nodes(wf));
    FinishedRecord(q, wf, env, run, order);
    FinishedHandsUp(wf, env, run, q, e);
    FinishedSame(q.store, wf, run);
    FlowsFrame(w, q.store, e.store, wf, env, order, q.outputs);
    TakeAll(order, |order|);
    RecordsPrefix(StepsOf(q.store, run.id), order, |order|);
    assert WalkedTo(w, e.store, wf, env, |order|, q.outputs);
  }

  lemma FinishedSame(c: Contents, wf: Workflow, run: Run)
    ensures SameWalk(c, WithRun(c, run.(status := RunComplete)), wf, run.id)
  {
    forall s | s in wf.pipeline ensures SameUnder(c, WithRun(c, run.(status := RunComplete)), SubRunID(run.id, s.id)) {
      SubUnder(run.id, s.id);
    }
  }

  /** Every run on a fresh id walked a first part of its order, and reports what its steps made of it. */
  lemma {:induction false} PipelineWalks(w: World, env: Env, wf: Workflow, name: string, input: Object, store: Contents, calls: seq<Call>)
    returns (outputs: Outputs)
    requires WellNamed(wf) && Fresh(store, calls, env.runID)
    ensures
      var e := RunPipeline(w, env, wf, name, input, store, calls);
      Walked(w, e.store, wf, env, name, input, outputs, e.outcome)
    decreases wf, 2, 0
  {
    hide Walked, Inv, Flows, Order;
    var run := NewRun(env, name, input);
    UnderItself(env.runID);
    if HasCycle(Adjacency(Nodes(wf))) {
      outputs := map[];
      CyclicWalks(w, wf, env, name, input, store, calls);
    } else {
      outputs := OrderedWalks(w, env, wf, name, input, store, calls);
    }
  }

  lemma {:induction false} OrderedWalks(w: World, env: Env, wf: Workflow, name: string, input: Object, store: Contents, calls: seq<Call>)
    returns (outputs: Outputs)
    requires WellNamed(wf) && Fresh(store, calls, env.runID) && !Cyclic(wf)
    ensures forall id :: id in Order(Nodes(wf)) ==> id in StepByID(wf.pipeline)
    ensures
      var run := NewRun(env, name, input);
      var e := Finish(w, env, wf, run, RunSteps(w, env, wf, run, Order(Nodes(wf)), Begin(run, store, calls)));
      Walked(w, e.store, wf, env, name, input, outputs, e.outcome)
    decreases wf, 1, |Order(Nodes(wf))| + 1
  {
    hide Walked, Inv, Flows, Cyclic, Fresh;
    var run, order := NewRun(env, name, input), Order(Nodes(wf));
    OrderDeclared(wf);
    OrderDistinct(Nodes(wf), 0);
    BeginInv(wf, env, run, store, calls);
    BeginFlows(w, wf, env, run, store, calls);
    NothingAdded(order, []);
    var n, done := StepsWalk(w, env, wf, run, order, Begin(run, store, calls), []);
    NothingAdded(order[..n], []);
    var q := RunSteps(w, env, wf, run, order, Begin(run, store, calls));
    outputs := q.outputs;
    if q.halt.Some? {
      HaltedWalks(w, wf, env, run, q, n, name, input);
    } else {
      TakeAll(order, n);
      FinishedWalks(w, wf, env, run, q, name, input, Finish(w, env, wf, run, q));
    }
  }
}
