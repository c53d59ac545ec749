/** What internal/orchestrator/runner/runner.go does to the store, as functions. */
module RunnerSpec {
  import opened Wrappers
  import opened Values
  import opened Metrics
  import opened Types
  import opened Reserved
  import opened Graphs
  import opened CycleDetection
  import opened LayerOrder
  import opened MemStore
  import F = Fanout

  // ---- workflows ----

  datatype Workflow = Workflow(name: string, pipeline: seq<PipelineStep>, executesWebhooks: bool, mapsOutput: bool)

  /** The workflow a step names: none, one that does not resolve, or one that does. */
  datatype Reference = NoWorkflow | Unresolved | Resolved(wf: Workflow)

  datatype ForEach = ForEach(concurrency: int, maxItems: int, maxFailures: int)

  datatype PipelineStep = PipelineStep(
    id: string,
    dependsOn: seq<string>,
    workflow: Reference,
    agent: bool,
    transform: bool,
    webhook: bool,
    condition: bool,
    forEach: Option<ForEach>,
    executesWebhooks: bool,
    threshold: real,
    required: seq<string>)

  function Nodes(wf: Workflow): (nodes: seq<Node>)
    ensures |nodes| == |wf.pipeline|
  {
    seq(|wf.pipeline|, (i: nat) requires i < |wf.pipeline| => Node(wf.pipeline[i].id, wf.pipeline[i].dependsOn))
  }

  /** The step map: a repeated id keeps its last step. */
  function StepByID(pipeline: seq<PipelineStep>): (m: map<string, PipelineStep>)
    ensures forall id :: id in m ==> m[id] in pipeline && m[id].id == id
    ensures forall s :: s in pipeline ==> s.id in m
  {
    if pipeline == [] then map[]
    else
      var front, last := pipeline[..|pipeline| - 1], pipeline[|pipeline| - 1];
      assert pipeline == front + [last];
      StepByID(front)[last.id := last]
  }

  /** A root workflow looks for an agent before a transform or a webhook; a sub-workflow after them. */
  function Kind(step: PipelineStep, root: bool): StepKind {
    if step.workflow != NoWorkflow then SubWorkflow
    else if root && step.agent then Agent
    else if step.transform then Transform
    else if step.webhook then Webhook
    else Agent
  }

  // ---- the outside world ----

  type Outputs = map<string, Object>

  /**
   * Everything the runner calls that is not modelled, by run, step and the outputs so far. A run id
   * is used once, so a world may answer two calls of one step in two runs differently.
   */
  datatype World = World(
    condition: (string, string, Outputs) -> bool,
    transform: (string, string, Outputs) -> Result<Object>,
    webhook: (string, string, Outputs) -> Result<Object>,
    agentParams: (string, string, Outputs) -> Option<string>,
    items: (string, string, Outputs) -> Result<nat>,
    subInput: (string, string, Outputs) -> Result<Object>,
    outputMap: (string, Outputs) -> Object,
    dispatches: bool,
    dispatch: (string, string, Outputs) -> F.ItemResult,
    dispatchItem: (string, string, nat, Outputs) -> F.ItemResult)

  /** One call of the agent dispatcher and what it cost. */
  datatype Call = Call(runID: string, stepID: string, metrics: Metrics)

  datatype Env = Env(runID: string, root: bool, suppress: bool)

  /** One run under way: the store, the dispatcher calls so far, and the runner's local variables. */
  datatype Progress = Progress(
    store: Contents,
    calls: seq<Call>,
    outputs: Outputs,
    final: Option<Object>,
    agg: Metrics,
    halt: Option<string>)

  /** What executing a step's body gave back, with the store and the calls it left behind. */
  datatype Ran = Ran(outcome: F.Outcome, store: Contents, calls: seq<Call>)

  /** A finished run: its output and metrics, or the error. */
  datatype Ended = Ended(outcome: F.Outcome, store: Contents, calls: seq<Call>)

  function FromResult(r: Result<Object>): F.Outcome {
    match r
    case Ok(o) => F.Outcome(o, ZERO, None)
    case Err(e) => F.Outcome(map[], ZERO, Some(e))
  }

  function Failure(e: string): F.Outcome {
    F.Outcome(map[], ZERO, Some(e))
  }

  // ---- agent steps ----

  function ExecuteAgent(w: World, runID: string, id: string, p: Progress): Ran {
    if !w.dispatches then Ran(F.Outcome(map["stubbed" := Bool(true)], ZERO, None), p.store, p.calls)
    else
      match w.agentParams(runID, id, p.outputs)
      case Some(e) => Ran(Failure(e), p.store, p.calls)
      case None =>
        var r := w.dispatch(runID, id, p.outputs);
        Ran(F.Outcome(r.output, r.metrics, r.error), p.store, p.calls + [Call(runID, id, r.metrics)])
  }

  function Replies(w: World, runID: string, id: string, n: nat, outputs: Outputs): seq<F.ItemResult> {
    seq(n, i requires 0 <= i < n => w.dispatchItem(runID, id, i, outputs))
  }

  function ItemCalls(runID: string, id: string, replies: seq<F.ItemResult>): seq<Call> {
    seq(|replies|, (i: nat) requires i < |replies| => Call(runID, id, replies[i].metrics))
  }

  function Truncated(n: nat, maxItems: int): nat {
    if maxItems > 0 && n > maxItems then maxItems else n
  }

  const NO_RESULTS := F.Outcome(map["results" := Arr([])], ZERO, None)

  function ExecuteFanout(w: World, runID: string, id: string, spec: ForEach, p: Progress): Ran {
    if !w.dispatches then Ran(NO_RESULTS, p.store, p.calls)
    else
      match w.items(runID, id, p.outputs)
      case Err(e) => Ran(Failure(e), p.store, p.calls)
      case Ok(n) =>
        var replies := Replies(w, runID, id, Truncated(n, spec.maxItems), p.outputs);
        if replies == [] then Ran(NO_RESULTS, p.store, p.calls)
        else Ran(F.Collected(replies, spec.maxFailures), p.store, p.calls + ItemCalls(runID, id, replies))
  }

  // ---- sub-workflows ----

  function SubRunID(runID: string, stepID: string): string {
    runID + "/" + stepID
  }

  /** A nested run fires webhooks only if both its workflow and the step that starts it say so. */
  function SubEnv(env: Env, step: PipelineStep): Env
    requires step.workflow.Resolved?
  {
    Env(SubRunID(env.runID, step.id), false, !(step.workflow.wf.executesWebhooks && step.executesWebhooks))
  }

  ghost function ExecuteWorkflow(w: World, env: Env, wf: Workflow, step: PipelineStep, p: Progress): Ran
    requires step in wf.pipeline && step.workflow != NoWorkflow
    decreases wf, 0, 0
  {
    if step.workflow.Unresolved? then Ran(Failure("workflow step: resolve"), p.store, p.calls)
    else
      match w.subInput(env.runID, step.id, p.outputs)
      case Err(e) => Ran(Failure(e), p.store, p.calls)
      case Ok(input) =>
        var sub := step.workflow.wf;
        var r := RunPipeline(w, SubEnv(env, step), sub, sub.name, input, p.store, p.calls);
        if r.outcome.error.Some? then Ran(Failure("sub-workflow failed: " + r.outcome.error.value), r.store, r.calls)
        else Ran(r.outcome, r.store, r.calls)
  }

  ghost function ExecuteBody(w: World, env: Env, wf: Workflow, step: PipelineStep, p: Progress): Ran
    requires step in wf.pipeline
    decreases wf, 0, 1
  {
    match Kind(step, env.root)
    case Transform => Ran(FromResult(w.transform(env.runID, step.id, p.outputs)), p.store, p.calls)
    case Webhook => Ran(FromResult(w.webhook(env.runID, step.id, p.outputs)), p.store, p.calls)
    case SubWorkflow => ExecuteWorkflow(w, env, wf, step, p)
    case Agent =>
      if step.forEach.Some? then ExecuteFanout(w, env.runID, step.id, step.forEach.value, p)
      else ExecuteAgent(w, env.runID, step.id, p)
  }

  // ---- one step ----

  /** The record of a step that starts, or that is suppressed. */
  function NewRecord(env: Env, step: PipelineStep): Step {
    Step(step.id, env.runID, Kind(step, env.root), Running, "", None, ZERO)
  }

  predicate Suppressed(env: Env, step: PipelineStep) {
    !env.root && env.suppress && Kind(step, env.root) == Webhook
  }

  function SkipStep(rec: Step, output: Object, p: Progress): Progress {
    p.(store := WithStep(p.store, rec.(status := Skipped)), outputs := p.outputs[rec.id := output])
  }

  function FailStep(run: Run, rec: Step, e: string, p: Progress): Progress {
    p.(store := WithRun(WithStep(p.store, rec.(status := Failed, error := e)), run.(status := RunFailed, error := e)),
       halt := Some(e))
  }

  function CompleteStep(rec: Step, clean: Object, p: Progress): Progress {
    p.(store := WithStep(p.store, rec.(status := Complete, output := Some(clean))),
       outputs := p.outputs[rec.id := clean],
       final := Some(clean))
  }

  /** An output passes its reserved fields and the air-lock, or the step is skipped or fails. */
  function Deliver(run: Run, step: PipelineStep, rec: Step, output: Object, p: Progress): Progress {
    match ProcessReservedFields(output, step.threshold)
    case Reject(e) => FailStep(run, rec, e, p)
    case Skip(clean, reason) => SkipStep(rec, clean, p)
    case Keep(clean) =>
      if !Airlock(clean, step.required) then FailStep(run, rec, "output missing required field", p)
      else CompleteStep(rec, clean, p)
  }

  /** From the body's outcome to the step's final record. */
  function Conclude(run: Run, step: PipelineStep, rec: Step, o: F.Outcome, p: Progress): Progress {
    if o.error.Some? then FailStep(run, rec, o.error.value, p)
    else if Flagged(o.output, "skipped") then SkipStep(rec, o.output, p)
    else Deliver(run, step, rec, o.output, p)
  }

  /** The progress once the body has run: the store and calls it left, and its metrics added up. */
  function AfterBody(r: Ran, p: Progress): Progress {
    p.(store := r.store, calls := r.calls, agg := p.agg.Plus(r.outcome.metrics))
  }

  /** A step whose record is new: it is suppressed, skipped by its condition, or executed. */
  ghost function StartStep(w: World, env: Env, wf: Workflow, run: Run, step: PipelineStep, p: Progress): Progress
    requires step in wf.pipeline
    decreases wf, 0, 2
  {
    var rec := NewRecord(env, step);
    if Suppressed(env, step) then SkipStep(rec, map["suppressed" := Bool(true)], p)
    else
      var p1 := p.(store := WithStep(p.store, rec));
      if step.condition && !w.condition(env.runID, step.id, p.outputs) then
        SkipStep(rec, map["skipped" := Bool(true), "reason" := Str("condition_false")], p1)
      else
        var r := ExecuteBody(w, env, wf, step, p1);
        Conclude(run, step, rec.(metrics := r.outcome.metrics), r.outcome, AfterBody(r, p1))
  }

  ghost function RunStep(w: World, env: Env, wf: Workflow, run: Run, step: PipelineStep, p: Progress): Progress
    requires step in wf.pipeline
    decreases wf, 0, 3
  {
    if step.id in StepsOf(p.store, env.runID) then p.(halt := Some("create step " + step.id))
    else StartStep(w, env, wf, run, step, p)
  }

  // ---- whole runs ----

  /** The given steps in turn, until one halts the run. */
  ghost function RunSteps(w: World, env: Env, wf: Workflow, run: Run, order: seq<string>, p: Progress): Progress
    requires forall id :: id in order ==> id in StepByID(wf.pipeline)
    decreases wf, 1, |order|
  {
    if order == [] || p.halt.Some? then p
    else RunSteps(w, env, wf, run, order[1..], RunStep(w, env, wf, run, StepByID(wf.pipeline)[order[0]], p))
  }

  /** The run's output: the declared output map, else the output of its last completed step. */
  function Output(w: World, env: Env, wf: Workflow, p: Progress): Object {
    if wf.mapsOutput then w.outputMap(env.runID, p.outputs)
    else if p.final.Some? then p.final.value
    else map[]
  }

  function NewRun(env: Env, name: string, input: Object): Run {
    Run(env.runID, name, RunRunning, "", input)
  }

  function Begin(run: Run, store: Contents, calls: seq<Call>): Progress {
    Progress(WithRun(store, run), calls, map[], None, ZERO, None)
  }

  /** After the last step: the run is complete, unless a step halted it. */
  function Finish(w: World, env: Env, wf: Workflow, run: Run, p: Progress): Ended {
    if p.halt.Some? then Ended(Failure(p.halt.value), p.store, p.calls)
    else Ended(F.Outcome(Output(w, env, wf, p), p.agg, None), WithRun(p.store, run.(status := RunComplete)), p.calls)
  }

  lemma OrderDeclared(wf: Workflow)
    ensures forall id :: id in Order(Nodes(wf)) ==> id in StepByID(wf.pipeline)
  {
    forall id | id in Order(Nodes(wf)) ensures id in StepByID(wf.pipeline) {
      OrderMember(Nodes(wf), 0, id);
      var n :| n in Nodes(wf) && n.id == id;
      var i :| 0 <= i < |wf.pipeline| && Nodes(wf)[i] == n;
      assert wf.pipeline[i] in wf.pipeline;
    }
  }

  /**
   * One run from the creation of its record to its end, `Execute` for a root and
   * `executeSubWorkflow` otherwise; a root's output and metrics go nowhere.
   */
  ghost function RunPipeline(w: World, env: Env, wf: Workflow, name: string, input: Object, store: Contents, calls: seq<Call>): Ended
    decreases wf, 2, 0
  {
    var run := NewRun(env, name, input);
    if env.runID in store.runs then Ended(Failure("create run"), store, calls)
    else if HasCycle(Adjacency(Nodes(wf))) then Ended(Failure("dag resolve"), WithRun(store, run), calls)
    else
      OrderDeclared(wf);
      Finish(w, env, wf, run, RunSteps(w, env, wf, run, Order(Nodes(wf)), Begin(run, store, calls)))
  }
}
