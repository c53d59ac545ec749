/** What the flow of outputs through a run tells of its steps, of every workflow and at every nesting level. */
module DataFlow {
  import opened Wrappers
  import opened Values
  import opened Metrics
  import opened Types
  import opened Reserved
  import opened Graphs
  import opened CycleDetection
  import opened Layering
  import opened LayerOrder
  import opened MemStore
  import opened RunnerSpec
  import opened RunTree
  import opened RunnerProperties
  import opened RunnerFlows
  import RunnerGuarantees
  import F = Fanout

  /** What the `k`-th step of a run was given: the outputs of the steps before it. */
  ghost function GivenTo(outputs: Outputs, wf: Workflow, k: nat): Outputs
    requires k <= |Order(Nodes(wf))|
  {
    Among(outputs, Order(Nodes(wf))[..k])
  }

  /** A step with a record has a place in the order, and its record is what became of it there. */
  lemma PlaceOf(w: World, c: Contents, wf: Workflow, env: Env, n: nat, outputs: Outputs, s: PipelineStep) returns (k: nat)
    requires WalkedTo(w, c, wf, env, n, outputs) && s in wf.pipeline && s.id in StepsOf(c, env.runID)
    ensures k < n <= |Order(Nodes(wf))| && Order(Nodes(wf))[k] == s.id
    ensures StepFlows(w, c, wf, env, s, GivenTo(outputs, wf, k), Entry(outputs, s.id))
  {
    var order := Order(Nodes(wf));
    k :| 0 <= k < n && order[..n][k] == s.id;
    assert order[..n][..k] == order[..k];
  }

  /** A step that succeeded left an entry, and a complete one its stored output. */
  lemma EntryOfSuccess(w: World, c: Contents, wf: Workflow, env: Env, s: PipelineStep, before: Outputs, entry: Option<Object>)
    requires s in wf.pipeline && StepFlows(w, c, wf, env, s, before, entry) && Succeeded(StepsOf(c, env.runID)[s.id])
    ensures entry.Some? && (StepsOf(c, env.runID)[s.id].status == Complete ==> StepsOf(c, env.runID)[s.id].output == entry)
  {
    hide Answered;
  }

  /**
   * Every step that has started was given, for each step it depends on, what that step left: a
   * complete one its stored output. And it was given outputs of earlier steps only.
   */
  lemma DependenciesGiven(w: World, c: Contents, wf: Workflow, env: Env, n: nat, outputs: Outputs, k: nat, d: string)
    requires WellNamed(wf) && WalkedTo(w, c, wf, env, n, outputs) && k < n
    requires Order(Nodes(wf))[k] in StepByID(wf.pipeline)
    ensures d in GivenTo(outputs, wf, k) ==> d in Order(Nodes(wf))[..k]
    ensures d in StepByID(wf.pipeline)[Order(Nodes(wf))[k]].dependsOn ==>
      && d in StepsOf(c, env.runID) && Succeeded(StepsOf(c, env.runID)[d])
      && d in GivenTo(outputs, wf, k)
      && (StepsOf(c, env.runID)[d].status == Complete ==> StepsOf(c, env.runID)[d].output == Some(GivenTo(outputs, wf, k)[d]))
  {
    hide StepFlows, WellNamed, StepByID;
    var order := Order(Nodes(wf));
    if d in StepByID(wf.pipeline)[order[k]].dependsOn {
      UniquelyNamed(wf);
      RunnerGuarantees.DependsOn(wf, order[k]);
      DependenciesFirst(Nodes(wf), k, d);
      var j :| 0 <= j < k && order[..k][j] == d;
      assert order[..n][j] == d;
      OrderDeclared(wf);
      var t := StepByID(wf.pipeline)[d];
      assert t in wf.pipeline && t.id == d;
      var i := PlaceOf(w, c, wf, env, n, outputs, t);
      EntryOfSuccess(w, c, wf, env, t, GivenTo(outputs, wf, i), Entry(outputs, d));
    }
  }

  lemma UniquelyNamed(wf: Workflow)
    requires WellNamed(wf)
    ensures UniqueIds(Nodes(wf))
  {
  }

  /** The output map of a run is given every complete step's stored output. */
  lemma MappedFromStored(w: World, c: Contents, wf: Workflow, env: Env, n: nat, outputs: Outputs, s: PipelineStep)
    requires WalkedTo(w, c, wf, env, n, outputs) && s in wf.pipeline && s.id in StepsOf(c, env.runID)
    ensures Entry(outputs, s.id).Some? <==> StepsOf(c, env.runID)[s.id].status != Failed
    ensures StepsOf(c, env.runID)[s.id].status == Complete ==> Entry(outputs, s.id) == StepsOf(c, env.runID)[s.id].output
  {
    hide WalkedTo;
    var k := PlaceOf(w, c, wf, env, n, outputs, s);
    EntryByStatus(w, c, wf, env, s, GivenTo(outputs, wf, k), Entry(outputs, s.id));
  }

  // ---- what became of what was answered ----

  lemma EntryByStatus(w: World, c: Contents, wf: Workflow, env: Env, s: PipelineStep, before: Outputs, entry: Option<Object>)
    requires s in wf.pipeline && StepFlows(w, c, wf, env, s, before, entry)
    ensures entry.Some? <==> StepsOf(c, env.runID)[s.id].status != Failed
    ensures StepsOf(c, env.runID)[s.id].status == Complete ==> entry == StepsOf(c, env.runID)[s.id].output
  {
    hide Answered, Unreserved, TooUnsure;
  }

  /** A clean answer: no error, no warning, sure enough, and nothing asked for but to be stored. */
  ghost predicate Clean(s: PipelineStep, o: F.Outcome) {
    && o.error.None?
    && !IsTrue(o.output, "skipped") && !AsksToSkip(o.output)
    && !Warns(o.output) && !TooUnsure(o.output, s.threshold)
    && forall f :: f in s.required ==> f in o.output && !("ktsu_" <= f)
  }

  /**
   * A step is complete only if its body answered, from what earlier steps left, without an error, a
   * warning or too little confidence; its stored output is that answer without the reserved fields,
   * and its metrics are what the answer cost.
   */
  lemma CompleteMeansAnswered(w: World, c: Contents, wf: Workflow, env: Env, n: nat, outputs: Outputs, s: PipelineStep)
    returns (k: nat, o: F.Outcome)
    requires WalkedTo(w, c, wf, env, n, outputs) && s in wf.pipeline && s.id in StepsOf(c, env.runID)
    requires StepsOf(c, env.runID)[s.id].status == Complete
    ensures k < |Order(Nodes(wf))| && Order(Nodes(wf))[k] == s.id
    ensures Answered(w, c, wf, env, s, GivenTo(outputs, wf, k), o) && Clean(s, o)
    ensures StepsOf(c, env.runID)[s.id].output.Some? && Unreserved(StepsOf(c, env.runID)[s.id].output.value, o.output)
    ensures StepsOf(c, env.runID)[s.id].metrics == o.metrics
  {
    hide WalkedTo, Answered;
    k := PlaceOf(w, c, wf, env, n, outputs, s);
    o :| Answered(w, c, wf, env, s, GivenTo(outputs, wf, k), o) && Stands(StepsOf(c, env.runID)[s.id], s, o, Entry(outputs, s.id));
    StandsComplete(StepsOf(c, env.runID)[s.id], s, o, Entry(outputs, s.id));
  }

  lemma StandsComplete(rec: Step, s: PipelineStep, o: F.Outcome, entry: Option<Object>)
    requires Stands(rec, s, o, entry)
    ensures rec.status == Complete <==> Clean(s, o)
    ensures rec.status == Complete ==> rec.output.Some? && Unreserved(rec.output.value, o.output)
  {
  }

  /**
   * An agent step that runs, and has no items, is complete exactly when the dispatcher's answer to
   * it is clean: flags, a confidence below the threshold, a wish to be skipped or a missing field
   * each keep it from being stored.
   */
  lemma AgentCompletesExactly(w: World, c: Contents, wf: Workflow, env: Env, n: nat, outputs: Outputs, s: PipelineStep) returns (k: nat)
    requires WalkedTo(w, c, wf, env, n, outputs) && s in wf.pipeline && s.id in StepsOf(c, env.runID)
    requires s.workflow == NoWorkflow && !s.transform && !s.webhook && s.forEach.None? && !s.condition
    requires w.dispatches
    ensures k < |Order(Nodes(wf))| && Order(Nodes(wf))[k] == s.id
    ensures
      var (rec, before) := (StepsOf(c, env.runID)[s.id], GivenTo(outputs, wf, k));
      var reply := w.dispatch(env.runID, s.id, before);
      w.agentParams(env.runID, s.id, before).None? ==>
        && (rec.status == Complete <==> Clean(s, F.Outcome(reply.output, reply.metrics, reply.error)))
        && (rec.status == Complete ==> rec.output.Some? && Unreserved(rec.output.value, reply.output))
        && rec.metrics == reply.metrics
  {
    hide WalkedTo, Clean, Unreserved, Stands;
    k := PlaceOf(w, c, wf, env, n, outputs, s);
    var before, rec := GivenTo(outputs, wf, k), StepsOf(c, env.runID)[s.id];
    var o :| Answered(w, c, wf, env, s, before, o) && Stands(rec, s, o, Entry(outputs, s.id));
    StandsComplete(rec, s, o, Entry(outputs, s.id));
    StandsCost(rec, s, o, Entry(outputs, s.id));
  }

  lemma StandsCost(rec: Step, s: PipelineStep, o: F.Outcome, entry: Option<Object>)
    requires Stands(rec, s, o, entry)
    ensures rec.metrics == o.metrics
  {
  }

  // ---- nested runs ----

  /** A nested run was started by its step, on the input made for it, and walked through its own order. */
  lemma NestedWalks(w: World, c: Contents, wf: Workflow, env: Env, n: nat, outputs: Outputs, s: PipelineStep)
    returns (k: nat, inner: Outputs, o: F.Outcome)
    requires WalkedTo(w, c, wf, env, n, outputs) && s in wf.pipeline && s.id in StepsOf(c, env.runID)
    requires env.runID + "/" + s.id in c.runs
    ensures k < |Order(Nodes(wf))| && Order(Nodes(wf))[k] == s.id && s.workflow.Resolved?
    ensures
      var input := w.subInput(env.runID, s.id, GivenTo(outputs, wf, k));
      && input.Ok?
      && Walked(w, c, s.workflow.wf, Below(env, s.workflow.wf, s), s.workflow.wf.name, input.value, inner, o)
  {
    hide WalkedTo, Walked, Stands;
    k := PlaceOf(w, c, wf, env, n, outputs, s);
    var before := GivenTo(outputs, wf, k);
    var outcome :| Answered(w, c, wf, env, s, before, outcome) && Stands(StepsOf(c, env.runID)[s.id], s, outcome, Entry(outputs, s.id));
    assert Delegated(w, c, wf, env, s, before, outcome);
    var sub, input := s.workflow.wf, w.subInput(env.runID, s.id, before).value;
    inner, o :| Walked(w, c, sub, Below(env, sub, s), sub.name, input, inner, o) && HandsBack(outcome, o);
  }

  /** A run of `sub` under `inner` is this run, or is started by one of its steps or below one. */
  ghost predicate Within(wf: Workflow, env: Env, sub: Workflow, inner: Env)
    decreases wf
  {
    || (sub == wf && inner == env)
    || exists s :: s in wf.pipeline && s.workflow.Resolved? && Within(s.workflow.wf, Below(env, s.workflow.wf, s), sub, inner)
  }

  /** Run `r` is one of a workflow within the given one, and walked. */
  ghost predicate Walks(w: World, c: Contents, wf: Workflow, env: Env, r: string) {
    exists sub: Workflow, inner: Env, name, input, outputs, o ::
      inner.runID == r && Within(wf, env, sub, inner) && Walked(w, c, sub, inner, name, input, outputs, o)
  }

  lemma NestedStep(c: Contents, calls: seq<Call>, wf: Workflow, env: Env, r: string) returns (s: PipelineStep)
    requires Tree(c, calls, wf, env) && r in c.runs && Under(r, env.runID) && r != env.runID
    ensures s in wf.pipeline && Under(r, SubRunID(env.runID, s.id)) && SubRunID(env.runID, s.id) in c.runs
    ensures s.id in StepsOf(c, env.runID) && s.workflow.Resolved?
    ensures Tree(c, calls, s.workflow.wf, SubEnv(env, s))
  {
    hide RunLevel, Delivered, Under;
    assert FromStep(c, wf, env.runID, r);
    s :| s in wf.pipeline && Under(r, SubRunID(env.runID, s.id)) && SubRunID(env.runID, s.id) in c.runs;
    assert Branch(c, calls, wf, env, s);
  }

  /** Every run below a run that walked, at any depth, walked. */
  lemma {:induction false} EveryRunWalks(w: World, c: Contents, calls: seq<Call>, wf: Workflow, env: Env,
                                         name: string, input: Object, outputs: Outputs, o: F.Outcome, r: string)
    requires Tree(c, calls, wf, env) && Walked(w, c, wf, env, name, input, outputs, o)
    requires r in c.runs && Under(r, env.runID)
    ensures Walks(w, c, wf, env, r)
    decreases wf
  {
    hide Tree, WalkedTo, Walked, Under, Walks;
    if r == env.runID {
      WalksItself(w, c, wf, env, name, input, outputs, o);
    } else {
      var s := NestedStep(c, calls, wf, env, r);
      var n := WalkedSteps(w, c, wf, env, name, input, outputs, o);
      var k, inner, ended := NestedWalks(w, c, wf, env, n, outputs, s);
      var sub := s.workflow.wf;
      var given := w.subInput(env.runID, s.id, GivenTo(outputs, wf, k)).value;
      SubEnvIsBelow(env, s);
      EveryRunWalks(w, c, calls, sub, SubEnv(env, s), sub.name, given, inner, ended, r);
      WalksFurther(w, c, wf, env, s, r);
    }
  }

  lemma WalkedSteps(w: World, c: Contents, wf: Workflow, env: Env, name: string, input: Object, outputs: Outputs, o: F.Outcome)
    returns (n: nat)
    requires Walked(w, c, wf, env, name, input, outputs, o)
    ensures WalkedTo(w, c, wf, env, n, outputs)
  {
    n :| WalkedTo(w, c, wf, env, n, outputs);
  }

  lemma WalksItself(w: World, c: Contents, wf: Workflow, env: Env, name: string, input: Object, outputs: Outputs, o: F.Outcome)
    requires Walked(w, c, wf, env, name, input, outputs, o)
    ensures Walks(w, c, wf, env, env.runID)
  {
    hide Walked;
    assert Within(wf, env, wf, env);
  }

  lemma WalksFurther(w: World, c: Contents, wf: Workflow, env: Env, s: PipelineStep, r: string)
    requires s in wf.pipeline && s.workflow.Resolved? && Walks(w, c, s.workflow.wf, Below(env, s.workflow.wf, s), r)
    ensures Walks(w, c, wf, env, r)
  {
    hide Walked;
    var sub: Workflow, inner: Env, name, input, outputs, o :|
      && inner.runID == r && Within(s.workflow.wf, Below(env, s.workflow.wf, s), sub, inner)
      && Walked(w, c, sub, inner, name, input, outputs, o);
    assert Within(wf, env, sub, inner);
  }

  /**
   * Every run that is created, the one started and those nested in it at any depth, was opened with
   * its payload, gave each of its steps the outputs of those before it, and stored what their
   * answers call for.
   */
  lemma EveryNewRunWalks(w: World, env: Env, wf: Workflow, name: string, input: Object, store: Contents, calls: seq<Call>, r: string)
    requires WellNamed(wf) && Fresh(store, calls, env.runID)
    ensures
      var e := RunPipeline(w, env, wf, name, input, store, calls);
      r in e.store.runs && r !in store.runs ==> Walks(w, e.store, wf, env, r)
  {
    hide Walked, Tree, WellNamed, Fresh;
    RunnerGuarantees.FailFast(w, env, wf, name, input, store, calls);
    var outputs := PipelineWalks(w, env, wf, name, input, store, calls);
    var e := RunPipeline(w, env, wf, name, input, store, calls);
    if r in e.store.runs && r !in store.runs {
      RunnerGuarantees.NewIsUnder(store, e.store, env.runID, r);
      EveryRunWalks(w, e.store, e.calls, wf, env, name, input, outputs, e.outcome, r);
    }
  }

  /** A webhook that may fire does so unless its condition is false; one that may not is skipped. */
  ghost predicate FiresIf(w: World, may: bool, runID: string, hook: PipelineStep, before: Outputs, rec: Step, entry: Option<Object>) {
    if !may then PassedOver(rec) && rec.metrics == ZERO && entry == Some(map["suppressed" := Bool(true)])
    else if hook.condition && !w.condition(runID, hook.id, before) then PassedOver(rec) && rec.metrics == ZERO
    else exists o :: Yields(o, w.webhook(runID, hook.id, before)) && Stands(rec, hook, o, entry)
  }

  lemma HookFlows(w: World, c: Contents, wf: Workflow, env: Env, hook: PipelineStep, before: Outputs, entry: Option<Object>)
    requires hook in wf.pipeline && hook.workflow == NoWorkflow && hook.webhook && !hook.transform && !env.root
    requires StepFlows(w, c, wf, env, hook, before, entry)
    ensures
      FiresIf(w, !env.suppress, env.runID, hook, before, StepsOf(c, env.runID)[hook.id], entry)
  {
    hide Stands, Yields;
    if !env.suppress && !(hook.condition && !w.condition(env.runID, hook.id, before)) {
      var o :| Answered(w, c, wf, env, hook, before, o) && Stands(StepsOf(c, env.runID)[hook.id], hook, o, entry);
      assert Yields(o, w.webhook(env.runID, hook.id, before));
    }
  }

  /**
   * A webhook step of a nested run fires, if its condition allows it, exactly when both the nested
   * workflow and the step that starts it say so; otherwise it is skipped at no cost, whatever its
   * condition says.
   */
  lemma WebhooksFireExactly(w: World, c: Contents, wf: Workflow, env: Env, s: PipelineStep, n: nat, outputs: Outputs, hook: PipelineStep)
    returns (k: nat)
    requires s in wf.pipeline && s.workflow.Resolved? && hook in s.workflow.wf.pipeline
    requires hook.workflow == NoWorkflow && hook.webhook && !hook.transform
    requires WalkedTo(w, c, s.workflow.wf, Below(env, s.workflow.wf, s), n, outputs)
    requires hook.id in StepsOf(c, env.runID + "/" + s.id)
    ensures k < |Order(Nodes(s.workflow.wf))| && Order(Nodes(s.workflow.wf))[k] == hook.id
    ensures
      var sub := env.runID + "/" + s.id;
      FiresIf(w, s.workflow.wf.executesWebhooks && s.executesWebhooks, sub, hook, GivenTo(outputs, s.workflow.wf, k),
              StepsOf(c, sub)[hook.id], Entry(outputs, hook.id))
  {
    hide WalkedTo, FiresIf, StepFlows;
    var sub := Below(env, s.workflow.wf, s);
    k := PlaceOf(w, c, s.workflow.wf, sub, n, outputs, hook);
    HookFlows(w, c, s.workflow.wf, sub, hook, GivenTo(outputs, s.workflow.wf, k), Entry(outputs, hook.id));
  }
}
