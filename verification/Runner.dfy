/** The runner of internal/orchestrator/runner/runner.go: it drives workflows over the in-memory store. */
module Runner {
  import opened Wrappers
  import opened Values
  import opened Metrics
  import opened Types
  import opened Reserved
  import opened Graphs
  import opened CycleDetection
  import opened Layering
  import opened LayerOrder
  import opened MemStore
  import Dag
  import F = Fanout
  import S = RunnerSpec

  // ---- records stay ----

  /** No run and no step record is ever removed. */
  ghost predicate Kept(c: Contents, d: Contents) {
    && c.runs.Keys <= d.runs.Keys
    && forall r, id :: id in StepsOf(c, r) ==> id in StepsOf(d, r)
  }

  lemma StoredKeeps(c: Contents, run: Run, rec: Step)
    ensures Kept(c, WithStep(c, rec)) && Kept(c, WithRun(c, run)) && Kept(c, WithRun(WithStep(c, rec), run))
  {
  }

  lemma FailKeeps(run: Run, rec: Step, e: string, p: S.Progress)
    ensures Kept(p.store, S.FailStep(run, rec, e, p).store)
  {
    StoredKeeps(p.store, run.(status := RunFailed, error := e), rec.(status := Failed, error := e));
  }

  lemma DeliverKeeps(run: Run, step: S.PipelineStep, rec: Step, output: Object, p: S.Progress)
    ensures Kept(p.store, S.Deliver(run, step, rec, output, p).store)
  {
    match ProcessReservedFields(output, step.threshold)
    case Reject(e) => FailKeeps(run, rec, e, p);
    case Skip(_, _) => StoredKeeps(p.store, run, rec.(status := Skipped));
    case Keep(clean) =>
      FailKeeps(run, rec, "output missing required field", p);
      StoredKeeps(p.store, run, rec.(status := Complete, output := Some(clean)));
  }

  lemma ConcludeKeeps(run: Run, step: S.PipelineStep, rec: Step, o: F.Outcome, p: S.Progress)
    ensures Kept(p.store, S.Conclude(run, step, rec, o, p).store)
  {
    if o.error.Some? {
      FailKeeps(run, rec, o.error.value, p);
    } else {
      StoredKeeps(p.store, run, rec.(status := Skipped));
      DeliverKeeps(run, step, rec, o.output, p);
    }
  }

  lemma {:induction false} BodyKeeps(w: S.World, env: S.Env, wf: S.Workflow, step: S.PipelineStep, p: S.Progress)
    requires step in wf.pipeline
    ensures Kept(p.store, S.ExecuteBody(w, env, wf, step, p).store)
    decreases wf, 0, 1
  {
    if S.Kind(step, env.root) == SubWorkflow && step.workflow.Resolved? {
      var input := w.subInput(env.runID, step.id, p.outputs);
      if input.Ok? {
        var sub := step.workflow.wf;
        PipelineKeeps(w, S.SubEnv(env, step), sub, sub.name, input.value, p.store, p.calls);
      }
    }
  }

  lemma {:induction false} StepKeeps(w: S.World, env: S.Env, wf: S.Workflow, run: Run, step: S.PipelineStep, p: S.Progress)
    requires step in wf.pipeline
    ensures Kept(p.store, S.RunStep(w, env, wf, run, step, p).store)
    decreases wf, 0, 3
  {
    var rec := S.NewRecord(env, step);
    var p1 := p.(store := WithStep(p.store, rec));
    StoredKeeps(p.store, run, rec);
    StoredKeeps(p.store, run, rec.(status := Skipped));
    StoredKeeps(p1.store, run, rec.(status := Skipped));
    if !S.Suppressed(env, step) && !(step.condition && !w.condition(env.runID, step.id, p.outputs)) {
      var r := S.ExecuteBody(w, env, wf, step, p1);
      BodyKeeps(w, env, wf, step, p1);
      ConcludeKeeps(run, step, rec.(metrics := r.outcome.metrics), r.outcome, S.AfterBody(r, p1));
    }
  }

  lemma {:induction false} StepsKeep(w: S.World, env: S.Env, wf: S.Workflow, run: Run, order: seq<string>, p: S.Progress)
    requires forall id :: id in order ==> id in S.StepByID(wf.pipeline)
    ensures Kept(p.store, S.RunSteps(w, env, wf, run, order, p).store)
    decreases wf, 1, |order|
  {
    if order != [] && p.halt.None? {
      var step := S.StepByID(wf.pipeline)[order[0]];
      StepKeeps(w, env, wf, run, step, p);
      StepsKeep(w, env, wf, run, order[1..], S.RunStep(w, env, wf, run, step, p));
    }
  }

  lemma {:induction false} PipelineKeeps(w: S.World, env: S.Env, wf: S.Workflow, name: string, input: Object, store: Contents, calls: seq<S.Call>)
    ensures Kept(store, S.RunPipeline(w, env, wf, name, input, store, calls).store)
    decreases wf, 2, 0
  {
    var run := S.NewRun(env, name, input);
    var none := Step("", "", Agent, Running, "", None, ZERO);
    StoredKeeps(store, run, none);
    if env.runID !in store.runs && !HasCycle(Adjacency(S.Nodes(wf))) {
      S.OrderDeclared(wf);
      var p := S.Begin(run, store, calls);
      StepsKeep(w, env, wf, run, Order(S.Nodes(wf)), p);
      var q := S.RunSteps(w, env, wf, run, Order(S.Nodes(wf)), p);
      StoredKeeps(q.store, run.(status := RunComplete), none);
    }
  }

  // ---- what is left of the order ----

  lemma WholeLayer(layer: seq<string>, rest: seq<string>)
    ensures layer[0..] + rest == layer + rest && layer[|layer|..] + rest == rest
  {
  }

  lemma NextOfLayer(layer: seq<string>, j: nat, rest: seq<string>)
    requires j < |layer|
    ensures (layer[j..] + rest)[0] == layer[j] && (layer[j..] + rest)[1..] == layer[j + 1..] + rest
  {
  }

  lemma NextLayer(layers: seq<seq<string>>, i: nat)
    requires i < |layers|
    ensures Flatten(layers[i..]) == layers[i] + Flatten(layers[i + 1..])
  {
    assert layers[i..][1..] == layers[i + 1..];
  }

  /** `remaining` is what is left of the order at the moment `p`. */
  ghost predicate Left(w: S.World, env: S.Env, wf: S.Workflow, run: Run, end: S.Progress, remaining: seq<string>, p: S.Progress) {
    && run.id in p.store.runs
    && (forall id :: id in remaining ==> id in S.StepByID(wf.pipeline))
    && S.RunSteps(w, env, wf, run, remaining, p) == end
  }

  lemma LeftNext(w: S.World, env: S.Env, wf: S.Workflow, run: Run, end: S.Progress, remaining: seq<string>, p: S.Progress, q: S.Progress)
    requires Left(w, env, wf, run, end, remaining, p) && remaining != [] && p.halt.None?
    requires q == S.RunStep(w, env, wf, run, S.StepByID(wf.pipeline)[remaining[0]], p)
    ensures q.halt.None? ==> Left(w, env, wf, run, end, remaining[1..], q)
    ensures q.halt.Some? ==> end == q
  {
    StepKeeps(w, env, wf, run, S.StepByID(wf.pipeline)[remaining[0]], p);
    assert end == S.RunSteps(w, env, wf, run, remaining[1..], q);
  }

  lemma LeftNothing(w: S.World, env: S.Env, wf: S.Workflow, run: Run, end: S.Progress, remaining: seq<string>, p: S.Progress)
    requires Left(w, env, wf, run, end, remaining, p) && remaining == []
    ensures end == p
  {
  }

  /** The runner: the store it writes to, the world it calls, and the dispatcher calls it has made. */
  class Runner {
    const store: MemStore
    const world: S.World
    var calls: seq<S.Call>

    constructor (store: MemStore, world: S.World)
      ensures this.store == store && this.world == world && calls == []
    {
      this.store, this.world, calls := store, world, [];
    }

    /** `p` describes the present. */
    ghost predicate At(p: S.Progress, outputs: S.Outputs)
      reads this, store, store.Repr
    {
      store.Valid() && p.store == store.View() && p.calls == calls && p.outputs == outputs
    }

    // ---- agents ----

    method ExecuteAgent(runID: string, id: string, outputs: S.Outputs, ghost p: S.Progress) returns (o: F.Outcome)
      requires At(p, outputs)
      modifies this`calls
      ensures store.Valid() && S.Ran(o, store.View(), calls) == S.ExecuteAgent(world, runID, id, p)
      ensures store.View() == old(store.View())
    {
      if !world.dispatches {
        return F.Outcome(map["stubbed" := Bool(true)], ZERO, None);
      }
      var err := world.agentParams(runID, id, outputs);
      if err.Some? {
        return S.Failure(err.value);
      }
      var r := world.dispatch(runID, id, outputs);
      calls := calls + [S.Call(runID, id, r.metrics)];
      return F.Outcome(r.output, r.metrics, r.error);
    }

    /** One dispatch per item; `Fanout` shows that their interleaving does not matter. */
    method DispatchItems(runID: string, id: string, n: nat, outputs: S.Outputs) returns (results: array<F.ItemResult>)
      modifies this`calls
      ensures fresh(results) && results[..] == S.Replies(world, runID, id, n, outputs)
      ensures calls == old(calls) + S.ItemCalls(runID, id, results[..])
    {
      results := new F.ItemResult[n](i => F.ItemResult(map[], ZERO, None));
      ghost var replies := S.Replies(world, runID, id, n, outputs);
      for i := 0 to n
        invariant results[..i] == replies[..i]
        invariant calls == old(calls) + S.ItemCalls(runID, id, replies[..i])
      {
        var r := world.dispatchItem(runID, id, i, outputs);
        results[i] := r;
        calls := calls + [S.Call(runID, id, r.metrics)];
        assert S.ItemCalls(runID, id, replies[..i + 1]) == S.ItemCalls(runID, id, replies[..i]) + [S.Call(runID, id, r.metrics)];
      }
      assert replies[..n] == replies;
    }

    method ExecuteFanout(runID: string, id: string, spec: S.ForEach, outputs: S.Outputs, ghost p: S.Progress) returns (o: F.Outcome)
      requires At(p, outputs)
      modifies this`calls
      ensures store.Valid() && S.Ran(o, store.View(), calls) == S.ExecuteFanout(world, runID, id, spec, p)
      ensures store.View() == old(store.View())
    {
      if !world.dispatches {
        return S.NO_RESULTS;
      }
      var items := world.items(runID, id, outputs);
      if items.Err? {
        return S.Failure(items.error);
      }
      var n := S.Truncated(items.value, spec.maxItems);
      if n == 0 {
        return S.NO_RESULTS;
      }
      var results := DispatchItems(runID, id, n, outputs);
      o := F.Collect(results, spec.maxFailures);
    }

    // ---- the store ----

    /** The store has a record of the run and of the step. */
    ghost predicate Holds(run: Run, rec: Step)
      requires store.Valid()
      reads this, store, store.Repr
    {
      run.id in store.View().runs && rec.id in StepsOf(store.View(), rec.runID)
    }

    method SaveStep(rec: Step)
      requires store.Valid() && rec.id in StepsOf(store.View(), rec.runID)
      modifies store
      ensures store.Valid()
      ensures store.View() == WithStep(old(store.View()), rec)
    {
      var mine := new Ref(rec);
      var ok := store.UpdateStep(mine);
    }

    method SaveRun(run: Run)
      requires store.Valid() && run.id in store.View().runs
      modifies store
      ensures store.Valid()
      ensures store.View() == WithRun(old(store.View()), run)
    {
      var mine := new Ref(run);
      var ok := store.UpdateRun(mine);
    }

    // ---- settling a step ----

    method FailRun(run: Run, rec: Step, e: string, ghost p: S.Progress)
      requires store.Valid() && Holds(run, rec) && p.store == store.View()
      modifies store
      ensures store.Valid()
      ensures store.View() == S.FailStep(run, rec, e, p).store
    {
      SaveStep(rec.(status := Failed, error := e));
      SaveRun(run.(status := RunFailed, error := e));
    }

    /** What the local variables and the store say after a step. */
    ghost function Now(outputs: S.Outputs, final: Option<Object>, agg: Metrics, halt: Option<string>): S.Progress
      requires store.Valid()
      reads this, store, store.Repr
    {
      S.Progress(store.View(), calls, outputs, final, agg, halt)
    }

    /** A step whose output is neither an error nor skipped. */
    method Deliver(run: Run, step: S.PipelineStep, rec: Step, output: Object,
                   outputs: S.Outputs, final: Option<Object>, ghost p: S.Progress)
      returns (outputs': S.Outputs, final': Option<Object>, halt: Option<string>)
      requires store.Valid() && Holds(run, rec) && p == Now(outputs, final, p.agg, None)
      modifies store
      ensures store.Valid()
      ensures Now(outputs', final', p.agg, halt) == S.Deliver(run, step, rec, output, p)
    {
      hide Airlock, ProcessReservedFields;
      outputs', final', halt := outputs, final, None;
      match ProcessReservedFields(output, step.threshold)
      case Reject(e) =>
        halt := Some(e);
        FailRun(run, rec, e, p);
      case Skip(clean, _) =>
        outputs' := outputs[rec.id := clean];
        SaveStep(rec.(status := Skipped));
      case Keep(clean) =>
        if !Airlock(clean, step.required) {
          halt := Some("output missing required field");
          FailRun(run, rec, "output missing required field", p);
        } else {
          outputs' := outputs[rec.id := clean];
          final' := Some(clean);
          SaveStep(rec.(status := Complete, output := Some(clean)));
        }
    }

    method Conclude(run: Run, step: S.PipelineStep, rec: Step, o: F.Outcome,
                    outputs: S.Outputs, final: Option<Object>, ghost p: S.Progress)
      returns (outputs': S.Outputs, final': Option<Object>, halt: Option<string>)
      requires store.Valid() && Holds(run, rec) && p == Now(outputs, final, p.agg, None)
      modifies store
      ensures store.Valid()
      ensures Now(outputs', final', p.agg, halt) == S.Conclude(run, step, rec, o, p)
    {
      outputs', final', halt := outputs, final, None;
      if o.error.Some? {
        halt := o.error;
        FailRun(run, rec, o.error.value, p);
      } else if Flagged(o.output, "skipped") {
        outputs' := outputs[rec.id := o.output];
        SaveStep(rec.(status := Skipped));
      } else {
        outputs', final', halt := Deliver(run, step, rec, o.output, outputs, final, p);
      }
    }

    // ---- bodies, steps and runs ----

    method ExecuteWorkflow(env: S.Env, wf: S.Workflow, step: S.PipelineStep, outputs: S.Outputs, ghost p: S.Progress) returns (o: F.Outcome)
      requires At(p, outputs) && step in wf.pipeline && step.workflow != S.NoWorkflow
      modifies this`calls, store
      ensures store.Valid()
      ensures S.Ran(o, store.View(), calls) == S.ExecuteWorkflow(world, env, wf, step, p)
      decreases wf, 0, 0
    {
      if step.workflow.Unresolved? {
        return S.Failure("workflow step: resolve");
      }
      var input := world.subInput(env.runID, step.id, outputs);
      if input.Err? {
        return S.Failure(input.error);
      }
      var sub := step.workflow.wf;
      o := RunPipeline(S.SubEnv(env, step), sub, sub.name, input.value);
      if o.error.Some? {
        return S.Failure("sub-workflow failed: " + o.error.value);
      }
    }

    method ExecuteBody(env: S.Env, wf: S.Workflow, step: S.PipelineStep, outputs: S.Outputs, ghost p: S.Progress) returns (o: F.Outcome)
      requires At(p, outputs) && step in wf.pipeline
      modifies this`calls, store
      ensures store.Valid()
      ensures S.Ran(o, store.View(), calls) == S.ExecuteBody(world, env, wf, step, p)
      decreases wf, 0, 1
    {
      match S.Kind(step, env.root)
      case Transform =>
        o := S.FromResult(world.transform(env.runID, step.id, outputs));
      case Webhook =>
        o := S.FromResult(world.webhook(env.runID, step.id, outputs));
      case SubWorkflow =>
        o := ExecuteWorkflow(env, wf, step, outputs, p);
      case Agent =>
        if step.forEach.Some? {
          o := ExecuteFanout(env.runID, step.id, step.forEach.value, outputs, p);
        } else {
          o := ExecuteAgent(env.runID, step.id, outputs, p);
        }
    }

    method AddStep(rec: Step) returns (ok: bool)
      requires store.Valid()
      modifies store
      ensures store.Valid()
      ensures ok == (rec.id !in StepsOf(old(store.View()), rec.runID))
      ensures store.View() == if ok then WithStep(old(store.View()), rec) else old(store.View())
    {
      var mine := new Ref(rec);
      ok := store.CreateStep(mine);
    }

    /** A step whose body is executed: its record is already stored. */
    method ExecuteStep(env: S.Env, wf: S.Workflow, run: Run, step: S.PipelineStep,
                       outputs: S.Outputs, final: Option<Object>, agg: Metrics, ghost p: S.Progress)
      returns (outputs': S.Outputs, final': Option<Object>, agg': Metrics, halt: Option<string>)
      requires store.Valid() && step in wf.pipeline && run.id == env.runID
      requires p == Now(outputs, final, agg, None) && Holds(run, S.NewRecord(env, step))
      modifies this`calls, store
      ensures store.Valid()
      ensures
        var r := S.ExecuteBody(world, env, wf, step, p);
        Now(outputs', final', agg', halt)
          == S.Conclude(run, step, S.NewRecord(env, step).(metrics := r.outcome.metrics), r.outcome, S.AfterBody(r, p))
      decreases wf, 0, 2
    {
      ghost var r := S.ExecuteBody(world, env, wf, step, p);
      BodyKeeps(world, env, wf, step, p);
      var o := ExecuteBody(env, wf, step, outputs, p);
      agg' := agg.Plus(o.metrics);
      outputs', final', halt := Conclude(run, step, S.NewRecord(env, step).(metrics := o.metrics), o, outputs, final, S.AfterBody(r, p));
    }

    /** A step that is not suppressed, once its record is stored. */
    method TakeStep(env: S.Env, wf: S.Workflow, run: Run, step: S.PipelineStep,
                    outputs: S.Outputs, final: Option<Object>, agg: Metrics, ghost p: S.Progress)
      returns (outputs': S.Outputs, final': Option<Object>, agg': Metrics, halt: Option<string>)
      requires store.Valid() && step in wf.pipeline && run.id == env.runID && !S.Suppressed(env, step)
      requires step.id !in StepsOf(p.store, env.runID) && run.id in p.store.runs
      requires p.(store := WithStep(p.store, S.NewRecord(env, step))) == Now(outputs, final, agg, None)
      modifies this`calls, store
      ensures store.Valid()
      ensures Now(outputs', final', agg', halt) == S.RunStep(world, env, wf, run, step, p)
      decreases wf, 0, 3
    {
      outputs', final', agg', halt := outputs, final, agg, None;
      if step.condition && !world.condition(env.runID, step.id, outputs) {
        SaveStep(S.NewRecord(env, step).(status := Skipped));
        outputs' := outputs[step.id := map["skipped" := Bool(true), "reason" := Str("condition_false")]];
      } else {
        outputs', final', agg', halt := ExecuteStep(env, wf, run, step, outputs, final, agg, Now(outputs, final, agg, None));
      }
    }

    /** One step of the run's order. */
    method RunStep(env: S.Env, wf: S.Workflow, run: Run, step: S.PipelineStep,
                   outputs: S.Outputs, final: Option<Object>, agg: Metrics, ghost p: S.Progress)
      returns (outputs': S.Outputs, final': Option<Object>, agg': Metrics, halt: Option<string>)
      requires store.Valid() && step in wf.pipeline && run.id == env.runID
      requires p == Now(outputs, final, agg, None) && run.id in store.View().runs
      modifies this`calls, store
      ensures store.Valid()
      ensures Now(outputs', final', agg', halt) == S.RunStep(world, env, wf, run, step, p)
      ensures step.id in StepsOf(p.store, env.runID) ==>
        halt == Some("create step " + step.id) && store.View() == old(store.View()) && calls == old(calls)
      decreases wf, 0, 4
    {
      outputs', final', agg', halt := outputs, final, agg, None;
      var suppressed := S.Suppressed(env, step);
      var rec := S.NewRecord(env, step);
      var ok := AddStep(if suppressed then rec.(status := Skipped) else rec);
      if !ok {
        halt := Some("create step " + step.id);
      } else if suppressed {
        outputs' := outputs[step.id := map["suppressed" := Bool(true)]];
      } else {
        outputs', final', agg', halt := TakeStep(env, wf, run, step, outputs, final, agg, p);
      }
    }

    method AddRun(run: Run) returns (ok: bool)
      requires store.Valid()
      modifies store
      ensures store.Valid()
      ensures ok == (run.id !in old(store.View()).runs)
      ensures store.View() == if ok then WithRun(old(store.View()), run) else old(store.View())
    {
      var mine := new Ref(run);
      ok := store.CreateRun(mine);
    }

    /** The next step; `end` is where the whole order leads. */
    method RunNext(env: S.Env, wf: S.Workflow, run: Run, id: string, ghost remaining: seq<string>, ghost end: S.Progress,
                   outputs: S.Outputs, final: Option<Object>, agg: Metrics)
      returns (outputs': S.Outputs, final': Option<Object>, agg': Metrics, halt: Option<string>)
      requires store.Valid() && run.id == env.runID && remaining != [] && remaining[0] == id
      requires Left(world, env, wf, run, end, remaining, Now(outputs, final, agg, None))
      modifies this`calls, store
      ensures store.Valid()
      ensures halt.None? ==> Left(world, env, wf, run, end, remaining[1..], Now(outputs', final', agg', None))
      ensures halt.Some? ==> end == Now(outputs', final', agg', halt)
      decreases wf, 0, 5
    {
      ghost var p := Now(outputs, final, agg, None);
      outputs', final', agg', halt := RunStep(env, wf, run, S.StepByID(wf.pipeline)[id], outputs, final, agg, p);
      LeftNext(world, env, wf, run, end, remaining, p, Now(outputs', final', agg', halt));
    }

    /** The steps of one layer; `end` is where the whole order leads. */
    method RunLayer(env: S.Env, wf: S.Workflow, run: Run, layer: seq<string>, ghost rest: seq<string>, ghost end: S.Progress,
                    outputs: S.Outputs, final: Option<Object>, agg: Metrics)
      returns (outputs': S.Outputs, final': Option<Object>, agg': Metrics, halt: Option<string>)
      requires store.Valid() && run.id == env.runID
      requires Left(world, env, wf, run, end, layer + rest, Now(outputs, final, agg, None))
      modifies this`calls, store
      ensures store.Valid()
      ensures halt.None? ==> Left(world, env, wf, run, end, rest, Now(outputs', final', agg', None))
      ensures halt.Some? ==> end == Now(outputs', final', agg', halt)
      decreases wf, 1, 0
    {
      outputs', final', agg', halt := outputs, final, agg, None;
      WholeLayer(layer, rest);
      for j := 0 to |layer|
        invariant store.Valid() && halt.None?
        invariant Left(world, env, wf, run, end, layer[j..] + rest, Now(outputs', final', agg', None))
      {
        NextOfLayer(layer, j, rest);
        outputs', final', agg', halt := RunNext(env, wf, run, layer[j], layer[j..] + rest, end, outputs', final', agg');
        if halt.Some? {
          return;
        }
      }
    }

    /** All layers in turn. */
    method RunLayers(env: S.Env, wf: S.Workflow, run: Run, layers: seq<seq<string>>, ghost end: S.Progress)
      returns (outputs: S.Outputs, final: Option<Object>, agg: Metrics, halt: Option<string>)
      requires store.Valid() && run.id == env.runID
      requires Left(world, env, wf, run, end, Flatten(layers), Now(map[], None, ZERO, None))
      modifies this`calls, store
      ensures store.Valid()
      ensures end == Now(outputs, final, agg, halt)
      ensures halt.None? ==> run.id in store.View().runs
      decreases wf, 1, 1
    {
      outputs, final, agg, halt := map[], None, ZERO, None;
      assert layers[0..] == layers;
      for i := 0 to |layers|
        invariant store.Valid() && halt.None?
        invariant Left(world, env, wf, run, end, Flatten(layers[i..]), Now(outputs, final, agg, None))
      {
        NextLayer(layers, i);
        outputs, final, agg, halt := RunLayer(env, wf, run, layers[i], Flatten(layers[i + 1..]), end, outputs, final, agg);
        if halt.Some? {
          return;
        }
      }
      LeftNothing(world, env, wf, run, end, Flatten(layers[|layers|..]), Now(outputs, final, agg, None));
    }

    /**
     * One run from the creation of its record to its end: `Execute` for a root, and
     * `executeSubWorkflow` otherwise.
     */
    method RunPipeline(env: S.Env, wf: S.Workflow, name: string, input: Object) returns (o: F.Outcome)
      requires store.Valid()
      modifies this`calls, store
      ensures store.Valid()
      ensures S.Ended(o, store.View(), calls) == S.RunPipeline(world, env, wf, name, input, old(store.View()), old(calls))
      decreases wf, 2, 0
    {
      var run := S.NewRun(env, name, input);
      var ok := AddRun(run);
      if !ok {
        return S.Failure("create run");
      }
      var layers, err := Dag.Resolve(S.Nodes(wf));
      if err.Some? {
        return S.Failure("dag resolve");
      }
      o := RunOrder(env, wf, run, layers, S.Begin(run, old(store.View()), old(calls)));
    }

    method RunOrder(env: S.Env, wf: S.Workflow, run: Run, layers: seq<seq<string>>, ghost start: S.Progress) returns (o: F.Outcome)
      requires store.Valid() && run.id == env.runID && run.id in store.View().runs
      requires layers == Layers(S.Nodes(wf)) && start == Now(map[], None, ZERO, None)
      modifies this`calls, store
      ensures store.Valid()
      ensures forall id :: id in Order(S.Nodes(wf)) ==> id in S.StepByID(wf.pipeline)
      ensures S.Ended(o, store.View(), calls)
        == S.Finish(world, env, wf, run, S.RunSteps(world, env, wf, run, Order(S.Nodes(wf)), start))
      decreases wf, 1, 2
    {
      S.OrderDeclared(wf);
      ghost var end := S.RunSteps(world, env, wf, run, Order(S.Nodes(wf)), start);
      var outputs, final, agg, halt := RunLayers(env, wf, run, layers, end);
      o := Finish(env, wf, run, outputs, final, agg, halt, end);
    }

    /** After the last step, or the one that halted the run. */
    method Finish(env: S.Env, wf: S.Workflow, run: Run, outputs: S.Outputs, final: Option<Object>, agg: Metrics,
                  halt: Option<string>, ghost p: S.Progress)
      returns (o: F.Outcome)
      requires store.Valid() && p == Now(outputs, final, agg, halt) && (halt.None? ==> run.id in store.View().runs)
      modifies store
      ensures store.Valid() && S.Ended(o, store.View(), calls) == S.Finish(world, env, wf, run, p)
    {
      if halt.Some? {
        return S.Failure(halt.value);
      }
      var output: Object := map[];
      if wf.mapsOutput {
        output := world.outputMap(env.runID, outputs);
      } else if final.Some? {
        output := final.value;
      }
      SaveRun(run.(status := RunComplete));
      o := F.Outcome(output, agg, None);
    }

    /** Runs a root workflow; its output and metrics are only in the store. */
    method Execute(workflowName: string, runID: string, wf: S.Workflow, input: Object) returns (err: Option<string>)
      requires store.Valid()
      modifies this`calls, store
      ensures store.Valid()
      ensures
        var e := S.RunPipeline(world, S.Env(runID, true, false), wf, workflowName, input, old(store.View()), old(calls));
        err == e.outcome.error && store.View() == e.store && calls == e.calls
      ensures runID in old(store.View()).runs ==>
        err == Some("create run") && store.View() == old(store.View()) && calls == old(calls)
    {
      var o := RunPipeline(S.Env(runID, true, false), wf, workflowName, input);
      err := o.error;
    }
  }
}
