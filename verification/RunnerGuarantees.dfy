/** What the runner guarantees of any workflow, whatever its steps and its world do. */
module RunnerGuarantees {
  import opened Wrappers
  import opened Values
  import opened Metrics
  import opened Types
  import opened Reserved
  import opened Graphs
  import opened CycleDetection
  import opened Layering
  import opened LayerOrder
  import opened MemStore
  import opened RunnerSpec
  import opened RunTree
  import opened RunnerProperties
  import F = Fanout

  // ---- fail-fast ----

  /**
   * Fail-fast, at every nesting level: the run and every run nested in it has records for exactly a
   * prefix of its order, of which only the last may have failed; it is complete exactly when all
   * steps of the order have records and succeeded, failed when the last one failed, and left running
   * when there is no order. The run reports an error exactly when it is not complete.
   */
  lemma FailFast(w: World, env: Env, wf: Workflow, name: string, input: Object, store: Contents, calls: seq<Call>)
    requires WellNamed(wf) && Fresh(store, calls, env.runID)
    ensures
      var e := RunPipeline(w, env, wf, name, input, store, calls);
      && Tree(e.store, e.calls, wf, env)
      && (e.outcome.error.None? <==> IsComplete(e.store, env.runID))
      && SameOutside(store, e.store, env.runID)
  {
    var added := PipelineEffect(w, env, wf, name, input, store, calls);
  }

  lemma NewIsUnder(c: Contents, d: Contents, root: string, r: string)
    requires SameOutside(c, d, root) && r in d.runs && r !in c.runs
    ensures Under(r, root)
  {
    assert !Under(r, root) ==> SameRun(c, d, r);
  }

  /** A run is complete only if every run created under it is complete, at any depth. */
  lemma CompleteMeansAllComplete(w: World, env: Env, wf: Workflow, name: string, input: Object, store: Contents, calls: seq<Call>, r: string)
    requires WellNamed(wf) && Fresh(store, calls, env.runID)
    ensures
      var e := RunPipeline(w, env, wf, name, input, store, calls);
      IsComplete(e.store, env.runID) && r in e.store.runs && r !in store.runs ==> IsComplete(e.store, r)
  {
    FailFast(w, env, wf, name, input, store, calls);
    var e := RunPipeline(w, env, wf, name, input, store, calls);
    if IsComplete(e.store, env.runID) && r in e.store.runs && r !in store.runs {
      NewIsUnder(store, e.store, env.runID, r);
      CompleteThroughout(e.store, e.calls, wf, env, r);
    }
  }

  /**
   * Completeness, at every nesting level: a complete run has the record of a pipeline step exactly
   * when everything the step transitively depends on is declared.
   */
  lemma CompleteRunHasEveryStep(c: Contents, calls: seq<Call>, wf: Workflow, env: Env, s: PipelineStep)
    requires WellNamed(wf) && Tree(c, calls, wf, env) && IsComplete(c, env.runID) && s in wf.pipeline
    ensures s.id in StepsOf(c, env.runID) <==> ClosureDeclared(Dependencies(Nodes(wf)), s.id)
  {
    var n := CompleteCount(c, calls, wf, env.runID);
    var order := Order(Nodes(wf));
    assert order[..n] == order;
    OrderIsComplete(Nodes(wf), s.id);
  }

  lemma CompleteCount(c: Contents, calls: seq<Call>, wf: Workflow, runID: string) returns (n: nat)
    requires RunLevel(c, calls, wf, runID) && IsComplete(c, runID)
    ensures n == |Order(Nodes(wf))| && !Cyclic(wf) && Prefix(StepsOf(c, runID), Order(Nodes(wf)), n)
  {
    n :| LevelAt(c, calls, wf, runID, n);
  }

  // ---- dependencies ----

  lemma DependsOn(wf: Workflow, id: string)
    requires UniqueIds(Nodes(wf)) && id in StepByID(wf.pipeline)
    ensures AllDeps(Nodes(wf), id) == StepByID(wf.pipeline)[id].dependsOn
  {
    var s := StepByID(wf.pipeline)[id];
    var i :| 0 <= i < |wf.pipeline| && wf.pipeline[i] == s;
    assert Nodes(wf)[i] in Nodes(wf);
    OnlyDeclaration(Nodes(wf), Nodes(wf)[i]);
  }

  lemma {:induction false} StepsSplit(w: World, env: Env, wf: Workflow, run: Run, a: seq<string>, b: seq<string>, p: Progress)
    requires forall id :: id in a + b ==> id in StepByID(wf.pipeline)
    requires forall id :: id in a ==> id in a + b
    requires forall id :: id in b ==> id in a + b
    ensures RunSteps(w, env, wf, run, a + b, p) == RunSteps(w, env, wf, run, b, RunSteps(w, env, wf, run, a, p))
    decreases |a|
  {
    if a == [] || p.halt.Some? {
      assert a == [] ==> a + b == b;
    } else {
      var rest := a[1..];
      assert (a + b)[1..] == rest + b;
      StepsSplit(w, env, wf, run, rest, b, RunStep(w, env, wf, run, StepByID(wf.pipeline)[a[0]], p));
    }
  }

  lemma SettledDependency(p: Progress, wf: Workflow, env: Env, run: Run, done: seq<string>, d: string)
    requires Inv(p, wf, env, run, done) && p.halt.None? && d in done
    ensures d in StepsOf(p.store, run.id) && Succeeded(StepsOf(p.store, run.id)[d])
    ensures d in p.outputs
    ensures StepsOf(p.store, run.id)[d].status == Complete ==> StepsOf(p.store, run.id)[d].output == Some(p.outputs[d])
  {
    var i :| 0 <= i < |done| && done[i] == d;
    assert i < |done| - 1 || i == |done| - 1;
  }

  /**
   * Whenever a run gets to its `i`-th step, that step has no record yet, and every step it depends
   * on has one that is complete or skipped. The outputs the step is about to be given are those of
   * exactly the steps before it, and a complete dependency's is the one its record holds.
   */
  lemma DependenciesSettled(w: World, env: Env, wf: Workflow, name: string, input: Object, store: Contents, calls: seq<Call>, i: nat)
    requires WellNamed(wf) && Fresh(store, calls, env.runID) && i < |Order(Nodes(wf))|
    ensures forall id :: id in Order(Nodes(wf)) ==> id in StepByID(wf.pipeline)
    ensures
      var (order, run) := (Order(Nodes(wf)), NewRun(env, name, input));
      var p := RunSteps(w, env, wf, run, order[..i], Begin(run, store, calls));
      && RunSteps(w, env, wf, run, order, Begin(run, store, calls)) == RunSteps(w, env, wf, run, order[i..], p)
      && (p.halt.None? ==>
            && order[i] !in StepsOf(p.store, env.runID)
            && (forall id :: id in p.outputs <==> id in order[..i])
            && forall d :: d in StepByID(wf.pipeline)[order[i]].dependsOn ==>
                 && d in StepsOf(p.store, env.runID) && Succeeded(StepsOf(p.store, env.runID)[d])
                 && d in p.outputs
                 && (StepsOf(p.store, env.runID)[d].status == Complete ==>
                       StepsOf(p.store, env.runID)[d].output == Some(p.outputs[d])))
  {
    var order, run := Order(Nodes(wf)), NewRun(env, name, input);
    OrderDeclared(wf);
    TakeDrop(order, i);
    StepsSplit(w, env, wf, run, order[..i], order[i..], Begin(run, store, calls));
    if RunSteps(w, env, wf, run, order[..i], Begin(run, store, calls)).halt.None? {
      PartialRun(w, env, wf, run, store, calls, i);
      SettledAt(RunSteps(w, env, wf, run, order[..i], Begin(run, store, calls)), wf, env, run, i);
    }
  }

  lemma TakeDrop(order: seq<string>, i: nat)
    requires i < |order|
    ensures order[..i] + order[i..] == order
    ensures forall id :: id in order[..i] || id in order[i..] ==> id in order
  {
  }

  lemma SettledAt(p: Progress, wf: Workflow, env: Env, run: Run, i: nat)
    requires WellNamed(wf) && i < |Order(Nodes(wf))| && Order(Nodes(wf))[i] in StepByID(wf.pipeline)
    requires Inv(p, wf, env, run, Order(Nodes(wf))[..i]) && p.halt.None?
    ensures forall id :: id in p.outputs <==> id in Order(Nodes(wf))[..i]
    ensures forall d :: d in StepByID(wf.pipeline)[Order(Nodes(wf))[i]].dependsOn ==>
      && d in StepsOf(p.store, run.id) && Succeeded(StepsOf(p.store, run.id)[d])
      && d in p.outputs
      && (StepsOf(p.store, run.id)[d].status == Complete ==> StepsOf(p.store, run.id)[d].output == Some(p.outputs[d]))
  {
    hide Books, Branches, Untouched, Covered, Delivered;
    var order := Order(Nodes(wf));
    forall d | d in StepByID(wf.pipeline)[order[i]].dependsOn
      ensures d in StepsOf(p.store, run.id) && Succeeded(StepsOf(p.store, run.id)[d])
      ensures d in p.outputs
      ensures StepsOf(p.store, run.id)[d].status == Complete ==> StepsOf(p.store, run.id)[d].output == Some(p.outputs[d])
    {
      DependsOn(wf, order[i]);
      DependenciesFirst(Nodes(wf), i, d);
      SettledDependency(p, wf, env, run, order[..i], d);
    }
  }

  lemma PartialRun(w: World, env: Env, wf: Workflow, run: Run, store: Contents, calls: seq<Call>, i: nat)
    requires WellNamed(wf) && run.id == env.runID && Fresh(store, calls, run.id) && i < |Order(Nodes(wf))|
    requires forall id :: id in Order(Nodes(wf)) ==> id in StepByID(wf.pipeline)
    requires RunSteps(w, env, wf, run, Order(Nodes(wf))[..i], Begin(run, store, calls)).halt.None?
    ensures Inv(RunSteps(w, env, wf, run, Order(Nodes(wf))[..i], Begin(run, store, calls)), wf, env, run, Order(Nodes(wf))[..i])
    ensures Order(Nodes(wf))[i] !in StepsOf(RunSteps(w, env, wf, run, Order(Nodes(wf))[..i], Begin(run, store, calls)).store, run.id)
  {
    var order := Order(Nodes(wf));
    OrderDistinct(Nodes(wf), 0);
    BeginInv(wf, env, run, store, calls);
    NothingAdded(order[..i], []);
    var m, done, added := AllSteps(w, env, wf, run, order[..i], Begin(run, store, calls), []);
    assert [] + order[..i][..i] == order[..i];
  }

  // ---- outputs ----

  /**
   * A complete run without an output map returns the output of the last step of its order that is
   * complete, steps skipped after it notwithstanding.
   */
  lemma ReturnsLastCompleteOutput(w: World, env: Env, wf: Workflow, name: string, input: Object, store: Contents, calls: seq<Call>)
    requires WellNamed(wf) && Fresh(store, calls, env.runID) && !wf.mapsOutput
    ensures
      var e := RunPipeline(w, env, wf, name, input, store, calls);
      IsComplete(e.store, env.runID) ==> e.outcome.output == OutputOf(StepsOf(e.store, env.runID), Order(Nodes(wf)))
  {
    var added := PipelineEffect(w, env, wf, name, input, store, calls);
  }

  /**
   * Wherever in the tree a step is complete, its stored output carries no reserved field and every
   * field its schema requires; a step that is skipped or failed stores none.
   */
  lemma CompleteOutputsAreAirLocked(c: Contents, calls: seq<Call>, wf: Workflow, env: Env, s: PipelineStep, k: string)
    requires Tree(c, calls, wf, env) && s in wf.pipeline && s.id in StepsOf(c, env.runID)
    ensures
      var rec := StepsOf(c, env.runID)[s.id];
      && (rec.output.Some? <==> rec.status == Complete)
      && (rec.status == Complete ==>
            && (k in rec.output.value ==> !(PREFIX <= k))
            && (k in s.required ==> k in rec.output.value))
  {
    assert Delivered(c, wf, env);
  }

  lemma NestedTree(c: Contents, calls: seq<Call>, wf: Workflow, env: Env, s: PipelineStep)
    requires s in wf.pipeline && Branch(c, calls, wf, env, s) && SubRunID(env.runID, s.id) in c.runs
    ensures s.workflow.Resolved? && Tree(c, calls, s.workflow.wf, SubEnv(env, s))
  {
  }

  lemma SuppressedIsSkipped(c: Contents, wf: Workflow, env: Env, hook: PipelineStep)
    requires Delivered(c, wf, env) && hook in wf.pipeline && hook.id in StepsOf(c, env.runID) && Suppressed(env, hook)
    ensures var rec := StepsOf(c, env.runID)[hook.id]; rec.status == Skipped && rec.metrics == ZERO && rec.output == None
  {
    assert RecordFits(StepsOf(c, env.runID)[hook.id], env, hook);
  }

  /**
   * Wherever in the tree a workflow step starts a nested run, the webhook steps of that run are
   * skipped, at no cost and with no output, unless both the nested workflow and the step that
   * starts it say that webhooks are to be executed.
   */
  lemma SuppressedWebhooksAreSkipped(c: Contents, calls: seq<Call>, wf: Workflow, env: Env, s: PipelineStep, hook: PipelineStep)
    requires s in wf.pipeline && Branch(c, calls, wf, env, s) && SubRunID(env.runID, s.id) in c.runs
    requires s.workflow.Resolved? && hook in s.workflow.wf.pipeline
    requires hook.workflow == NoWorkflow && hook.webhook && !hook.transform
    requires hook.id in StepsOf(c, SubRunID(env.runID, s.id))
    requires !(s.workflow.wf.executesWebhooks && s.executesWebhooks)
    ensures
      var rec := StepsOf(c, SubRunID(env.runID, s.id))[hook.id];
      rec.status == Skipped && rec.metrics == ZERO && rec.output == None
  {
    NestedTree(c, calls, wf, env, s);
    SuppressedIsSkipped(c, s.workflow.wf, SubEnv(env, s), hook);
  }

  // ---- conservation ----

  /** All that the given dispatcher calls cost. */
  function Cost(calls: seq<Call>): Metrics {
    Sum(seq(|calls|, (i: nat) requires i < |calls| => calls[i].metrics))
  }

  lemma {:induction false} CostIsSpent(calls: seq<Call>, root: string)
    requires AllUnder(calls, root)
    ensures Spent(calls, root) == Cost(calls)
  {
    if calls != [] {
      var n := |calls| - 1;
      assert calls[n] in calls;
      CostIsSpent(calls[..n], root);
      var all := seq(|calls|, (i: nat) requires i < |calls| => calls[i].metrics);
      assert all[..n] == seq(|calls[..n]|, (i: nat) requires i < |calls[..n]| => calls[..n][i].metrics);
    }
  }

  /**
   * Conservation over the run tree: the envelope totals of a complete run are the sum over every
   * dispatcher call made for it, fanout items and nested workflows at any depth included.
   */
  lemma Conservation(w: World, env: Env, wf: Workflow, name: string, input: Object, store: Contents, calls: seq<Call>)
    requires WellNamed(wf) && Fresh(store, calls, env.runID)
    ensures
      var e := RunPipeline(w, env, wf, name, input, store, calls);
      && calls <= e.calls
      && (IsComplete(e.store, env.runID) ==> TotalOf(StepsOf(e.store, env.runID)) == Cost(e.calls[|calls|..]))
  {
    var added := PipelineEffect(w, env, wf, name, input, store, calls);
    var e := RunPipeline(w, env, wf, name, input, store, calls);
    assert e.calls[|calls|..] == added;
    NewCallsCost(calls, added, env.runID);
  }

  lemma NewCallsCost(calls: seq<Call>, added: seq<Call>, root: string)
    requires NoneUnder(calls, root) && AllUnder(added, root)
    ensures Spent(calls + added, root) == Cost(added)
  {
    SpentConcat(calls, added, root);
    SpentNone(calls, root);
    ZeroPlus(Spent(added, root));
    CostIsSpent(added, root);
  }

  /**
   * In a tree, a complete run has spent exactly its totals, and the totals of each of its sub-runs
   * are the metrics of the step that started it.
   */
  lemma TotalsHandedUp(c: Contents, calls: seq<Call>, wf: Workflow, env: Env, s: PipelineStep)
    requires Tree(c, calls, wf, env) && IsComplete(c, env.runID) && s in wf.pipeline
    ensures SubRunID(env.runID, s.id) in c.runs ==>
      && IsComplete(c, SubRunID(env.runID, s.id))
      && s.id in StepsOf(c, env.runID)
      && StepsOf(c, env.runID)[s.id].metrics == TotalOf(StepsOf(c, SubRunID(env.runID, s.id)))
  {
    if SubRunID(env.runID, s.id) in c.runs {
      assert Branch(c, calls, wf, env, s);
      CompleteLevel(c, calls, wf, env.runID, s.id);
      SucceededBranch(c, calls, wf, env, s);
    }
  }

  // ---- what a failed run loses ----

  lemma OthersSucceeded(steps: map<string, Step>, order: seq<string>, n: nat, id: string)
    requires Prefix(steps, order, n) && id in steps && id != order[n - 1]
    ensures Succeeded(steps[id])
  {
    var i :| 0 <= i < n && order[..n][i] == id;
  }

  lemma OnlyLastLoses(c: Contents, calls: seq<Call>, wf: Workflow, env: Env, order: seq<string>, n: nat, s: PipelineStep)
    requires Prefix(StepsOf(c, env.runID), order, n) && s in wf.pipeline && Branch(c, calls, wf, env, s)
    requires n == 0 || s.id != order[n - 1]
    ensures Lost(c, calls, SubRunID(env.runID, s.id)) == ZERO
  {
    if SubRunID(env.runID, s.id) in c.runs {
      OthersSucceeded(StepsOf(c, env.runID), order, n, s.id);
      NothingLostBelow(c, calls, wf, env, s);
    }
  }

  lemma PlusCancels(a: Metrics, lost: Metrics, b: Metrics)
    requires a.Plus(lost) == b
    ensures a == b <==> lost == ZERO
  {
  }

  /** The totals of a run are all that was spent for it exactly when no sub-run of it lost anything. */
  lemma TotalsExact(c: Contents, calls: seq<Call>, wf: Workflow, env: Env)
    requires Tree(c, calls, wf, env)
    ensures TotalOf(StepsOf(c, env.runID)) == Spent(calls, env.runID) <==>
      (forall s :: s in wf.pipeline ==> Lost(c, calls, SubRunID(env.runID, s.id)) == ZERO)
  {
    var n: nat :| LevelAt(c, calls, wf, env.runID, n);
    var order := Order(Nodes(wf));
    forall s | s in wf.pipeline && (n == 0 || s.id != order[n - 1])
      ensures Lost(c, calls, SubRunID(env.runID, s.id)) == ZERO
    {
      assert Branch(c, calls, wf, env, s);
      OnlyLastLoses(c, calls, wf, env, order, n, s);
    }
    if n == 0 {
      PlusZero(TotalOf(StepsOf(c, env.runID)));
    } else {
      OrderDeclared(wf);
      assert StepByID(wf.pipeline)[order[n - 1]].id == order[n - 1];
      PlusCancels(TotalOf(StepsOf(c, env.runID)), Lost(c, calls, SubRunID(env.runID, order[n - 1])), Spent(calls, env.runID));
    }
  }

  // ---- an example of a loss ----

  lemma Singleton(s: seq<string>, x: string)
    requires Distinct(s) && forall y :: y in s <==> y == x
    ensures s == [x]
  {
    assert x in s && s[0] in s;
    var k := if |s| > 1 then 1 else 0;
    assert s[k] in s;
    assert s[k] == s[0];
  }

  lemma SingleNodeOrder(id: string)
    ensures Order([Node(id, [])]) == [id]
    ensures !HasCycle(Adjacency([Node(id, [])]))
  {
    var nodes := [Node(id, [])];
    var g, order := Dependencies(nodes), Order(nodes);
    assert nodes[0] in nodes && AllDeps(nodes, id) == [];
    OrderDistinct(nodes, 0);
    forall x ensures x in order <==> x == id {
      OrderMember(nodes, 0, x);
      assert id in Upto(g, 0);
      assert id in Level(g, 0);
    }
    Singleton(order, id);
    forall x ensures !OnCycle(Adjacency(nodes), x) {
      assert forall y :: Succ(Adjacency(nodes), y) == [];
    }
  }

  function AgentStep(id: string): PipelineStep {
    PipelineStep(id, [], NoWorkflow, true, false, false, false, None, false, 0.0, [])
  }

  const INNER := Workflow("inner", [AgentStep("a")], false, false)

  const OUTER := Workflow("outer", [AgentStep("s").(workflow := Resolved(INNER))], false, false)

  lemma SingleStepRun(w: World, env: Env, wf: Workflow, name: string, input: Object, store: Contents, calls: seq<Call>)
    requires |wf.pipeline| == 1 && wf.pipeline[0].dependsOn == [] && env.runID !in store.runs
    ensures
      var run := NewRun(env, name, input);
      RunPipeline(w, env, wf, name, input, store, calls)
        == Finish(w, env, wf, run, RunStep(w, env, wf, run, wf.pipeline[0], Begin(run, store, calls)))
  {
    var run := NewRun(env, name, input);
    var id := wf.pipeline[0].id;
    SingleNodeOrder(id);
    assert Nodes(wf) == [Node(id, [])];
    OrderDeclared(wf);
    assert StepByID(wf.pipeline)[id] == wf.pipeline[0];
    var p := RunStep(w, env, wf, run, wf.pipeline[0], Begin(run, store, calls));
    assert [id][1..] == [];
    assert RunSteps(w, env, wf, run, [], p) == p;
  }

  /** A step whose body ends in an error, as the first of its run. */
  lemma FailedStep(w: World, env: Env, wf: Workflow, run: Run, s: PipelineStep, p: Progress, r: Ran)
    requires s in wf.pipeline && !Suppressed(env, s) && !s.condition && StepsOf(p.store, env.runID) == map[]
    requires run.id == env.runID
    requires r == ExecuteBody(w, env, wf, s, p.(store := WithStep(p.store, NewRecord(env, s))))
    requires r.outcome.error.Some? && StepsOf(r.store, env.runID) == map[s.id := NewRecord(env, s)]
    ensures
      var q := RunStep(w, env, wf, run, s, p);
      && q.halt == r.outcome.error && q.calls == r.calls
      && StepsOf(q.store, env.runID) == map[s.id := NewRecord(env, s).(metrics := r.outcome.metrics, status := Failed, error := r.outcome.error.value)]
      && forall x :: x != env.runID ==> StepsOf(q.store, x) == StepsOf(r.store, x)
  {
  }

  /** A run whose only step fails: its totals are the metrics of that step. */
  lemma FailedOnlyStep(w: World, env: Env, wf: Workflow, s: PipelineStep, name: string, input: Object, store: Contents, r: Ran)
    requires wf.pipeline == [s] && s.dependsOn == [] && !Suppressed(env, s) && !s.condition
    requires env.runID !in store.runs && StepsOf(store, env.runID) == map[]
    requires
      var p := Begin(NewRun(env, name, input), store, []);
      r == ExecuteBody(w, env, wf, s, p.(store := WithStep(p.store, NewRecord(env, s))))
    requires r.outcome.error.Some? && StepsOf(r.store, env.runID) == map[s.id := NewRecord(env, s)]
    ensures
      var e := RunPipeline(w, env, wf, name, input, store, []);
      && e.outcome == Failure(r.outcome.error.value)
      && e.calls == r.calls
      && TotalOf(StepsOf(e.store, env.runID)) == r.outcome.metrics
      && forall x :: x != env.runID ==> StepsOf(e.store, x) == StepsOf(r.store, x)
  {
    var run := NewRun(env, name, input);
    SingleStepRun(w, env, wf, name, input, store, []);
    FailedStep(w, env, wf, run, s, Begin(run, store, []), r);
    SingleTotal(NewRecord(env, s).(metrics := r.outcome.metrics, status := Failed, error := r.outcome.error.value));
  }

  lemma InnerRun(w: World, store: Contents, m: Metrics, err: string)
    requires w.dispatches && w.agentParams("r/s", "a", map[]).None?
    requires w.dispatch("r/s", "a", map[]) == F.ItemResult(map[], m, Some(err))
    requires "r/s" !in store.runs && StepsOf(store, "r/s") == map[]
    ensures
      var e := RunPipeline(w, Env("r/s", false, true), INNER, "inner", map[], store, []);
      && e.outcome == Failure(err) && e.calls == [Call("r/s", "a", m)]
      && TotalOf(StepsOf(e.store, "r/s")) == m && StepsOf(e.store, "r") == StepsOf(store, "r")
  {
    var env, s := Env("r/s", false, true), AgentStep("a");
    var p := Begin(NewRun(env, "inner", map[]), store, []);
    var p1 := p.(store := WithStep(p.store, NewRecord(env, s)));
    var r := ExecuteAgent(w, "r/s", "a", p1);
    assert r.calls == [Call("r/s", "a", m)];
    FailedOnlyStep(w, env, INNER, s, "inner", map[], store, r);
  }

  /** A workflow step whose nested run ends in an error hands up the error and no metrics. */
  lemma FailedWorkflowBody(w: World, env: Env, wf: Workflow, s: PipelineStep, input: Object, p: Progress, e: Ended) returns (r: Ran)
    requires s in wf.pipeline && s.workflow.Resolved? && w.subInput(env.runID, s.id, p.outputs) == Ok(input)
    requires
      var sub := s.workflow.wf;
      e == RunPipeline(w, SubEnv(env, s), sub, sub.name, input, p.store, p.calls)
    requires e.outcome.error.Some?
    ensures r == ExecuteBody(w, env, wf, s, p)
    ensures r.outcome.error.Some? && r.outcome.metrics == ZERO && r.calls == e.calls && r.store == e.store
  {
    r := ExecuteWorkflow(w, env, wf, s, p);
  }

  /**
   * A failed sub-workflow's metrics do not reach the envelope of the run that started it, although
   * the runner means to keep them whether a step succeeds or fails: here an agent of the nested
   * workflow fails after spending `m`, and the root's totals are zero. The example meets what
   * the theorems ask of a workflow and of the store.
   */
  lemma FailedSubRunIsNotCounted(w: World, m: Metrics, err: string)
    requires w.dispatches && w.agentParams("r/s", "a", map[]).None? && w.subInput("r", "s", map[]) == Ok(map[])
    requires w.dispatch("r/s", "a", map[]) == F.ItemResult(map[], m, Some(err))
    ensures
      var e := RunPipeline(w, Env("r", true, false), OUTER, "outer", map[], EMPTY, []);
      && Cost(e.calls) == m
      && TotalOf(StepsOf(e.store, "r")) == ZERO
      && TotalOf(StepsOf(e.store, "r/s")) == m
    ensures WellNamed(OUTER) && Fresh(EMPTY, [], "r")
  {
    assert WellNamed(INNER);
    var env, s := Env("r", true, false), OUTER.pipeline[0];
    var p := Begin(NewRun(env, "outer", map[]), EMPTY, []);
    var p1 := p.(store := WithStep(p.store, NewRecord(env, s)));
    assert SubRunID("r", "s") == "r/s";
    InnerRun(w, p1.store, m, err);
    var r := FailedWorkflowBody(w, env, OUTER, s, map[], p1, RunPipeline(w, Env("r/s", false, true), INNER, "inner", map[], p1.store, []));
    FailedOnlyStep(w, env, OUTER, s, "outer", map[], EMPTY, r);
    OneCall(Call("r/s", "a", m));
  }

  lemma SingleTotal(rec: Step)
    requires Counted(rec)
    ensures TotalOf(map[rec.id := rec]) == rec.metrics
  {
    var none: map<string, Step> := map[];
    TotalPut(none, rec);
    assert none[rec.id := rec] == map[rec.id := rec];
    assert none.Keys - {rec.id} == {};
    ZeroPlus(rec.metrics);
  }

  lemma OneCall(e: Call)
    ensures Cost([e]) == e.metrics
  {
    assert [e][..0] == [];
    assert AllUnder([e], e.runID);
    CostIsSpent([e], e.runID);
    ZeroPlus(e.metrics);
  }
}
