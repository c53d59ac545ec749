/** Fail-fast and conservation over the whole tree of runs. */
module RunnerProperties {
  import opened Wrappers
  import opened Values
  import opened Metrics
  import opened Types
  import opened Reserved
  import opened Graphs
  import opened CycleDetection
  import opened Layering
  import opened LayerOrder
  import opened MemStore
  import opened RunnerSpec
  import opened RunTree
  import F = Fanout

  // ---- what is kept while a run is under way ----

  /** Exactly the steps in `done` have records, and all but the last succeeded. */
  ghost predicate Records(steps: map<string, Step>, done: seq<string>) {
    && (forall id :: id in steps <==> id in done)
    && (forall i :: 0 <= i < |done| - 1 ==> Succeeded(steps[done[i]]))
  }

  ghost predicate Books(p: Progress, runID: string, done: seq<string>)
    requires Records(StepsOf(p.store, runID), done)
  {
    var steps := StepsOf(p.store, runID);
    if p.halt.None? then
      && (done != [] ==> Succeeded(steps[done[|done| - 1]]))
      && TotalOf(steps) == Spent(p.calls, runID)
      && p.agg == TotalOf(steps)
    else
      && done != []
      && steps[done[|done| - 1]].status == Failed && steps[done[|done| - 1]].error == p.halt.value
      && TotalOf(steps).Plus(Lost(p.store, p.calls, SubRunID(runID, done[|done| - 1]))) == Spent(p.calls, runID)
  }

  ghost predicate RunRecord(p: Progress, run: Run) {
    && run.id in p.store.runs
    && p.store.runs[run.id] == if p.halt.None? then run else run.(status := RunFailed, error := p.halt.value)
  }

  ghost predicate Branches(p: Progress, wf: Workflow, env: Env) {
    forall s :: s in wf.pipeline ==> Branch(p.store, p.calls, wf, env, s)
  }

  ghost predicate Untouched(p: Progress, wf: Workflow, runID: string, done: seq<string>) {
    forall s :: s in wf.pipeline && s.id !in done ==> Fresh(p.store, p.calls, SubRunID(runID, s.id))
  }

  /** The outputs so far are those of the steps done, and a complete step's is the one its record holds. */
  ghost predicate Carried(outputs: Outputs, steps: map<string, Step>, done: seq<string>) {
    && (forall id :: id in outputs <==> id in done)
    && (forall id :: id in done && id in steps && steps[id].status == Complete ==> steps[id].output == Some(outputs[id]))
  }

  ghost predicate Inv(p: Progress, wf: Workflow, env: Env, run: Run, done: seq<string>) {
    && run.id == env.runID
    && RunRecord(p, run)
    && Records(StepsOf(p.store, run.id), done)
    && Books(p, run.id, done)
    && Branches(p, wf, env)
    && Untouched(p, wf, run.id, done)
    && Covered(p.store, wf, run.id)
    && Delivered(p.store, wf, env)
    && (p.halt.None? ==> p.final == LastComplete(StepsOf(p.store, run.id), done))
    && (p.halt.None? ==> Carried(p.outputs, StepsOf(p.store, run.id), done))
  }

  // ---- one step ----

  /** One step later: its record is stored; elsewhere only runs nested in it may differ. */
  ghost predicate Moved(c: Contents, d: Contents, runID: string, rec: Step) {
    && c.approvals == d.approvals
    && StepsOf(d, runID) == StepsOf(c, runID)[rec.id := rec]
    && forall r :: r != runID && !Under(r, SubRunID(runID, rec.id)) ==> SameRun(c, d, r)
  }

  /** The dispatcher calls of a step: its own, and those of the runs nested in it. */
  ghost predicate StepCalls(added: seq<Call>, runID: string, id: string) {
    forall e :: e in added ==> e.runID == runID || Under(e.runID, SubRunID(runID, id))
  }

  lemma StepCallsUnder(added: seq<Call>, runID: string, id: string)
    requires StepCalls(added, runID, id)
    ensures AllUnder(added, runID)
  {
    SubUnder(runID, id);
    forall e | e in added ensures Under(e.runID, runID) {
      if e.runID != runID {
        UnderTrans(e.runID, SubRunID(runID, id), runID);
      }
    }
  }

  lemma StepCallsApart(added: seq<Call>, runID: string, id: string, other: string)
    requires StepCalls(added, runID, id) && !Nests(id, other) && !Nests(other, id) && id != other
    ensures NoneUnder(added, SubRunID(runID, other))
  {
    SubUnder(runID, other);
    forall e | e in added && Under(e.runID, SubRunID(runID, other)) ensures false {
      if e.runID != runID {
        SiblingsApart(runID, id, other, e.runID);
      }
    }
  }

  lemma MovedApart(c: Contents, d: Contents, runID: string, rec: Step, other: string)
    requires Moved(c, d, runID, rec) && !Nests(rec.id, other) && !Nests(other, rec.id) && rec.id != other
    ensures SameUnder(c, d, SubRunID(runID, other)) && SameStep(c, d, runID, other)
  {
    SubUnder(runID, other);
    forall r | Under(r, SubRunID(runID, other)) ensures SameRun(c, d, r) {
      if Under(r, SubRunID(runID, rec.id)) {
        SiblingsApart(runID, rec.id, other, r);
      }
    }
  }

  lemma FreshFrame(c: Contents, calls: seq<Call>, d: Contents, added: seq<Call>, root: string)
    requires Fresh(c, calls, root) && SameUnder(c, d, root) && NoneUnder(added, root)
    ensures Fresh(d, calls + added, root)
  {
    forall r | Under(r, root) ensures r !in d.runs && StepsOf(d, r) == map[] {
      assert SameRun(c, d, r);
    }
  }

  lemma OneStepPerId(wf: Workflow, s: PipelineStep, t: PipelineStep)
    requires UniqueIds(Nodes(wf)) && s in wf.pipeline && t in wf.pipeline && s.id == t.id
    ensures s == t
  {
    var i :| 0 <= i < |wf.pipeline| && wf.pipeline[i] == s;
    var j :| 0 <= j < |wf.pipeline| && wf.pipeline[j] == t;
    assert Nodes(wf)[i].id == Nodes(wf)[j].id;
  }

  /** How the step's record squares with what it spent. */
  ghost predicate Settled(q: Progress, run: Run, rec: Step, added: seq<Call>) {
    && RunRecord(q, run)
    && Counted(rec)
    && if q.halt.None? then Succeeded(rec) && rec.metrics == Spent(added, run.id)
       else
         && rec.status == Failed && rec.error == q.halt.value
         && rec.metrics.Plus(Lost(q.store, q.calls, SubRunID(run.id, rec.id))) == Spent(added, run.id)
  }

  lemma BranchesKept(p: Progress, q: Progress, wf: Workflow, env: Env, s: PipelineStep, rec: Step, added: seq<Call>)
    requires WellNamed(wf) && s in wf.pipeline && rec.id == s.id
    requires Branches(p, wf, env) && Moved(p.store, q.store, env.runID, rec)
    requires q.calls == p.calls + added && StepCalls(added, env.runID, s.id)
    requires Branch(q.store, q.calls, wf, env, s)
    ensures Branches(q, wf, env)
  {
    forall t | t in wf.pipeline ensures Branch(q.store, q.calls, wf, env, t) {
      if t.id == s.id {
        OneStepPerId(wf, s, t);
      } else {
        assert Branch(p.store, p.calls, wf, env, t);
        MovedApart(p.store, q.store, env.runID, rec, t.id);
        StepCallsApart(added, env.runID, s.id, t.id);
        BranchFrame(p.store, p.calls, q.store, added, wf, env, t);
      }
    }
  }

  lemma UntouchedKept(p: Progress, q: Progress, wf: Workflow, runID: string, s: PipelineStep, rec: Step, added: seq<Call>, done: seq<string>)
    requires WellNamed(wf) && s in wf.pipeline && rec.id == s.id
    requires Untouched(p, wf, runID, done) && Moved(p.store, q.store, runID, rec)
    requires q.calls == p.calls + added && StepCalls(added, runID, s.id)
    ensures Untouched(q, wf, runID, done + [s.id])
  {
    forall t | t in wf.pipeline && t.id !in done + [s.id] ensures Fresh(q.store, q.calls, SubRunID(runID, t.id)) {
      assert t.id != s.id && t.id !in done;
      MovedApart(p.store, q.store, runID, rec, t.id);
      StepCallsApart(added, runID, s.id, t.id);
      FreshFrame(p.store, p.calls, q.store, added, SubRunID(runID, t.id));
    }
  }

  /** Nothing is nested in a run that does not exist. */
  ghost predicate Rooted(c: Contents, root: string) {
    forall r :: Under(r, root) && r in c.runs ==> root in c.runs
  }

  lemma CoveredKept(c: Contents, d: Contents, wf: Workflow, runID: string, s: PipelineStep, rec: Step)
    requires WellNamed(wf) && s in wf.pipeline && rec.id == s.id && Covered(c, wf, runID) && Moved(c, d, runID, rec)
    requires Rooted(d, SubRunID(runID, s.id))
    ensures Covered(d, wf, runID)
  {
    forall r | Under(r, runID) && r != runID && r in d.runs ensures FromStep(d, wf, runID, r) {
      if !Under(r, SubRunID(runID, s.id)) {
        assert SameRun(c, d, r);
        assert FromStep(c, wf, runID, r);
        var t :| t in wf.pipeline && Under(r, SubRunID(runID, t.id)) && SubRunID(runID, t.id) in c.runs;
        MovedApart(c, d, runID, rec, t.id);
        UnderItself(SubRunID(runID, t.id));
        assert SameRun(c, d, SubRunID(runID, t.id));
      }
    }
  }

  lemma RecordsKept(before: map<string, Step>, rec: Step, done: seq<string>)
    requires Records(before, done) && rec.id !in done
    requires done != [] ==> Succeeded(before[done[|done| - 1]])
    ensures Records(before[rec.id := rec], done + [rec.id])
  {
    var done' := done + [rec.id];
    forall i | 0 <= i < |done'| - 1 ensures Succeeded(before[rec.id := rec][done'[i]]) {
      assert done'[i] == done[i] && done[i] in done;
    }
  }

  lemma TotalGrows(before: map<string, Step>, rec: Step)
    requires rec.id !in before && Counted(rec)
    ensures TotalOf(before[rec.id := rec]) == TotalOf(before).Plus(rec.metrics)
  {
    TotalPut(before, rec);
    PlusZero(TotalOver(before, before.Keys - {rec.id}));
  }

  lemma PlusAssociative(a: Metrics, b: Metrics, c: Metrics)
    ensures a.Plus(b).Plus(c) == a.Plus(b.Plus(c))
  {
  }

  lemma BooksKept(p: Progress, q: Progress, run: Run, rec: Step, added: seq<Call>, done: seq<string>)
    requires p.halt.None? && Records(StepsOf(p.store, run.id), done) && Books(p, run.id, done) && rec.id !in done
    requires StepsOf(q.store, run.id) == StepsOf(p.store, run.id)[rec.id := rec]
    requires q.calls == p.calls + added && Settled(q, run, rec, added)
    requires q.halt.None? ==> q.agg == p.agg.Plus(rec.metrics)
    requires Records(StepsOf(q.store, run.id), done + [rec.id])
    ensures Books(q, run.id, done + [rec.id])
  {
    TotalGrows(StepsOf(p.store, run.id), rec);
    SpentConcat(p.calls, added, run.id);
    PlusAssociative(TotalOf(StepsOf(p.store, run.id)), rec.metrics, Lost(q.store, q.calls, SubRunID(run.id, rec.id)));
  }

  lemma DeliveredKept(c: Contents, d: Contents, wf: Workflow, env: Env, s: PipelineStep, rec: Step)
    requires WellNamed(wf) && s in wf.pipeline && Delivered(c, wf, env) && Moved(c, d, env.runID, rec) && RecordFits(rec, env, s)
    ensures Delivered(d, wf, env)
  {
    forall t | t in wf.pipeline && t.id in StepsOf(d, env.runID) ensures RecordFits(StepsOf(d, env.runID)[t.id], env, t) {
      if t.id == s.id {
        OneStepPerId(wf, s, t);
      }
    }
  }

  lemma LastCompleteGrows(before: map<string, Step>, rec: Step, done: seq<string>)
    requires rec.id !in done
    ensures LastComplete(before[rec.id := rec], done + [rec.id]) ==
      if rec.status == Complete then rec.output else LastComplete(before, done)
  {
    assert (done + [rec.id])[..|done|] == done;
    LastCompleteFrame(before, before[rec.id := rec], done);
  }

  /** What the step hands to the steps after it: its stored output, if it is complete. */
  ghost predicate Passed(p: Progress, q: Progress, rec: Step) {
    q.halt.None? ==>
      && rec.id in q.outputs
      && q.outputs == p.outputs[rec.id := q.outputs[rec.id]]
      && (rec.status == Complete ==> rec.output == Some(q.outputs[rec.id]))
  }

  lemma CarriedKept(p: Progress, q: Progress, before: map<string, Step>, rec: Step, done: seq<string>)
    requires Carried(p.outputs, before, done) && rec.id !in done && Passed(p, q, rec) && q.halt.None?
    ensures Carried(q.outputs, before[rec.id := rec], done + [rec.id])
  {
  }

  /** A step keeps the invariant when its record, its calls and its branch are in order. */
  lemma StepKeepsInv(p: Progress, q: Progress, wf: Workflow, env: Env, run: Run, s: PipelineStep, rec: Step, added: seq<Call>, done: seq<string>)
    requires WellNamed(wf) && s in wf.pipeline && rec.id == s.id && s.id !in done
    requires Inv(p, wf, env, run, done) && p.halt.None?
    requires Moved(p.store, q.store, run.id, rec)
    requires q.calls == p.calls + added && StepCalls(added, run.id, s.id)
    requires Branch(q.store, q.calls, wf, env, s) && Rooted(q.store, SubRunID(run.id, s.id))
    requires Settled(q, run, rec, added) && RecordFits(rec, env, s)
    requires q.halt.None? ==> q.agg == p.agg.Plus(rec.metrics)
    requires q.halt.None? ==> q.final == if rec.status == Complete then rec.output else p.final
    requires Passed(p, q, rec)
    ensures Inv(q, wf, env, run, done + [s.id])
  {
    hide Carried, Passed, RecordFits, Counted;
    if q.halt.None? {
      CarriedKept(p, q, StepsOf(p.store, run.id), rec, done);
    }
    DeliveredKept(p.store, q.store, wf, env, s, rec);
    LastCompleteGrows(StepsOf(p.store, run.id), rec, done);
    RecordsKept(StepsOf(p.store, run.id), rec, done);
    BooksKept(p, q, run, rec, added, done);
    BranchesKept(p, q, wf, env, s, rec, added);
    UntouchedKept(p, q, wf, run.id, s, rec, added, done);
    CoveredKept(p.store, q.store, wf, run.id, s, rec);
  }

  // ---- what the body of a step does ----

  /** A sub-run left behind by a step: a complete one hands up its totals, another means an error. */
  ghost predicate HandsUp(r: Ran, sub: string) {
    if IsComplete(r.store, sub) then r.outcome.error.None? && r.outcome.metrics == TotalOf(StepsOf(r.store, sub))
    else r.outcome.error.Some? && r.outcome.metrics == ZERO
  }

  ghost predicate BodyEffect(p: Progress, r: Ran, added: seq<Call>, env: Env, s: PipelineStep) {
    var sub := SubRunID(env.runID, s.id);
    && r.calls == p.calls + added
    && StepCalls(added, env.runID, s.id)
    && SameOutside(p.store, r.store, sub)
    && Rooted(r.store, sub)
    && (sub in r.store.runs ==> s.workflow.Resolved? && HandsUp(r, sub) && Tree(r.store, r.calls, s.workflow.wf, SubEnv(env, s)))
    && Spent(added, env.runID) == r.outcome.metrics.Plus(Lost(r.store, r.calls, sub))
  }

  /** A body that touches no store and costs what its own calls cost. */
  lemma PlainBody(p: Progress, r: Ran, added: seq<Call>, env: Env, s: PipelineStep)
    requires Fresh(p.store, p.calls, SubRunID(env.runID, s.id))
    requires r.store == p.store && r.calls == p.calls + added
    requires forall e :: e in added ==> e.runID == env.runID
    requires Spent(added, env.runID) == r.outcome.metrics
    ensures BodyEffect(p, r, added, env, s)
  {
    hide Tree, HandsUp, Spent, Under;
    var sub := SubRunID(env.runID, s.id);
    NoneBelow(p.store, p.calls, sub, p.store);
    SameEverywhere(p.store, sub);
    PlusZero(r.outcome.metrics);
  }

  /** Under a fresh run id there is no run. */
  lemma NoneBelow(c: Contents, calls: seq<Call>, sub: string, d: Contents)
    requires Fresh(c, calls, sub) && d.runs == c.runs
    ensures sub !in d.runs && Rooted(d, sub)
  {
    UnderItself(sub);
  }

  lemma SameEverywhere(c: Contents, root: string)
    ensures SameOutside(c, c, root)
  {
  }

  lemma {:induction false} ItemsSpent(runID: string, id: string, replies: seq<F.ItemResult>)
    ensures Spent(ItemCalls(runID, id, replies), runID) == F.Totals(replies)
  {
    if replies != [] {
      var n := |replies| - 1;
      ItemsSpent(runID, id, replies[..n]);
      assert ItemCalls(runID, id, replies)[..n] == ItemCalls(runID, id, replies[..n]);
      assert ItemCalls(runID, id, replies)[n].metrics == replies[n].metrics;
    }
  }

  lemma FanoutBody(w: World, env: Env, s: PipelineStep, spec: ForEach, p: Progress) returns (added: seq<Call>)
    requires Fresh(p.store, p.calls, SubRunID(env.runID, s.id))
    ensures BodyEffect(p, ExecuteFanout(w, env.runID, s.id, spec, p), added, env, s)
  {
    var r := ExecuteFanout(w, env.runID, s.id, spec, p);
    added := [];
    if w.dispatches && w.items(env.runID, s.id, p.outputs).Ok? {
      var replies := Replies(w, env.runID, s.id, Truncated(w.items(env.runID, s.id, p.outputs).value, spec.maxItems), p.outputs);
      if replies != [] {
        added := ItemCalls(env.runID, s.id, replies);
        ItemsSpent(env.runID, s.id, replies);
      }
    }
    assert r.calls == p.calls + added;
    PlainBody(p, r, added, env, s);
  }

  lemma AgentBody(w: World, env: Env, s: PipelineStep, p: Progress) returns (added: seq<Call>)
    requires Fresh(p.store, p.calls, SubRunID(env.runID, s.id))
    ensures BodyEffect(p, ExecuteAgent(w, env.runID, s.id, p), added, env, s)
  {
    var r := ExecuteAgent(w, env.runID, s.id, p);
    added := [];
    if w.dispatches && w.agentParams(env.runID, s.id, p.outputs).None? {
      var call := Call(env.runID, s.id, r.outcome.metrics);
      added := [call];
      assert added[..0] == [];
      ZeroPlus(call.metrics);
    }
    assert r.calls == p.calls + added;
    PlainBody(p, r, added, env, s);
  }

  lemma ZeroPlus(m: Metrics)
    ensures ZERO.Plus(m) == m
  {
  }

  // ---- from the body to the next step ----

  /** `q` is `p2` with the final record stored, and the run failed if the step did. */
  ghost predicate Stored(p2: Progress, q: Progress, run: Run, rec: Step) {
    && q.calls == p2.calls && q.agg == p2.agg
    && (q.halt.None? ==> q.final == if rec.status == Complete then rec.output else p2.final)
    && Passed(p2, q, rec)
    && if q.halt.None? then Succeeded(rec) && q.store == WithStep(p2.store, rec)
       else
         && rec.status == Failed && rec.error == q.halt.value
         && q.store == WithRun(WithStep(p2.store, rec), run.(status := RunFailed, error := q.halt.value))
  }

  lemma ConcludeStores(env: Env, run: Run, step: PipelineStep, rec: Step, o: F.Outcome, p2: Progress) returns (final: Step)
    requires p2.halt.None? && rec == NewRecord(env, step).(metrics := o.metrics) && !Suppressed(env, step)
    ensures Stored(p2, Conclude(run, step, rec, o, p2), run, final) && RecordFits(final, env, step)
    ensures final.id == rec.id && final.runID == rec.runID && final.metrics == rec.metrics
    ensures o.error.Some? ==> final.status == Failed && Conclude(run, step, rec, o, p2).halt.Some?
  {
    if o.error.Some? {
      final := rec.(status := Failed, error := o.error.value);
    } else if Flagged(o.output, "skipped") {
      final := rec.(status := Skipped);
    } else {
      match ProcessReservedFields(o.output, step.threshold)
      case Reject(e) => final := rec.(status := Failed, error := e);
      case Skip(_, _) => final := rec.(status := Skipped);
      case Keep(clean) =>
        final := if Airlock(clean, step.required) then rec.(status := Complete, output := Some(clean))
                 else rec.(status := Failed, error := "output missing required field");
    }
  }

  lemma StoredStep(p2: Progress, q: Progress, run: Run, final: Step)
    requires Stored(p2, q, run, final) && final.runID == run.id
    ensures StepsOf(q.store, run.id) == StepsOf(p2.store, run.id)[final.id := final] && q.store.approvals == p2.store.approvals
  {
  }

  lemma WithStepMoves(c: Contents, rec: Step)
    ensures StepsOf(WithStep(c, rec), rec.runID) == StepsOf(c, rec.runID)[rec.id := rec]
    ensures WithStep(c, rec).approvals == c.approvals
    ensures forall r :: r != rec.runID ==> SameRun(c, WithStep(c, rec), r)
  {
  }

  lemma StoredMoves(p: Progress, p1: Progress, p2: Progress, q: Progress, run: Run, rec: Step, final: Step)
    requires p1.store == WithStep(p.store, rec) && SameOutside(p1.store, p2.store, SubRunID(run.id, rec.id))
    requires Stored(p2, q, run, final) && rec.runID == final.runID == run.id && rec.id == final.id
    ensures Moved(p.store, q.store, run.id, final)
    ensures SameUnder(p2.store, q.store, SubRunID(run.id, rec.id))
  {
    hide Stored, WithStep, Under, SubRunID;
    SubUnder(run.id, rec.id);
    WithStepMoves(p.store, rec);
    StoredStep(p2, q, run, final);
    assert SameRun(p1.store, p2.store, run.id);
    forall r | r != run.id ensures SameRun(p2.store, q.store, r) {
      StoredElsewhere(p2, q, run, final, r);
    }
    forall r | r != run.id && !Under(r, SubRunID(run.id, rec.id)) ensures SameRun(p.store, q.store, r) {
      assert SameRun(p.store, p1.store, r) && SameRun(p1.store, p2.store, r) && SameRun(p2.store, q.store, r);
    }
  }

  lemma StoredElsewhere(p2: Progress, q: Progress, run: Run, final: Step, r: string)
    requires Stored(p2, q, run, final) && final.runID == run.id && r != run.id
    ensures SameRun(p2.store, q.store, r)
  {
  }

  lemma StoredKeepsRun(p: Progress, p1: Progress, p2: Progress, q: Progress, run: Run, rec: Step, final: Step)
    requires p1.store == WithStep(p.store, rec) && SameOutside(p1.store, p2.store, SubRunID(run.id, rec.id))
    requires Stored(p2, q, run, final) && run.id in p.store.runs && p.store.runs[run.id] == run
    ensures RunRecord(q, run)
  {
    SubUnder(run.id, rec.id);
    assert SameRun(p1.store, p2.store, run.id);
  }

  lemma NestedAfter(r: Ran, d: Contents, runID: string, final: Step)
    requires SameRun(r.store, d, SubRunID(runID, final.id)) && HandsUp(r, SubRunID(runID, final.id))
    requires final.id in StepsOf(d, runID) && StepsOf(d, runID)[final.id] == final
    requires final.metrics == r.outcome.metrics && (r.outcome.error.Some? ==> final.status == Failed)
    ensures Nested(d, runID, final.id)
  {
  }

  lemma BranchAfter(c: Contents, calls: seq<Call>, d: Contents, wf: Workflow, env: Env, s: PipelineStep)
    requires s in wf.pipeline && SameUnder(c, d, SubRunID(env.runID, s.id))
    requires SubRunID(env.runID, s.id) in d.runs ==>
      s.workflow.Resolved? && Nested(d, env.runID, s.id) && Tree(c, calls, s.workflow.wf, SubEnv(env, s))
    ensures Branch(d, calls, wf, env, s)
  {
    if SubRunID(env.runID, s.id) in d.runs {
      assert NoneUnder([], SubRunID(env.runID, s.id));
      TreeFrame(c, calls, d, [], s.workflow.wf, SubEnv(env, s));
      assert calls + [] == calls;
    }
  }

  lemma LostSame(c: Contents, d: Contents, calls: seq<Call>, sub: string)
    requires SameRun(c, d, sub)
    ensures Lost(c, calls, sub) == Lost(d, calls, sub)
  {
  }

  lemma NothingLost(r: Ran, sub: string)
    requires sub in r.store.runs ==> HandsUp(r, sub)
    requires r.outcome.error.None?
    ensures Lost(r.store, r.calls, sub) == ZERO
  {
  }

  lemma SettledAfter(r: Ran, q: Progress, run: Run, final: Step, added: seq<Call>)
    requires RunRecord(q, run) && SameRun(r.store, q.store, SubRunID(run.id, final.id)) && q.calls == r.calls
    requires Spent(added, run.id) == r.outcome.metrics.Plus(Lost(r.store, r.calls, SubRunID(run.id, final.id)))
    requires SubRunID(run.id, final.id) in r.store.runs ==> HandsUp(r, SubRunID(run.id, final.id))
    requires final.metrics == r.outcome.metrics
    requires if q.halt.None? then Succeeded(final) && r.outcome.error.None? else final.status == Failed && final.error == q.halt.value
    ensures Settled(q, run, final, added)
  {
    hide HandsUp, SameRun, RunRecord, SubRunID, Spent;
    var sub := SubRunID(run.id, final.id);
    LostSame(r.store, q.store, r.calls, sub);
    if q.halt.None? {
      NothingLost(r, sub);
      PlusZero(final.metrics);
    }
  }

  lemma RootedFrame(c: Contents, d: Contents, root: string)
    requires Rooted(c, root) && SameUnder(c, d, root)
    ensures Rooted(d, root)
  {
    UnderItself(root);
    assert SameRun(c, d, root);
    forall r | Under(r, root) && r in d.runs ensures root in d.runs {
      assert SameRun(c, d, r);
    }
  }

  lemma UnderItself(r: string)
    ensures Under(r, r)
  {
  }

  /** A step whose body ran keeps the invariant. */
  lemma BodyStep(env: Env, wf: Workflow, run: Run, s: PipelineStep, p: Progress, r: Ran, added: seq<Call>, done: seq<string>)
    requires WellNamed(wf) && s in wf.pipeline && s.id !in done && run.id == env.runID && !Suppressed(env, s)
    requires Inv(p, wf, env, run, done) && p.halt.None?
    requires BodyEffect(p.(store := WithStep(p.store, NewRecord(env, s))), r, added, env, s)
    ensures
      var p1 := p.(store := WithStep(p.store, NewRecord(env, s)));
      var q := Conclude(run, s, NewRecord(env, s).(metrics := r.outcome.metrics), r.outcome, AfterBody(r, p1));
      Inv(q, wf, env, run, done + [s.id]) && q.calls == p.calls + added && SameOutside(p.store, q.store, run.id)
  {
    var rec := NewRecord(env, s);
    var p1 := p.(store := WithStep(p.store, rec));
    var p2 := AfterBody(r, p1);
    var q := Conclude(run, s, rec.(metrics := r.outcome.metrics), r.outcome, p2);
    var final := ConcludeStores(env, run, s, rec.(metrics := r.outcome.metrics), r.outcome, p2);
    StoredMoves(p, p1, p2, q, run, rec, final);
    StoredKeepsRun(p, p1, p2, q, run, rec, final);
    UnderItself(SubRunID(run.id, s.id));
    assert SameRun(r.store, q.store, SubRunID(run.id, s.id));
    if SubRunID(run.id, s.id) in r.store.runs {
      NestedAfter(r, q.store, run.id, final);
    }
    BranchAfter(r.store, r.calls, q.store, wf, env, s);
    RootedFrame(r.store, q.store, SubRunID(run.id, s.id));
    SettledAfter(r, q, run, final, added);
    StepKeepsInv(p, q, wf, env, run, s, final, added, done);
    MovedOutside(p.store, q.store, run.id, final);
  }

  lemma MovedOutside(c: Contents, d: Contents, runID: string, rec: Step)
    requires Moved(c, d, runID, rec)
    ensures SameOutside(c, d, runID)
  {
    SubUnder(runID, rec.id);
    forall r | !Under(r, runID) ensures SameRun(c, d, r) {
      if Under(r, SubRunID(runID, rec.id)) {
        UnderTrans(r, SubRunID(runID, rec.id), runID);
      }
    }
  }

  /** A step that never ran its body keeps the invariant. */
  lemma SkippedStep(env: Env, wf: Workflow, run: Run, s: PipelineStep, p: Progress, p1: Progress, output: Object, done: seq<string>)
    requires WellNamed(wf) && s in wf.pipeline && s.id !in done && run.id == env.runID
    requires Inv(p, wf, env, run, done) && p.halt.None?
    requires p1 == p || p1 == p.(store := WithStep(p.store, NewRecord(env, s)))
    ensures
      var q := SkipStep(NewRecord(env, s), output, p1);
      Inv(q, wf, env, run, done + [s.id]) && q.calls == p.calls + [] && SameOutside(p.store, q.store, run.id)
  {
    hide Tree, Spent, Under, Books, Records, Covered, Delivered, StepByID, WellNamed;
    var final := NewRecord(env, s).(status := Skipped);
    var q := SkipStep(NewRecord(env, s), output, p1);
    SkipMoves(env, run, s, p, p1, q, final);
    NoneBelow(p.store, p.calls, SubRunID(run.id, s.id), q.store);
    SkipSettled(env, run, s, p, q, final);
    NothingAdded(p.calls, []);
    PlusZero(p.agg);
    StepKeepsInv(p, q, wf, env, run, s, final, [], done);
    MovedOutside(p.store, q.store, run.id, final);
  }

  lemma SkipSettled(env: Env, run: Run, s: PipelineStep, p: Progress, q: Progress, final: Step)
    requires final == NewRecord(env, s).(status := Skipped) && RunRecord(p, run)
    requires q.store.runs == p.store.runs && q.halt.None? && p.halt.None?
    ensures Settled(q, run, final, []) && RecordFits(final, env, s)
  {
  }

  lemma SkipMoves(env: Env, run: Run, s: PipelineStep, p: Progress, p1: Progress, q: Progress, final: Step)
    requires run.id == env.runID && final == NewRecord(env, s).(status := Skipped)
    requires p1 == p || p1 == p.(store := WithStep(p.store, NewRecord(env, s)))
    requires q.store == WithStep(p1.store, final)
    ensures Moved(p.store, q.store, run.id, final) && q.store.runs == p.store.runs
  {
  }

  // ---- whole runs ----

  /** The output of a run that declares no output map: that of its last complete step. */
  function OutputOf(steps: map<string, Step>, order: seq<string>): Object {
    if LastComplete(steps, order).Some? then LastComplete(steps, order).value else map[]
  }

  /** What a finished run hands up. */
  ghost predicate HandedUp(e: Ended, wf: Workflow, runID: string) {
    && IsComplete(e.store, runID)
    && e.outcome.error.None?
    && e.outcome.metrics == TotalOf(StepsOf(e.store, runID))
    && e.outcome.metrics == Spent(e.calls, runID)
    && (!wf.mapsOutput ==> e.outcome.output == OutputOf(StepsOf(e.store, runID), Order(Nodes(wf))))
  }

  /** What a run leaves behind: its tree, its calls, and totals that are all that was spent. */
  ghost predicate RunEffect(store: Contents, calls: seq<Call>, r: Ended, added: seq<Call>, wf: Workflow, env: Env) {
    && r.calls == calls + added
    && AllUnder(added, env.runID)
    && SameOutside(store, r.store, env.runID)
    && Tree(r.store, r.calls, wf, env)
    && (if IsComplete(r.store, env.runID) then HandedUp(r, wf, env.runID)
        else r.outcome.error.Some? && r.outcome.metrics == ZERO)
  }

  lemma SubRunSpent(calls: seq<Call>, added: seq<Call>, runID: string, sub: string)
    requires Under(sub, runID) && NoneUnder(calls, sub) && AllUnder(added, sub)
    ensures Spent(added, runID) == Spent(calls + added, sub)
  {
    SpentWider(added, sub, runID);
    SpentConcat(calls, added, sub);
    SpentNone(calls, sub);
    ZeroPlus(Spent(added, sub));
  }

  /** The sub-run of a workflow step seen from the run that started it. */
  lemma SubRunBody(p: Progress, e: Ended, r: Ran, added: seq<Call>, env: Env, s: PipelineStep)
    requires s.workflow.Resolved? && NoneUnder(p.calls, SubRunID(env.runID, s.id))
    requires RunEffect(p.store, p.calls, e, added, s.workflow.wf, SubEnv(env, s))
    requires r.store == e.store && r.calls == e.calls && r.outcome.metrics == e.outcome.metrics
    requires r.outcome.error.Some? <==> e.outcome.error.Some?
    ensures BodyEffect(p, r, added, env, s)
  {
    var sub := SubRunID(env.runID, s.id);
    SubUnder(env.runID, s.id);
    SubRunSpent(p.calls, added, env.runID, sub);
    TreeHasRoot(e.store, e.calls, s.workflow.wf, SubEnv(env, s));
    SubRunLoss(e, sub);
    assert HandsUp(r, sub);
  }

  lemma SubRunLoss(e: Ended, sub: string)
    requires sub in e.store.runs
    requires e.outcome.metrics == if IsComplete(e.store, sub) then Spent(e.calls, sub) else ZERO
    ensures e.outcome.metrics.Plus(Lost(e.store, e.calls, sub)) == Spent(e.calls, sub)
  {
    PlusZero(Spent(e.calls, sub));
    ZeroPlus(Spent(e.calls, sub));
  }

  lemma TreeHasRoot(c: Contents, calls: seq<Call>, wf: Workflow, env: Env)
    requires Tree(c, calls, wf, env)
    ensures env.runID in c.runs
  {
  }

  /** The invariant holds when a run starts on a fresh id. */
  lemma BeginInv(wf: Workflow, env: Env, run: Run, store: Contents, calls: seq<Call>)
    requires run.id == env.runID && Fresh(store, calls, run.id)
    ensures Inv(Begin(run, store, calls), wf, env, run, []) && SameOutside(store, Begin(run, store, calls).store, run.id)
  {
    var p := Begin(run, store, calls);
    UnderItself(run.id);
    SpentNone(calls, run.id);
    forall s | s in wf.pipeline
      ensures Branch(p.store, p.calls, wf, env, s) && Fresh(p.store, p.calls, SubRunID(run.id, s.id))
    {
      BeginBelow(run, store, calls, s.id);
    }
  }

  lemma BeginBelow(run: Run, store: Contents, calls: seq<Call>, id: string)
    requires Fresh(store, calls, run.id)
    ensures Fresh(WithRun(store, run), calls, SubRunID(run.id, id))
    ensures SubRunID(run.id, id) !in WithRun(store, run).runs
  {
    var sub := SubRunID(run.id, id);
    SubUnder(run.id, id);
    UnderItself(sub);
    NoneUnderSub(calls, run.id, sub);
    forall r | Under(r, sub) ensures r !in WithRun(store, run).runs && StepsOf(store, r) == map[] {
      UnderTrans(r, sub, run.id);
    }
  }

  /** A halted run has failed: its tree is in order. */
  lemma HaltedTree(p: Progress, wf: Workflow, env: Env, run: Run, order: seq<string>, n: nat)
    requires !Cyclic(wf)
    requires order == Order(Nodes(wf)) && n <= |order| && Inv(p, wf, env, run, order[..n]) && p.halt.Some?
    ensures Tree(p.store, p.calls, wf, env) && !IsComplete(p.store, run.id)
  {
    HaltedLevel(p, wf, run, order, n);
  }

  lemma HaltedLevel(p: Progress, wf: Workflow, run: Run, order: seq<string>, n: nat)
    requires !Cyclic(wf)
    requires order == Order(Nodes(wf)) && n <= |order| && p.halt.Some?
    requires RunRecord(p, run) && Records(StepsOf(p.store, run.id), order[..n]) && Books(p, run.id, order[..n])
    ensures RunLevel(p.store, p.calls, wf, run.id)
  {
    hide Cyclic, TotalOf, Spent;
    RecordsPrefix(StepsOf(p.store, run.id), order, n);
    assert order[..n][n - 1] == order[n - 1];
    assert LevelAt(p.store, p.calls, wf, run.id, n);
  }

  lemma RecordsPrefix(steps: map<string, Step>, order: seq<string>, n: nat)
    requires n <= |order| && Records(steps, order[..n])
    ensures Prefix(steps, order, n)
  {
    forall i | 0 <= i < n - 1 ensures Succeeded(steps[order[i]]) {
      assert order[..n][i] == order[i];
    }
  }

  lemma FinishedBranches(p: Progress, wf: Workflow, env: Env, run: Run, d: Contents, s: PipelineStep)
    requires run.id == env.runID && s in wf.pipeline && Branch(p.store, p.calls, wf, env, s)
    requires d == WithRun(p.store, run.(status := RunComplete))
    ensures Branch(d, p.calls, wf, env, s)
  {
    SubUnder(run.id, s.id);
    assert NoneUnder([], SubRunID(run.id, s.id));
    BranchFrame(p.store, p.calls, d, [], wf, env, s);
    assert p.calls + [] == p.calls;
  }

  lemma LastKeepsAll(p: Progress, wf: Workflow, env: Env, run: Run, d: Contents, order: seq<string>)
    requires run.id == env.runID && order == Order(Nodes(wf)) && order != [] && p.halt.None?
    requires Records(StepsOf(d, run.id), order) && Succeeded(StepsOf(d, run.id)[order[|order| - 1]])
    requires forall s :: s in wf.pipeline ==> Branch(d, p.calls, wf, env, s)
    ensures Lost(d, p.calls, SubRunID(run.id, order[|order| - 1])) == ZERO
  {
    OrderDeclared(wf);
    var last := StepByID(wf.pipeline)[order[|order| - 1]];
    assert Branch(d, p.calls, wf, env, last);
    NothingLostBelow(d, p.calls, wf, env, last);
  }

  /** A run that took every step is complete, its tree is in order and its totals are what it spent. */
  lemma FinishedTree(p: Progress, wf: Workflow, env: Env, run: Run, d: Contents)
    requires !Cyclic(wf)
    requires Inv(p, wf, env, run, Order(Nodes(wf))) && p.halt.None?
    requires d == WithRun(p.store, run.(status := RunComplete))
    ensures Tree(d, p.calls, wf, env)
  {
    hide RunLevel, Branch, Cyclic, Untouched;
    var order := Order(Nodes(wf));
    forall s | s in wf.pipeline ensures Branch(d, p.calls, wf, env, s) {
      assert Branch(p.store, p.calls, wf, env, s);
      FinishedBranches(p, wf, env, run, d, s);
    }
    CompleteCovered(p.store, d, wf, run);
    if order != [] {
      LastKeepsAll(p, wf, env, run, d, order);
    }
    FinishedLevel(p, d, wf, run, order);
  }

  lemma CompleteCovered(c: Contents, d: Contents, wf: Workflow, run: Run)
    requires Covered(c, wf, run.id) && d == WithRun(c, run.(status := RunComplete))
    ensures Covered(d, wf, run.id)
  {
    forall r | Under(r, run.id) && r != run.id && r in d.runs ensures FromStep(d, wf, run.id, r) {
      assert FromStep(c, wf, run.id, r);
    }
  }

  lemma NothingLostBelow(c: Contents, calls: seq<Call>, wf: Workflow, env: Env, s: PipelineStep)
    requires s in wf.pipeline && Branch(c, calls, wf, env, s)
    requires s.id in StepsOf(c, env.runID) && Succeeded(StepsOf(c, env.runID)[s.id])
    ensures Lost(c, calls, SubRunID(env.runID, s.id)) == ZERO
  {
  }

  lemma FinishedLevel(p: Progress, d: Contents, wf: Workflow, run: Run, order: seq<string>)
    requires !Cyclic(wf)
    requires order == Order(Nodes(wf)) && p.halt.None?
    requires Records(StepsOf(p.store, run.id), order) && Books(p, run.id, order)
    requires order != [] ==> Lost(d, p.calls, SubRunID(run.id, order[|order| - 1])) == ZERO
    requires d == WithRun(p.store, run.(status := RunComplete))
    ensures RunLevel(d, p.calls, wf, run.id)
  {
    assert order[..|order|] == order;
    PlusZero(TotalOf(StepsOf(d, run.id)));
    assert LevelAt(d, p.calls, wf, run.id, |order|);
  }

  // ---- the induction over nested workflows ----

  lemma {:induction false} WorkflowBody(w: World, env: Env, wf: Workflow, s: PipelineStep, p: Progress) returns (added: seq<Call>)
    requires WellNamed(wf) && s in wf.pipeline && s.workflow != NoWorkflow
    requires Fresh(p.store, p.calls, SubRunID(env.runID, s.id))
    ensures BodyEffect(p, ExecuteWorkflow(w, env, wf, s, p), added, env, s)
    decreases wf, 0, 0
  {
    var r := ExecuteWorkflow(w, env, wf, s, p);
    added := [];
    if s.workflow.Unresolved? || w.subInput(env.runID, s.id, p.outputs).Err? {
      assert r.calls == p.calls + added;
      PlainBody(p, r, added, env, s);
    } else {
      var sub := s.workflow.wf;
      var input := w.subInput(env.runID, s.id, p.outputs).value;
      added := PipelineEffect(w, SubEnv(env, s), sub, sub.name, input, p.store, p.calls);
      var e := RunPipeline(w, SubEnv(env, s), sub, sub.name, input, p.store, p.calls);
      SubRunBody(p, e, r, added, env, s);
    }
  }

  lemma {:induction false} AnyBody(w: World, env: Env, wf: Workflow, s: PipelineStep, p: Progress) returns (added: seq<Call>)
    requires WellNamed(wf) && s in wf.pipeline
    requires Fresh(p.store, p.calls, SubRunID(env.runID, s.id))
    ensures BodyEffect(p, ExecuteBody(w, env, wf, s, p), added, env, s)
    decreases wf, 0, 1
  {
    match Kind(s, env.root)
    case SubWorkflow =>
      added := WorkflowBody(w, env, wf, s, p);
    case Agent =>
      if s.forEach.Some? {
        added := FanoutBody(w, env, s, s.forEach.value, p);
      } else {
        added := AgentBody(w, env, s, p);
      }
    case Transform =>
      added := [];
      assert p.calls == p.calls + added;
      PlainBody(p, ExecuteBody(w, env, wf, s, p), added, env, s);
    case Webhook =>
      added := [];
      assert p.calls == p.calls + added;
      PlainBody(p, ExecuteBody(w, env, wf, s, p), added, env, s);
  }

  lemma StartedFresh(env: Env, s: PipelineStep, p: Progress)
    requires Fresh(p.store, p.calls, SubRunID(env.runID, s.id))
    ensures Fresh(WithStep(p.store, NewRecord(env, s)), p.calls, SubRunID(env.runID, s.id))
  {
    SubUnder(env.runID, s.id);
  }

  /** From one moment of a run to a later one only the run and what is nested in it changes. */
  ghost predicate Grew(p: Progress, q: Progress, runID: string, added: seq<Call>) {
    && q.calls == p.calls + added
    && AllUnder(added, runID)
    && SameOutside(p.store, q.store, runID)
  }

  lemma GrewTwice(p: Progress, q: Progress, z: Progress, runID: string, a: seq<Call>, b: seq<Call>)
    requires Grew(p, q, runID, a) && Grew(q, z, runID, b)
    ensures Grew(p, z, runID, a + b)
  {
    OutsideTwice(p.store, q.store, z.store, runID);
    assert p.calls + (a + b) == (p.calls + a) + b;
  }

  lemma {:induction false} OneStep(w: World, env: Env, wf: Workflow, run: Run, s: PipelineStep, p: Progress, done: seq<string>) returns (added: seq<Call>)
    requires WellNamed(wf) && s in wf.pipeline && s.id !in done && run.id == env.runID
    requires Inv(p, wf, env, run, done) && p.halt.None?
    ensures Inv(RunStep(w, env, wf, run, s, p), wf, env, run, done + [s.id]) && Grew(p, RunStep(w, env, wf, run, s, p), run.id, added)
    decreases wf, 0, 3
  {
    var p1 := p.(store := WithStep(p.store, NewRecord(env, s)));
    added := [];
    if Suppressed(env, s) {
      SkippedStep(env, wf, run, s, p, p, map["suppressed" := Bool(true)], done);
    } else if s.condition && !w.condition(env.runID, s.id, p.outputs) {
      SkippedStep(env, wf, run, s, p, p1, map["skipped" := Bool(true), "reason" := Str("condition_false")], done);
    } else {
      StartedFresh(env, s, p);
      added := AnyBody(w, env, wf, s, p1);
      BodyStep(env, wf, run, s, p, ExecuteBody(w, env, wf, s, p1), added, done);
      StepCallsUnder(added, run.id, s.id);
    }
  }

  lemma {:induction false} AllSteps(w: World, env: Env, wf: Workflow, run: Run, order: seq<string>, p: Progress, done: seq<string>)
    returns (n: nat, done': seq<string>, added: seq<Call>)
    requires WellNamed(wf) && run.id == env.runID && Inv(p, wf, env, run, done)
    requires Distinct(done + order) && forall id :: id in order ==> id in StepByID(wf.pipeline)
    ensures n <= |order| && (RunSteps(w, env, wf, run, order, p).halt.None? ==> n == |order|)
    ensures done' == done + order[..n] && Inv(RunSteps(w, env, wf, run, order, p), wf, env, run, done')
    ensures Grew(p, RunSteps(w, env, wf, run, order, p), run.id, added)
    decreases wf, 1, |order|
  {
    hide Inv, WellNamed, RunStep;
    if order == [] || p.halt.Some? {
      n, done', added := 0, done, [];
      NothingAdded(done, order[..n]);
      NothingAdded(p.calls, added);
    } else {
      var s := StepByID(wf.pipeline)[order[0]];
      FirstIsNew(done, order);
      var one := OneStep(w, env, wf, run, s, p, done);
      var q := RunStep(w, env, wf, run, s, p);
      OneMore(done, order, |order| - 1);
      var m, last, rest := AllSteps(w, env, wf, run, order[1..], q, done + [s.id]);
      n, done', added := m + 1, last, one + rest;
      OneMore(done, order, m);
      GrewTwice(p, q, RunSteps(w, env, wf, run, order[1..], q), run.id, one, rest);
    }
  }

  lemma NothingAdded<T>(a: seq<T>, b: seq<T>)
    requires b == []
    ensures a + b == a && b + a == a
  {
  }

  lemma TakeAll(order: seq<string>, n: nat)
    requires n == |order|
    ensures order[..n] == order
  {
  }

  lemma OneMore(done: seq<string>, order: seq<string>, m: nat)
    requires m < |order|
    ensures (done + [order[0]]) + order[1..] == done + order
    ensures (done + [order[0]]) + order[1..][..m] == done + order[..m + 1]
  {
  }

  lemma FirstIsNew(done: seq<string>, order: seq<string>)
    requires Distinct(done + order) && order != []
    ensures order[0] !in done
  {
    var all := done + order;
    assert all[|done|] == order[0];
    forall i | 0 <= i < |done| ensures done[i] != order[0] {
      assert all[i] == done[i];
    }
  }

  lemma OutsideTwice(b: Contents, c: Contents, d: Contents, root: string)
    requires SameOutside(b, c, root) && SameOutside(c, d, root)
    ensures SameOutside(b, d, root)
  {
    forall r | !Under(r, root) ensures SameRun(b, d, r) {
      assert SameRun(b, c, r) && SameRun(c, d, r);
    }
  }

  lemma {:induction false} OrderedSteps(w: World, env: Env, wf: Workflow, run: Run, p: Progress) returns (n: nat, added: seq<Call>)
    requires WellNamed(wf) && run.id == env.runID && Inv(p, wf, env, run, [])
    ensures n <= |Order(Nodes(wf))| && forall id :: id in Order(Nodes(wf)) ==> id in StepByID(wf.pipeline)
    ensures Inv(RunSteps(w, env, wf, run, Order(Nodes(wf)), p), wf, env, run, Order(Nodes(wf))[..n])
    ensures Grew(p, RunSteps(w, env, wf, run, Order(Nodes(wf)), p), run.id, added)
    ensures RunSteps(w, env, wf, run, Order(Nodes(wf)), p).halt.None? ==> n == |Order(Nodes(wf))|
    decreases wf, 1, |Order(Nodes(wf))| + 1
  {
    var order := Order(Nodes(wf));
    OrderDeclared(wf);
    OrderDistinct(Nodes(wf), 0);
    NothingAdded(order, []);
    var done;
    n, done, added := AllSteps(w, env, wf, run, order, p, []);
    NothingAdded(order[..n], []);
  }

  lemma CyclicTree(p: Progress, wf: Workflow, env: Env, run: Run)
    requires Inv(p, wf, env, run, []) && p.halt.None?
    requires HasCycle(Adjacency(Nodes(wf))) && run.status == RunRunning
    ensures Tree(p.store, p.calls, wf, env)
  {
    CyclicLevel(p, wf, run);
  }

  lemma CyclicEffect(wf: Workflow, env: Env, run: Run, store: Contents, calls: seq<Call>, e: Ended)
    requires run.id == env.runID && run.status == RunRunning
    requires e == Ended(Failure("dag resolve"), WithRun(store, run), calls)
    requires Tree(e.store, e.calls, wf, env) && SameOutside(store, e.store, run.id)
    ensures RunEffect(store, calls, e, [], wf, env)
  {
    hide Tree, SameOutside, HandedUp;
    NothingAdded(calls, []);
  }

  lemma CyclicLevel(p: Progress, wf: Workflow, run: Run)
    requires RunRecord(p, run) && Records(StepsOf(p.store, run.id), []) && Books(p, run.id, []) && p.halt.None?
    requires HasCycle(Adjacency(Nodes(wf))) && run.status == RunRunning
    ensures RunLevel(p.store, p.calls, wf, run.id)
  {
    PlusZero(TotalOf(StepsOf(p.store, run.id)));
    assert LevelAt(p.store, p.calls, wf, run.id, 0);
  }

  lemma HaltedEffect(wf: Workflow, env: Env, run: Run, store: Contents, calls: seq<Call>, q: Progress, n: nat, added: seq<Call>, e: Ended)
    requires !Cyclic(wf)
    requires n <= |Order(Nodes(wf))| && Inv(q, wf, env, run, Order(Nodes(wf))[..n])
    requires Grew(Begin(run, store, calls), q, run.id, added)
    requires SameOutside(store, WithRun(store, run), run.id)
    requires q.halt.Some? && e == Ended(Failure(q.halt.value), q.store, q.calls)
    ensures RunEffect(store, calls, e, added, wf, env)
  {
    OutsideTwice(store, WithRun(store, run), q.store, run.id);
    HaltedTree(q, wf, env, run, Order(Nodes(wf)), n);
  }

  lemma FinishedHandsUp(wf: Workflow, env: Env, run: Run, q: Progress, e: Ended)
    requires Inv(q, wf, env, run, Order(Nodes(wf))) && q.halt.None?
    requires e.store == WithRun(q.store, run.(status := RunComplete)) && e.calls == q.calls
    requires e.outcome.error.None? && e.outcome.metrics == q.agg
    requires !wf.mapsOutput ==> e.outcome.output == if q.final.Some? then q.final.value else map[]
    ensures HandedUp(e, wf, run.id)
  {
    assert StepsOf(e.store, run.id) == StepsOf(q.store, run.id);
  }

  lemma FinishedOutside(run: Run, store: Contents, calls: seq<Call>, q: Progress, added: seq<Call>, e: Ended)
    requires Grew(Begin(run, store, calls), q, run.id, added) && SameOutside(store, WithRun(store, run), run.id)
    requires e.store == WithRun(q.store, run.(status := RunComplete)) && e.calls == q.calls
    ensures e.calls == calls + added && AllUnder(added, run.id) && SameOutside(store, e.store, run.id)
  {
    UnderItself(run.id);
    OutsideTwice(store, WithRun(store, run), q.store, run.id);
    OutsideTwice(store, q.store, e.store, run.id);
  }

  lemma FinishedEffect(wf: Workflow, env: Env, run: Run, store: Contents, calls: seq<Call>, q: Progress, added: seq<Call>, e: Ended)
    requires !Cyclic(wf)
    requires Inv(q, wf, env, run, Order(Nodes(wf))) && Grew(Begin(run, store, calls), q, run.id, added)
    requires SameOutside(store, WithRun(store, run), run.id)
    requires q.halt.None? && e.store == WithRun(q.store, run.(status := RunComplete)) && e.calls == q.calls
    requires e.outcome.error.None? && e.outcome.metrics == q.agg
    requires !wf.mapsOutput ==> e.outcome.output == if q.final.Some? then q.final.value else map[]
    ensures RunEffect(store, calls, e, added, wf, env)
  {
    FinishedTree(q, wf, env, run, e.store);
    FinishedHandsUp(wf, env, run, q, e);
    FinishedOutside(run, store, calls, q, added, e);
  }

  lemma CyclicRun(wf: Workflow, env: Env, run: Run, store: Contents, calls: seq<Call>, e: Ended)
    requires run.id == env.runID && Fresh(store, calls, run.id) && HasCycle(Adjacency(Nodes(wf)))
    requires run.status == RunRunning && e == Ended(Failure("dag resolve"), WithRun(store, run), calls)
    ensures RunEffect(store, calls, e, [], wf, env)
  {
    hide Inv, Tree, SameOutside, Fresh, HasCycle;
    BeginInv(wf, env, run, store, calls);
    CyclicTree(Begin(run, store, calls), wf, env, run);
    CyclicEffect(wf, env, run, store, calls, e);
  }

  /** A run whose steps can be ordered. */
  lemma {:induction false} OrderedEffect(w: World, env: Env, wf: Workflow, run: Run, store: Contents, calls: seq<Call>) returns (added: seq<Call>)
    requires WellNamed(wf) && run.id == env.runID && Fresh(store, calls, run.id) && !Cyclic(wf)
    ensures forall id :: id in Order(Nodes(wf)) ==> id in StepByID(wf.pipeline)
    ensures
      var q := RunSteps(w, env, wf, run, Order(Nodes(wf)), Begin(run, store, calls));
      RunEffect(store, calls, Finish(w, env, wf, run, q), added, wf, env)
    decreases wf, 1, |Order(Nodes(wf))| + 2
  {
    hide Inv, WellNamed, RunEffect, Fresh, Cyclic, SameOutside, Order;
    BeginInv(wf, env, run, store, calls);
    var n, more := OrderedSteps(w, env, wf, run, Begin(run, store, calls));
    added := more;
    var q := RunSteps(w, env, wf, run, Order(Nodes(wf)), Begin(run, store, calls));
    if q.halt.Some? {
      HaltedEffect(wf, env, run, store, calls, q, n, added, Finish(w, env, wf, run, q));
    } else {
      TakeAll(Order(Nodes(wf)), n);
      FinishedEffect(wf, env, run, store, calls, q, added, Finish(w, env, wf, run, q));
    }
  }

  /** Every run on a fresh id leaves a tree in order and hands up what was spent. */
  lemma {:induction false} PipelineEffect(w: World, env: Env, wf: Workflow, name: string, input: Object, store: Contents, calls: seq<Call>)
    returns (added: seq<Call>)
    requires WellNamed(wf) && Fresh(store, calls, env.runID)
    ensures RunEffect(store, calls, RunPipeline(w, env, wf, name, input, store, calls), added, wf, env)
    decreases wf, 2, 0
  {
    var run := NewRun(env, name, input);
    UnderItself(env.runID);
    if HasCycle(Adjacency(Nodes(wf))) {
      added := [];
      CyclicRun(wf, env, run, store, calls, RunPipeline(w, env, wf, name, input, store, calls));
    } else {
      added := OrderedEffect(w, env, wf, run, store, calls);
    }
  }
}
