/** The tree of runs a workflow leaves in the store: run ids, framing, and what holds at every node. */
module RunTree {
  import opened Wrappers
  import opened Values
  import opened Metrics
  import opened Types
  import opened Reserved
  import opened Graphs
  import opened CycleDetection
  import opened Layering
  import opened LayerOrder
  import opened MemStore
  import opened RunnerSpec

  // ---- run ids ----

  /** `r` is the run `root` or one nested in it at any depth. */
  predicate Under(r: string, root: string) {
    r == root || root + "/" <= r
  }

  lemma UnderTrans(r: string, mid: string, root: string)
    requires Under(r, mid) && Under(mid, root)
    ensures Under(r, root)
  {
    if r != mid && mid != root {
      assert root + "/" <= mid <= mid + "/" <= r;
    }
  }

  lemma SubUnder(runID: string, stepID: string)
    ensures Under(SubRunID(runID, stepID), runID)
    ensures !Under(runID, SubRunID(runID, stepID))
  {
    assert runID + "/" <= SubRunID(runID, stepID);
  }

  lemma Tail(runID: string, a: string, r: string)
    requires Under(r, SubRunID(runID, a))
    ensures |r| >= |runID| + 1 + |a| && a <= r[|runID| + 1..]
    ensures |r| > |runID| + 1 + |a| ==> r[|runID| + 1 + |a|] == '/'
  {
    var sub := SubRunID(runID, a);
    assert sub[|runID| + 1..] == a;
    if r != sub {
      assert r[..|sub| + 1] == sub + "/";
      assert r[|sub|] == (sub + "/")[|sub|];
      assert r[..|sub|] == sub;
      assert r[|runID| + 1..][..|a|] == r[..|sub|][|runID| + 1..];
    }
  }

  /** Id `b` starts with id `a` and a slash. */
  predicate Nests(a: string, b: string) {
    a + "/" <= b
  }

  lemma Shorter(a: string, b: string, t: string)
    requires a <= t && b <= t && |a| < |b| && t[|a|] == '/'
    ensures Nests(a, b)
  {
    assert b[..|a| + 1] == t[..|a| + 1] == a + "/";
  }

  /** The runs nested in two different steps of a run are disjoint, if neither id starts with the other and a slash. */
  lemma SiblingsApart(runID: string, a: string, b: string, r: string)
    requires !Nests(a, b) && !Nests(b, a) && Under(r, SubRunID(runID, a)) && Under(r, SubRunID(runID, b))
    ensures a == b
  {
    var t := r[|runID| + 1..];
    Tail(runID, a, r);
    Tail(runID, b, r);
    if |a| < |b| {
      Shorter(a, b, t);
    } else if |b| < |a| {
      Shorter(b, a, t);
    } else {
      assert a == t[..|a|] && b == t[..|b|];
    }
  }

  lemma InnerUnderOuter(runID: string, a: string, b: string)
    requires Nests(a, b)
    ensures Under(SubRunID(runID, b), SubRunID(runID, a))
  {
    assert SubRunID(runID, b) == runID + "/" + b;
    assert SubRunID(runID, a) + "/" == (runID + "/") + (a + "/");
    assert b == a + "/" + b[|a| + 1..];
  }

  /** Two steps of a run can have a nested run in common exactly when they are one step or one id starts with the other and a slash. */
  lemma SiblingsMeetExactly(runID: string, a: string, b: string)
    ensures (exists r :: Under(r, SubRunID(runID, a)) && Under(r, SubRunID(runID, b))) <==> a == b || Nests(a, b) || Nests(b, a)
  {
    forall r | Under(r, SubRunID(runID, a)) && Under(r, SubRunID(runID, b)) ensures a == b || Nests(a, b) || Nests(b, a) {
      if !Nests(a, b) && !Nests(b, a) {
        SiblingsApart(runID, a, b, r);
      }
    }
    if Nests(a, b) {
      InnerUnderOuter(runID, a, b);
    } else if Nests(b, a) {
      InnerUnderOuter(runID, b, a);
    }
    assert Under(SubRunID(runID, a), SubRunID(runID, a)) && Under(SubRunID(runID, b), SubRunID(runID, b));
  }

  /**
   * What the theorems ask of a workflow, and of every workflow nested in it: unique step ids of which
   * none starts with another one and a slash.
   */
  ghost predicate WellNamed(wf: Workflow)
    decreases wf
  {
    && UniqueIds(Nodes(wf))
    && (forall s, t :: s in wf.pipeline && t in wf.pipeline ==> !Nests(s.id, t.id))
    && (forall s :: s in wf.pipeline && s.workflow.Resolved? ==> WellNamed(s.workflow.wf))
  }

  /** Two steps of a run never share a nested run id, nor do runs of different parents. */
  lemma NestedIdsInjective(run1: string, step1: string, run2: string, step2: string)
    requires SlashFree(step1) && SlashFree(step2) && SubRunID(run1, step1) == SubRunID(run2, step2)
    ensures run1 == run2 && step1 == step2
  {
    ApprovalKeyInjective(run1, step1, run2, step2);
  }

  // ---- framing ----

  predicate SameRun(c: Contents, d: Contents, r: string) {
    && (r in c.runs <==> r in d.runs)
    && (r in c.runs ==> c.runs[r] == d.runs[r])
    && StepsOf(c, r) == StepsOf(d, r)
  }

  /** The second store keeps the record of a step. */
  predicate SameStep(c: Contents, d: Contents, runID: string, id: string) {
    id in StepsOf(c, runID) ==> id in StepsOf(d, runID) && StepsOf(d, runID)[id] == StepsOf(c, runID)[id]
  }

  /** The two stores agree on every run outside `root`. */
  ghost predicate SameOutside(c: Contents, d: Contents, root: string) {
    && c.approvals == d.approvals
    && forall r :: !Under(r, root) ==> SameRun(c, d, r)
  }

  /** The two stores agree on `root` and everything nested in it. */
  ghost predicate SameUnder(c: Contents, d: Contents, root: string) {
    forall r :: Under(r, root) ==> SameRun(c, d, r)
  }

  ghost predicate AllUnder(calls: seq<Call>, root: string) {
    forall e :: e in calls ==> Under(e.runID, root)
  }

  ghost predicate NoneUnder(calls: seq<Call>, root: string) {
    forall e :: e in calls ==> !Under(e.runID, root)
  }

  /** Nothing is known of the run `root` or of anything nested in it. */
  ghost predicate Fresh(c: Contents, calls: seq<Call>, root: string) {
    && (forall r :: Under(r, root) ==> r !in c.runs && StepsOf(c, r) == map[])
    && NoneUnder(calls, root)
  }

  lemma NoneUnderSub(calls: seq<Call>, root: string, sub: string)
    requires NoneUnder(calls, root) && Under(sub, root)
    ensures NoneUnder(calls, sub)
  {
    forall e | e in calls && Under(e.runID, sub) ensures false {
      UnderTrans(e.runID, sub, root);
    }
  }

  // ---- what the calls under a run cost ----

  function CallShare(e: Call, root: string): Metrics {
    if Under(e.runID, root) then e.metrics else ZERO
  }

  function Spent(calls: seq<Call>, root: string): Metrics {
    if calls == [] then ZERO else Spent(calls[..|calls| - 1], root).Plus(CallShare(calls[|calls| - 1], root))
  }

  lemma {:induction false} SpentConcat(a: seq<Call>, b: seq<Call>, root: string)
    ensures Spent(a + b, root) == Spent(a, root).Plus(Spent(b, root))
  {
    if b == [] {
      assert a + b == a;
    } else {
      assert (a + b)[..|a + b| - 1] == a + b[..|b| - 1];
      SpentConcat(a, b[..|b| - 1], root);
    }
  }

  lemma {:induction false} SpentNone(calls: seq<Call>, root: string)
    requires NoneUnder(calls, root)
    ensures Spent(calls, root) == ZERO
  {
    if calls != [] {
      assert calls[|calls| - 1] in calls;
      SpentNone(calls[..|calls| - 1], root);
    }
  }

  lemma {:induction false} SpentWider(calls: seq<Call>, sub: string, root: string)
    requires Under(sub, root) && AllUnder(calls, sub)
    ensures Spent(calls, root) == Spent(calls, sub)
  {
    if calls != [] {
      assert calls[|calls| - 1] in calls;
      SpentWider(calls[..|calls| - 1], sub, root);
      UnderTrans(calls[|calls| - 1].runID, sub, root);
    }
  }

  /** Calls made elsewhere cost a run nothing. */
  lemma SpentElsewhere(calls: seq<Call>, added: seq<Call>, root: string)
    requires NoneUnder(added, root)
    ensures Spent(calls + added, root) == Spent(calls, root)
  {
    SpentConcat(calls, added, root);
    SpentNone(added, root);
  }

  // ---- what holds of a run that is over ----

  predicate Succeeded(s: Step) {
    s.status == Complete || s.status == Skipped
  }

  predicate IsComplete(c: Contents, runID: string) {
    runID in c.runs && c.runs[runID].status == RunComplete
  }

  /** What the envelope of a run misses: all that a direct sub-run spent which did not complete. */
  function Lost(c: Contents, calls: seq<Call>, sub: string): Metrics {
    if sub in c.runs && !IsComplete(c, sub) then Spent(calls, sub) else ZERO
  }

  /** The first `n` steps of the order are exactly those with a record, and only the last may have failed. */
  ghost predicate Prefix(steps: map<string, Step>, order: seq<string>, n: nat) {
    && n <= |order|
    && (forall id :: id in steps <==> id in order[..n])
    && (forall i :: 0 <= i < n - 1 ==> Succeeded(steps[order[i]]))
  }

  ghost predicate Cyclic(wf: Workflow) {
    HasCycle(Adjacency(Nodes(wf)))
  }

  /** How the run's status reflects its steps: a run that cannot be ordered stays running. */
  ghost predicate StatusFits(status: RunStatus, steps: map<string, Step>, wf: Workflow, n: nat)
    requires Prefix(steps, Order(Nodes(wf)), n)
  {
    var order := Order(Nodes(wf));
    match status
    case RunComplete => !Cyclic(wf) && n == |order| && (n > 0 ==> Succeeded(steps[order[n - 1]]))
    case RunFailed => !Cyclic(wf) && n > 0 && steps[order[n - 1]].status == Failed
    case RunRunning => Cyclic(wf) && n == 0
  }

  /** The steps' totals account for all that was spent, but for a last step whose sub-run failed. */
  ghost predicate Balanced(c: Contents, calls: seq<Call>, runID: string, order: seq<string>, n: nat) {
    TotalOf(StepsOf(c, runID)).Plus(if 0 < n <= |order| then Lost(c, calls, SubRunID(runID, order[n - 1])) else ZERO)
      == Spent(calls, runID)
  }

  ghost predicate LevelAt(c: Contents, calls: seq<Call>, wf: Workflow, runID: string, n: nat) {
    && runID in c.runs
    && Prefix(StepsOf(c, runID), Order(Nodes(wf)), n)
    && StatusFits(c.runs[runID].status, StepsOf(c, runID), wf, n)
    && Balanced(c, calls, runID, Order(Nodes(wf)), n)
  }

  /**
   * Fail-fast and accounting at one run: its records are a prefix of the order, only the last may
   * have failed, the run is complete exactly when no step is missing or failed, and its totals
   * account for everything spent below it.
   */
  ghost predicate RunLevel(c: Contents, calls: seq<Call>, wf: Workflow, runID: string) {
    exists n: nat :: LevelAt(c, calls, wf, runID, n)
  }

  /**
   * A record is of the step's kind, a suppressed one is skipped, and it has an output exactly when
   * its step is complete, which then passed the air-lock.
   */
  predicate RecordFits(rec: Step, env: Env, s: PipelineStep) {
    && rec.id == s.id && rec.runID == env.runID && rec.kind == Kind(s, env.root)
    && (Suppressed(env, s) ==> rec.status == Skipped && rec.metrics == ZERO)
    && (rec.output.Some? <==> rec.status == Complete)
    && (rec.output.Some? ==> Airlock(rec.output.value, s.required))
  }

  ghost predicate Delivered(c: Contents, wf: Workflow, env: Env) {
    forall s :: s in wf.pipeline && s.id in StepsOf(c, env.runID) ==> RecordFits(StepsOf(c, env.runID)[s.id], env, s)
  }

  /** The output of the last complete step among `done`. */
  function LastComplete(steps: map<string, Step>, done: seq<string>): Option<Object> {
    if done == [] then None
    else
      var last := done[|done| - 1];
      if last in steps && steps[last].status == Complete then steps[last].output
      else LastComplete(steps, done[..|done| - 1])
  }

  lemma {:induction false} LastCompleteFrame(steps: map<string, Step>, more: map<string, Step>, done: seq<string>)
    requires forall id :: id in done ==> (id in steps <==> id in more) && (id in steps ==> steps[id] == more[id])
    ensures LastComplete(steps, done) == LastComplete(more, done)
  {
    if done != [] {
      assert done[|done| - 1] in done;
      LastCompleteFrame(steps, more, done[..|done| - 1]);
    }
  }

  /** A sub-run and the record of its step: a complete one hands up its totals, another fails the step. */
  ghost predicate Nested(c: Contents, runID: string, id: string) {
    && id in StepsOf(c, runID)
    && var (step, sub) := (StepsOf(c, runID)[id], SubRunID(runID, id));
       if IsComplete(c, sub) then step.metrics == TotalOf(StepsOf(c, sub))
       else step.status == Failed && step.metrics == ZERO
  }

  ghost predicate Branch(c: Contents, calls: seq<Call>, wf: Workflow, env: Env, s: PipelineStep)
    requires s in wf.pipeline
    decreases wf, 0
  {
    SubRunID(env.runID, s.id) in c.runs ==>
      s.workflow.Resolved? && Nested(c, env.runID, s.id) && Tree(c, calls, s.workflow.wf, SubEnv(env, s))
  }

  /** Every run nested in this one was started by one of its steps. */
  ghost predicate Covered(c: Contents, wf: Workflow, runID: string) {
    forall r :: Under(r, runID) && r != runID && r in c.runs ==> FromStep(c, wf, runID, r)
  }

  ghost predicate FromStep(c: Contents, wf: Workflow, runID: string, r: string) {
    exists s :: s in wf.pipeline && Under(r, SubRunID(runID, s.id)) && SubRunID(runID, s.id) in c.runs
  }

  /** The run and everything nested in it. */
  ghost predicate Tree(c: Contents, calls: seq<Call>, wf: Workflow, env: Env)
    decreases wf, 1
  {
    && RunLevel(c, calls, wf, env.runID)
    && Covered(c, wf, env.runID)
    && Delivered(c, wf, env)
    && forall s :: s in wf.pipeline ==> Branch(c, calls, wf, env, s)
  }

  lemma CoveredFrame(c: Contents, d: Contents, wf: Workflow, runID: string)
    requires Covered(c, wf, runID) && SameUnder(c, d, runID)
    ensures Covered(d, wf, runID)
  {
    forall r | Under(r, runID) && r != runID && r in d.runs ensures FromStep(d, wf, runID, r) {
      assert SameRun(c, d, r);
      var s :| s in wf.pipeline && Under(r, SubRunID(runID, s.id)) && SubRunID(runID, s.id) in c.runs;
      SubUnder(runID, s.id);
      assert SameRun(c, d, SubRunID(runID, s.id));
    }
  }

  lemma LevelFrame(c: Contents, calls: seq<Call>, d: Contents, added: seq<Call>, wf: Workflow, runID: string)
    requires RunLevel(c, calls, wf, runID) && SameUnder(c, d, runID) && NoneUnder(added, runID)
    ensures RunLevel(d, calls + added, wf, runID)
  {
    var n: nat :| LevelAt(c, calls, wf, runID, n);
    var order := Order(Nodes(wf));
    assert SameRun(c, d, runID);
    SpentElsewhere(calls, added, runID);
    if 0 < n {
      LostFrame(c, calls, d, added, runID, order[n - 1]);
    }
    assert LevelAt(d, calls + added, wf, runID, n);
  }

  lemma LostFrame(c: Contents, calls: seq<Call>, d: Contents, added: seq<Call>, runID: string, id: string)
    requires SameUnder(c, d, runID) && NoneUnder(added, runID)
    ensures Lost(d, calls + added, SubRunID(runID, id)) == Lost(c, calls, SubRunID(runID, id))
  {
    var sub := SubRunID(runID, id);
    SubUnder(runID, id);
    assert SameRun(c, d, sub);
    NoneUnderSub(added, runID, sub);
    SpentElsewhere(calls, added, sub);
  }

  lemma NarrowFrame(c: Contents, d: Contents, added: seq<Call>, root: string, sub: string)
    requires SameUnder(c, d, root) && NoneUnder(added, root) && Under(sub, root)
    ensures SameUnder(c, d, sub) && NoneUnder(added, sub)
  {
    NoneUnderSub(added, root, sub);
    forall r | Under(r, sub) ensures SameRun(c, d, r) {
      UnderTrans(r, sub, root);
    }
  }

  /** What happens elsewhere does not change a tree. */
  lemma {:induction false} TreeFrame(c: Contents, calls: seq<Call>, d: Contents, added: seq<Call>, wf: Workflow, env: Env)
    requires Tree(c, calls, wf, env) && SameUnder(c, d, env.runID) && NoneUnder(added, env.runID)
    ensures Tree(d, calls + added, wf, env)
    decreases wf, 1
  {
    LevelFrame(c, calls, d, added, wf, env.runID);
    CoveredFrame(c, d, wf, env.runID);
    assert SameRun(c, d, env.runID);
    forall s | s in wf.pipeline ensures Branch(d, calls + added, wf, env, s) {
      SubUnder(env.runID, s.id);
      NarrowFrame(c, d, added, env.runID, SubRunID(env.runID, s.id));
      assert Branch(c, calls, wf, env, s) && SameRun(c, d, env.runID);
      BranchFrame(c, calls, d, added, wf, env, s);
    }
  }

  lemma {:induction false} BranchFrame(c: Contents, calls: seq<Call>, d: Contents, added: seq<Call>, wf: Workflow, env: Env, s: PipelineStep)
    requires s in wf.pipeline && Branch(c, calls, wf, env, s) && SameStep(c, d, env.runID, s.id)
    requires SameUnder(c, d, SubRunID(env.runID, s.id)) && NoneUnder(added, SubRunID(env.runID, s.id))
    ensures Branch(d, calls + added, wf, env, s)
    decreases wf, 0
  {
    var sub := SubRunID(env.runID, s.id);
    assert SameRun(c, d, sub);
    if sub in d.runs {
      TreeFrame(c, calls, d, added, s.workflow.wf, SubEnv(env, s));
    }
  }

  // ---- what a complete run tells of the runs below it ----

  /** A step that succeeded did so with every run below it complete. */
  lemma SucceededBranch(c: Contents, calls: seq<Call>, wf: Workflow, env: Env, s: PipelineStep)
    requires s in wf.pipeline && Branch(c, calls, wf, env, s) && SubRunID(env.runID, s.id) in c.runs
    requires Succeeded(StepsOf(c, env.runID)[s.id])
    ensures IsComplete(c, SubRunID(env.runID, s.id)) && Tree(c, calls, s.workflow.wf, SubEnv(env, s))
  {
  }

  lemma AllSucceeded(steps: map<string, Step>, order: seq<string>, n: nat, id: string)
    requires Prefix(steps, order, n) && id in steps && (n > 0 ==> Succeeded(steps[order[n - 1]]))
    ensures Succeeded(steps[id])
  {
    var i :| 0 <= i < n && order[..n][i] == id;
    assert i < n - 1 || i == n - 1;
  }

  lemma CompleteLevel(c: Contents, calls: seq<Call>, wf: Workflow, runID: string, id: string)
    requires RunLevel(c, calls, wf, runID) && IsComplete(c, runID) && id in StepsOf(c, runID)
    ensures Succeeded(StepsOf(c, runID)[id])
  {
    var n: nat :| LevelAt(c, calls, wf, runID, n);
    AllSucceeded(StepsOf(c, runID), Order(Nodes(wf)), n, id);
  }

  /** A run is complete only if every run nested in it, at any depth, is complete. */
  lemma {:induction false} CompleteThroughout(c: Contents, calls: seq<Call>, wf: Workflow, env: Env, r: string)
    requires Tree(c, calls, wf, env) && IsComplete(c, env.runID)
    requires r in c.runs && Under(r, env.runID)
    ensures IsComplete(c, r)
    decreases wf
  {
    if r != env.runID {
      assert FromStep(c, wf, env.runID, r);
      var s :| s in wf.pipeline && Under(r, SubRunID(env.runID, s.id)) && SubRunID(env.runID, s.id) in c.runs;
      assert Branch(c, calls, wf, env, s);
      CompleteLevel(c, calls, wf, env.runID, s.id);
      SucceededBranch(c, calls, wf, env, s);
      CompleteThroughout(c, calls, s.workflow.wf, SubEnv(env, s), r);
    }
  }
}
