/** The in-memory store of internal/orchestrator/state/mem_store.go. */
module MemStore {
  import opened Wrappers
  import opened Values
  import opened Metrics
  import opened Types

  datatype Run = Run(id: string, workflowName: string, status: RunStatus, error: string, payload: Object)

  datatype Step = Step(
    id: string,
    runID: string,
    kind: StepKind,
    status: StepStatus,
    error: string,
    output: Option<Object>,
    metrics: Metrics)

  datatype ApprovalRecord = ApprovalRecord(runID: string, stepID: string, toolUseID: string, status: ApprovalStatus)

  /** The contents of a store, as plain maps. */
  datatype Contents = Contents(
    runs: map<string, Run>,
    steps: map<string, map<string, Step>>,
    approvals: map<string, ApprovalRecord>)

  const EMPTY := Contents(map[], map[], map[])

  function StepsOf(c: Contents, runID: string): map<string, Step> {
    if runID in c.steps then c.steps[runID] else map[]
  }

  function ApprovalKey(runID: string, stepID: string): string {
    runID + "/" + stepID
  }

  // ---- what the operations do to the contents ----

  function WithRun(c: Contents, r: Run): Contents {
    c.(runs := c.runs[r.id := r])
  }

  function StoreStep<V>(steps: map<string, map<string, V>>, runID: string, id: string, s: V): map<string, map<string, V>> {
    steps[runID := (if runID in steps then steps[runID] else map[])[id := s]]
  }

  function WithStep(c: Contents, s: Step): Contents {
    c.(steps := StoreStep(c.steps, s.runID, s.id, s))
  }

  function WithApproval(c: Contents, a: ApprovalRecord): Contents {
    c.(approvals := c.approvals[ApprovalKey(a.runID, a.stepID) := a])
  }

  // ---- totals ----

  predicate Counted(s: Step) {
    s.status != Running && s.status != NotStarted
  }

  /** What a step adds to its run: nothing before it starts or while it is running. */
  function Share(steps: map<string, Step>, id: string): Metrics {
    if id in steps && Counted(steps[id]) then steps[id].metrics else ZERO
  }

  /** The shares of the given steps together, in whatever order. */
  ghost function TotalOver(steps: map<string, Step>, ids: set<string>): Metrics {
    if ids == {} then ZERO
    else
      var k :| k in ids;
      TotalOver(steps, ids - {k}).Plus(Share(steps, k))
  }

  /** The metrics of all finished steps. */
  ghost function TotalOf(steps: map<string, Step>): Metrics {
    TotalOver(steps, steps.Keys)
  }

  lemma PlusSwap(a: Metrics, b: Metrics, c: Metrics)
    ensures a.Plus(b).Plus(c) == a.Plus(c).Plus(b)
  {
  }

  /** The total does not depend on which step is taken out first. */
  lemma {:induction false} TotalTakeOut(steps: map<string, Step>, ids: set<string>, k: string)
    requires k in ids
    ensures TotalOver(steps, ids) == TotalOver(steps, ids - {k}).Plus(Share(steps, k))
    decreases ids
  {
    var j :| j in ids && TotalOver(steps, ids) == TotalOver(steps, ids - {j}).Plus(Share(steps, j));
    if j != k {
      hide Share;
      TotalTakeOut(steps, ids - {j}, k);
      TotalTakeOut(steps, ids - {k}, j);
      assert ids - {j} - {k} == ids - {k} - {j};
      PlusSwap(TotalOver(steps, ids - {j} - {k}), Share(steps, k), Share(steps, j));
    }
  }

  /** Only the listed steps matter. */
  lemma {:induction false} TotalAgrees(a: map<string, Step>, b: map<string, Step>, ids: set<string>)
    requires forall k :: k in ids ==> Share(a, k) == Share(b, k)
    ensures TotalOver(a, ids) == TotalOver(b, ids)
    decreases ids
  {
    if k :| k in ids {
      TotalAgrees(a, b, ids - {k});
      TotalTakeOut(a, ids, k);
      TotalTakeOut(b, ids, k);
    }
  }

  /** One more step of an enumeration: `todo` is what is left. */
  lemma TotalNext(steps: map<string, Step>, todo: set<string>, id: string)
    requires id in todo && todo <= steps.Keys
    ensures TotalOver(steps, steps.Keys - (todo - {id})) == TotalOver(steps, steps.Keys - todo).Plus(Share(steps, id))
    ensures todo == {id} ==> TotalOver(steps, steps.Keys - (todo - {id})) == TotalOf(steps)
  {
    hide TotalOver, Share;
    TotalTakeOut(steps, steps.Keys - (todo - {id}), id);
    assert steps.Keys - (todo - {id}) - {id} == steps.Keys - todo;
    if todo == {id} {
      assert steps.Keys - (todo - {id}) == steps.Keys;
    }
  }

  /** Storing a step replaces what it counted for before. */
  lemma TotalPut(steps: map<string, Step>, s: Step)
    ensures TotalOf(steps[s.id := s]) ==
      TotalOver(steps, steps.Keys - {s.id}).Plus(if s.status == Running || s.status == NotStarted then ZERO else s.metrics)
    ensures TotalOf(steps) == TotalOver(steps, steps.Keys - {s.id}).Plus(Share(steps, s.id))
  {
    hide TotalOver;
    var after := steps[s.id := s];
    TotalTakeOut(after, after.Keys, s.id);
    assert after.Keys - {s.id} == steps.Keys - {s.id};
    TotalAgrees(after, steps, steps.Keys - {s.id});
    if s.id in steps {
      TotalTakeOut(steps, steps.Keys, s.id);
    } else {
      assert steps.Keys - {s.id} == steps.Keys;
    }
  }

  // ---- envelopes ----

  /** What an envelope reports of the metrics: reflection calls are left out. */
  datatype Totals = Totals(usage: Usage, llmCalls: int, toolCalls: int)

  datatype StepEntry = StepEntry(id: string, output: Object, metrics: Metrics, status: StepStatus, error: string)

  datatype RunEnvelope = RunEnvelope(
    runID: string,
    workflow: string,
    status: RunStatus,
    error: string,
    payload: Object,
    steps: seq<StepEntry>,
    totals: Totals)

  function Reported(m: Metrics): Totals {
    Totals(m.usage, m.counts.llmCalls, m.counts.toolCalls)
  }

  /** A step without an output is reported with an empty one. */
  function EntryOf(s: Step): StepEntry {
    StepEntry(s.id, if s.output.Some? then s.output.value else map[], s.metrics, s.status, s.error)
  }

  /** The entries of those of the steps `seen` that count, each once, in the given order. */
  ghost predicate Lists(steps: map<string, Step>, seen: set<string>, order: seq<string>, entries: seq<StepEntry>) {
    && |entries| == |order|
    && (forall id :: id in order <==> id in seen && id in steps && Counted(steps[id]))
    && (forall i, j :: 0 <= i < j < |order| ==> order[i] != order[j])
    && (forall i :: 0 <= i < |order| ==> entries[i] == EntryOf(steps[order[i]]))
  }

  /** The entry reports the step, with an empty output if it has none. */
  predicate Reports(entry: StepEntry, s: Step) {
    && entry.id == s.id && entry.status == s.status && entry.error == s.error && entry.metrics == s.metrics
    && (s.output == Some(entry.output) || (s.output == None && entry.output == map[]))
  }

  /** Each step that has started and is not running is reported once, in the given order, and no other is. */
  ghost predicate ReportedInOrder(steps: map<string, Step>, order: seq<string>, entries: seq<StepEntry>) {
    && |entries| == |order|
    && (forall id :: id in order <==> id in steps && steps[id].status in {PendingApproval, Complete, Failed, Skipped})
    && (forall i, j :: 0 <= i < j < |order| ==> order[i] != order[j])
    && (forall i :: 0 <= i < |order| ==> Reports(entries[i], steps[order[i]]))
  }

  /** An envelope of the run: its record, an entry for each step that has ended or waits, in some order, and their totals. */
  ghost predicate Describes(e: RunEnvelope, runID: string, run: Run, steps: map<string, Step>) {
    && e.runID == runID && e.workflow == run.workflowName && e.status == run.status && e.error == run.error && e.payload == run.payload
    && e.totals.usage == TotalOf(steps).usage
    && e.totals.llmCalls == TotalOf(steps).counts.llmCalls && e.totals.toolCalls == TotalOf(steps).counts.toolCalls
    && exists order :: ReportedInOrder(steps, order, e.steps)
  }

  lemma ListedAreReported(steps: map<string, Step>, order: seq<string>, entries: seq<StepEntry>)
    requires Lists(steps, steps.Keys, order, entries)
    ensures ReportedInOrder(steps, order, entries)
  {
  }

  /** One more step seen: listed if it counts. */
  lemma ListsNext(steps: map<string, Step>, seen: set<string>, order: seq<string>, entries: seq<StepEntry>, id: string)
    requires Lists(steps, seen, order, entries) && id in steps && id !in seen
    ensures Counted(steps[id]) ==> Lists(steps, seen + {id}, order + [id], entries + [EntryOf(steps[id])])
    ensures !Counted(steps[id]) ==> Lists(steps, seen + {id}, order, entries)
  {
    if Counted(steps[id]) {
      var order1, entries1 := order + [id], entries + [EntryOf(steps[id])];
      forall k ensures k in order1 <==> k in seen + {id} && k in steps && Counted(steps[k]) {
        assert k in order1 <==> k in order || k == id;
      }
    }
  }

  /** The loop over a run's steps: `todo` is what is left, the rest is listed and added up. */
  ghost predicate Tallied(steps: map<string, Step>, todo: set<string>, order: seq<string>, entries: seq<StepEntry>, totals: Totals) {
    && todo <= steps.Keys
    && Lists(steps, steps.Keys - todo, order, entries)
    && totals == Reported(TotalOver(steps, steps.Keys - todo))
  }

  lemma TallyStart(steps: map<string, Step>)
    ensures Tallied(steps, steps.Keys, [], [], Totals(NO_USAGE, 0, 0))
  {
    assert steps.Keys - steps.Keys == {};
  }

  lemma TallyNext(steps: map<string, Step>, todo: set<string>, order: seq<string>, entries: seq<StepEntry>, totals: Totals, id: string)
    requires Tallied(steps, todo, order, entries, totals) && id in todo
    ensures Counted(steps[id]) ==>
      Tallied(steps, todo - {id}, order + [id], entries + [EntryOf(steps[id])], Totals(
        totals.usage.Plus(steps[id].metrics.usage),
        totals.llmCalls + steps[id].metrics.counts.llmCalls,
        totals.toolCalls + steps[id].metrics.counts.toolCalls))
    ensures !Counted(steps[id]) ==> Tallied(steps, todo - {id}, order, entries, totals)
  {
    hide Lists, TotalOver, Counted;
    ListsNext(steps, steps.Keys - todo, order, entries, id);
    TotalNext(steps, todo, id);
    PlusZero(TotalOver(steps, steps.Keys - todo));
    assert steps.Keys - todo + {id} == steps.Keys - (todo - {id});
  }

  lemma TallyEnd(steps: map<string, Step>, order: seq<string>, entries: seq<StepEntry>, totals: Totals)
    requires Tallied(steps, {}, order, entries, totals)
    ensures Lists(steps, steps.Keys, order, entries) && totals == Reported(TotalOf(steps))
  {
    assert steps.Keys - {} == steps.Keys;
  }

  // ---- the store ----

  /** A pointer to a record: whoever holds it can change the record. */
  class Ref<V> {
    var value: V

    constructor (value: V)
      ensures this.value == value
    {
      this.value := value;
    }
  }

  ghost function Deref<V>(m: map<string, Ref<V>>): map<string, V>
    reads set k | k in m :: m[k]
  {
    map k | k in m :: m[k].value
  }

  ghost function DerefAll(m: map<string, map<string, Ref<Step>>>): map<string, map<string, Step>>
    reads set r, s | r in m && s in m[r] :: m[r][s]
  {
    map r | r in m :: Deref(m[r])
  }

  lemma DerefPut<V>(m: map<string, Ref<V>>, k: string, r: Ref<V>)
    ensures Deref(m[k := r]) == Deref(m)[k := r.value]
  {
  }

  lemma DerefStore(m: map<string, map<string, Ref<Step>>>, r: Ref<Step>)
    ensures DerefAll(StoreStep(m, r.value.runID, r.value.id, r)) == StoreStep(DerefAll(m), r.value.runID, r.value.id, r.value)
  {
    var inner := if r.value.runID in m then m[r.value.runID] else map[];
    DerefPut(inner, r.value.id, r);
    assert r.value.runID !in m ==> Deref(inner) == map[];
  }

  ghost predicate Owned<V>(m: map<string, Ref<V>>, repr: set<object>) {
    forall k :: k in m ==> m[k] in repr
  }

  ghost predicate AllOwned(m: map<string, map<string, Ref<Step>>>, repr: set<object>) {
    forall r :: r in m ==> Owned(m[r], repr)
  }

  lemma OwnedStore(m: map<string, map<string, Ref<Step>>>, r: Ref<Step>, repr: set<object>, more: set<object>)
    requires AllOwned(m, repr) && repr <= more && r in more
    ensures AllOwned(StoreStep(m, r.value.runID, r.value.id, r), more)
  {
    forall k | k in m ensures Owned(m[k], more) {
      assert Owned(m[k], repr);
    }
  }

  class MemStore {
    var runs: map<string, Ref<Run>>
    var steps: map<string, map<string, Ref<Step>>>
    var approvals: map<string, Ref<ApprovalRecord>>
    ghost var Repr: set<object>

    ghost predicate Valid()
      reads this
    {
      && this in Repr
      && Owned(runs, Repr)
      && AllOwned(steps, Repr)
      && Owned(approvals, Repr)
    }

    ghost function View(): Contents
      requires Valid()
      reads this, Repr
    {
      Contents(Deref(runs), DerefAll(steps), Deref(approvals))
    }

    constructor ()
      ensures Valid() && fresh(Repr) && View() == EMPTY
    {
      runs, steps, approvals := map[], map[], map[];
      Repr := {this};
    }

    /** Stores a copy; the caller keeps its own record. */
    method PutRun(run: Run)
      requires Valid()
      modifies this
      ensures Valid() && fresh(Repr - old(Repr))
      ensures View() == WithRun(old(View()), run)
    {
      hide Deref;
      var copy := new Ref(run);
      DerefPut(runs, run.id, copy);
      runs := runs[run.id := copy];
      Repr := Repr + {copy};
    }

    method PutStep(step: Step)
      requires Valid()
      modifies this
      ensures Valid() && fresh(Repr - old(Repr))
      ensures View() == WithStep(old(View()), step)
    {
      hide StoreStep, Deref;
      var copy := new Ref(step);
      DerefStore(steps, copy);
      OwnedStore(steps, copy, Repr, Repr + {copy});
      steps := StoreStep(steps, step.runID, step.id, copy);
      Repr := Repr + {copy};
    }

    method PutApproval(approval: ApprovalRecord)
      requires Valid()
      modifies this
      ensures Valid() && fresh(Repr - old(Repr))
      ensures View() == WithApproval(old(View()), approval)
    {
      hide ApprovalKey, Deref;
      var copy := new Ref(approval);
      DerefPut(approvals, ApprovalKey(approval.runID, approval.stepID), copy);
      approvals := approvals[ApprovalKey(approval.runID, approval.stepID) := copy];
      Repr := Repr + {copy};
    }

    method CreateRun(run: Ref<Run>) returns (ok: bool)
      requires Valid() && run !in Repr
      modifies this
      ensures Valid() && fresh(Repr - old(Repr))
      ensures ok == (run.value.id !in old(View()).runs)
      ensures View() == if ok then WithRun(old(View()), run.value) else old(View())
      ensures View().runs == if ok then old(View()).runs[run.value.id := run.value] else old(View()).runs
      ensures View().steps == old(View()).steps && View().approvals == old(View()).approvals
    {
      if run.value.id in runs {
        return false;
      }
      PutRun(run.value);
      return true;
    }

    method UpdateRun(run: Ref<Run>) returns (ok: bool)
      requires Valid() && run !in Repr
      modifies this
      ensures Valid() && fresh(Repr - old(Repr))
      ensures ok == (run.value.id in old(View()).runs)
      ensures View() == if ok then WithRun(old(View()), run.value) else old(View())
      ensures View().runs == if ok then old(View()).runs[run.value.id := run.value] else old(View()).runs
      ensures View().steps == old(View()).steps && View().approvals == old(View()).approvals
    {
      if run.value.id !in runs {
        return false;
      }
      PutRun(run.value);
      return true;
    }

    method GetRun(id: string) returns (run: Option<Ref<Run>>)
      requires Valid()
      ensures run.Some? <==> id in View().runs
      ensures run.Some? ==> fresh(run.value) && run.value.value == View().runs[id]
    {
      if id !in runs {
        return None;
      }
      var copy := new Ref(runs[id].value);
      return Some(copy);
    }

    method CreateStep(step: Ref<Step>) returns (ok: bool)
      requires Valid() && step !in Repr
      modifies this
      ensures Valid() && fresh(Repr - old(Repr))
      ensures ok == (step.value.id !in StepsOf(old(View()), step.value.runID))
      ensures View() == if ok then WithStep(old(View()), step.value) else old(View())
      ensures ok ==> StepsOf(View(), step.value.runID) == StepsOf(old(View()), step.value.runID)[step.value.id := step.value]
      ensures forall r :: r != step.value.runID ==> StepsOf(View(), r) == StepsOf(old(View()), r)
      ensures View().runs == old(View()).runs && View().approvals == old(View()).approvals
    {
      if step.value.runID in steps && step.value.id in steps[step.value.runID] {
        return false;
      }
      PutStep(step.value);
      return true;
    }

    method UpdateStep(step: Ref<Step>) returns (ok: bool)
      requires Valid() && step !in Repr
      modifies this
      ensures Valid() && fresh(Repr - old(Repr))
      ensures ok == (step.value.id in StepsOf(old(View()), step.value.runID))
      ensures View() == if ok then WithStep(old(View()), step.value) else old(View())
      ensures ok ==> StepsOf(View(), step.value.runID) == StepsOf(old(View()), step.value.runID)[step.value.id := step.value]
      ensures forall r :: r != step.value.runID ==> StepsOf(View(), r) == StepsOf(old(View()), r)
      ensures View().runs == old(View()).runs && View().approvals == old(View()).approvals
    {
      if step.value.runID !in steps || step.value.id !in steps[step.value.runID] {
        return false;
      }
      PutStep(step.value);
      return true;
    }

    method GetStep(runID: string, stepID: string) returns (step: Option<Ref<Step>>)
      requires Valid()
      ensures step.Some? <==> stepID in StepsOf(View(), runID)
      ensures step.Some? ==> fresh(step.value) && step.value.value == StepsOf(View(), runID)[stepID]
    {
      if runID !in steps || stepID !in steps[runID] {
        return None;
      }
      var copy := new Ref(steps[runID][stepID].value);
      return Some(copy);
    }

    method CreateApproval(approval: Ref<ApprovalRecord>) returns (ok: bool)
      requires Valid() && approval !in Repr
      modifies this
      ensures Valid() && fresh(Repr - old(Repr))
      ensures ok == (ApprovalKey(approval.value.runID, approval.value.stepID) !in old(View()).approvals)
      ensures View() == if ok then WithApproval(old(View()), approval.value) else old(View())
      ensures View().approvals == if ok then old(View()).approvals[approval.value.runID + "/" + approval.value.stepID := approval.value] else old(View()).approvals
      ensures View().runs == old(View()).runs && View().steps == old(View()).steps
    {
      if ApprovalKey(approval.value.runID, approval.value.stepID) in approvals {
        return false;
      }
      PutApproval(approval.value);
      return true;
    }

    method UpdateApproval(approval: Ref<ApprovalRecord>) returns (ok: bool)
      requires Valid() && approval !in Repr
      modifies this
      ensures Valid() && fresh(Repr - old(Repr))
      ensures ok == (ApprovalKey(approval.value.runID, approval.value.stepID) in old(View()).approvals)
      ensures View() == if ok then WithApproval(old(View()), approval.value) else old(View())
      ensures View().approvals == if ok then old(View()).approvals[approval.value.runID + "/" + approval.value.stepID := approval.value] else old(View()).approvals
      ensures View().runs == old(View()).runs && View().steps == old(View()).steps
    {
      if ApprovalKey(approval.value.runID, approval.value.stepID) !in approvals {
        return false;
      }
      PutApproval(approval.value);
      return true;
    }

    method GetApproval(runID: string, stepID: string) returns (approval: Option<Ref<ApprovalRecord>>)
      requires Valid()
      ensures approval.Some? <==> ApprovalKey(runID, stepID) in View().approvals
      ensures approval.Some? ==> fresh(approval.value) && approval.value.value == View().approvals[ApprovalKey(runID, stepID)]
    {
      if ApprovalKey(runID, stepID) !in approvals {
        return None;
      }
      var copy := new Ref(approvals[ApprovalKey(runID, stepID)].value);
      return Some(copy);
    }

    /** The envelope of a run: one pass over its steps, in any order. */
    method GetEnvelope(runID: string) returns (envelope: Option<RunEnvelope>)
      requires Valid()
      ensures envelope.Some? <==> runID in View().runs
      ensures envelope.Some? ==> Describes(envelope.value, runID, View().runs[runID], StepsOf(View(), runID))
    {
      hide TotalOver, Lists, Counted, EntryOf, ReportedInOrder;
      if runID !in runs {
        return None;
      }
      var run := runs[runID].value;
      var mine := if runID in steps then steps[runID] else map[];
      ghost var all, order: seq<string> := Deref(mine), [];
      var entries, totals := [], Totals(NO_USAGE, 0, 0);
      var todo := mine.Keys;
      TallyStart(all);
      assert todo == all.Keys;
      while todo != {}
        invariant Tallied(all, todo, order, entries, totals)
        decreases todo
      {
        var id :| id in todo;
        var step := mine[id].value;
        TallyNext(all, todo, order, entries, totals, id);
        todo := todo - {id};
        if Counted(step) {
          order := order + [id];
          entries := entries + [EntryOf(step)];
          totals := Totals(
            totals.usage.Plus(step.metrics.usage),
            totals.llmCalls + step.metrics.counts.llmCalls,
            totals.toolCalls + step.metrics.counts.toolCalls);
        }
      }
      TallyEnd(all, order, entries, totals);
      ListedAreReported(all, order, entries);
      return Some(RunEnvelope(runID, run.workflowName, run.status, run.error, run.payload, entries, totals));
    }
  }

  /**
   * Copy in: what a caller does to the fields and top-level keys of the record it stored changes
   * nothing until the next Update. Maps inside an output are shared: see module Copies.
   */
  method StoredIsACopy(store: MemStore, mine: Ref<Step>, change: Step) returns (ok: bool)
    requires store.Valid() && mine !in store.Repr
    requires mine.value.id !in StepsOf(store.View(), mine.value.runID)
    modifies store, mine
    ensures store.Valid() && ok && mine.value == change
    ensures store.View() == WithStep(old(store.View()), old(mine.value))
  {
    ok := store.CreateStep(mine);
    mine.value := change;
  }

  /**
   * Copy out: what a caller does to the fields and top-level keys of a record it was given never
   * reaches the store.
   */
  method GivenIsACopy(store: MemStore, runID: string, id: string, change: Step) returns (given: Option<Ref<Step>>)
    requires store.Valid()
    ensures store.Valid() && store.View() == old(store.View())
    ensures given.Some? ==> given.value.value == change
  {
    given := store.GetStep(runID, id);
    if given.Some? {
      given.value.value := change;
    }
  }

  // ---- keys ----

  predicate SlashFree(s: string) {
    forall i :: 0 <= i < |s| ==> s[i] != '/'
  }

  predicate EndsIn(s: string, end: string) {
    |end| <= |s| && s[|s| - |end|..] == end
  }

  /** Two different steps, of the same or of different runs, under one key. */
  predicate Collide(run1: string, step1: string, run2: string, step2: string) {
    (run1 != run2 || step1 != step2) && ApprovalKey(run1, step1) == ApprovalKey(run2, step2)
  }

  /** Of two colliding steps the one with the longer id ends in a slash and the other id. */
  lemma LongerEndsInShorter(run1: string, step1: string, run2: string, step2: string)
    requires Collide(run1, step1, run2, step2) && |step1| >= |step2|
    ensures EndsIn(step1, "/" + step2)
  {
    if |step1| == |step2| {
      SameLength(run1, step1, run2, step2);
    } else {
      var key := ApprovalKey(run1, step1);
      assert key[|run2|..] == "/" + step2;
      assert step1[|step1| - |step2| - 1..] == key[|run2|..];
    }
  }

  lemma SameLength(run1: string, step1: string, run2: string, step2: string)
    requires ApprovalKey(run1, step1) == ApprovalKey(run2, step2) && |step1| == |step2|
    ensures run1 == run2 && step1 == step2
  {
    var key := ApprovalKey(run1, step1);
    assert key[|run1| + 1..] == step1 && key[|run2| + 1..] == step2;
    assert key[..|run1|] == run1 && key[..|run2|] == run2;
  }

  lemma EndingCollides(step1: string, step2: string)
    requires EndsIn(step1, "/" + step2)
    ensures Collide("", step1, "/" + step1[..|step1| - |step2| - 1], step2)
  {
    assert step1 == step1[..|step1| - |step2| - 1] + "/" + step2;
  }

  /** Step ids share a key in some runs exactly when one of them ends in a slash and the other. */
  lemma KeysCollideExactly(step1: string, step2: string)
    ensures (exists run1, run2 :: Collide(run1, step1, run2, step2)) <==>
      EndsIn(step1, "/" + step2) || EndsIn(step2, "/" + step1)
  {
    forall run1, run2 | Collide(run1, step1, run2, step2)
      ensures EndsIn(step1, "/" + step2) || EndsIn(step2, "/" + step1)
    {
      if |step1| >= |step2| {
        LongerEndsInShorter(run1, step1, run2, step2);
      } else {
        LongerEndsInShorter(run2, step2, run1, step1);
      }
    }
    if EndsIn(step1, "/" + step2) {
      EndingCollides(step1, step2);
    } else if EndsIn(step2, "/" + step1) {
      EndingCollides(step2, step1);
      assert Collide("/" + step2[..|step2| - |step1| - 1], step1, "", step2);
    }
  }

  lemma SlashInside(s: string, end: string)
    requires EndsIn(s, "/" + end)
    ensures !SlashFree(s)
  {
    assert s[|s| - |end| - 1] == s[|s| - |end| - 1..][0] == '/';
  }

  /** With no slash in step ids, two approvals share a key only if they are of the same step of the same run. */
  lemma ApprovalKeyInjective(run1: string, step1: string, run2: string, step2: string)
    requires SlashFree(step1) && SlashFree(step2)
    requires ApprovalKey(run1, step1) == ApprovalKey(run2, step2)
    ensures run1 == run2 && step1 == step2
  {
    if Collide(run1, step1, run2, step2) {
      KeysCollideExactly(step1, step2);
      if EndsIn(step1, "/" + step2) {
        SlashInside(step1, step2);
      } else {
        SlashInside(step2, step1);
      }
    }
  }

  lemma ApprovalKeyCollides()
    ensures ApprovalKey("r/a", "b") == ApprovalKey("r", "a/b")
  {
  }
}
