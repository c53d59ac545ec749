/** `executeFanout` of internal/orchestrator/runner/runner.go: bounded concurrency over the items of a step. */
module Fanout {
  import opened Wrappers
  import opened Values
  import opened Metrics

  datatype ItemResult = ItemResult(output: Object, metrics: Metrics, error: Option<string>)

  datatype Outcome = Outcome(output: Object, metrics: Metrics, error: Option<string>)

  // ---- what is collected once every item is done ----

  function Totals(results: seq<ItemResult>): Metrics {
    if results == [] then ZERO else Totals(results[..|results| - 1]).Plus(results[|results| - 1].metrics)
  }

  function Failures(results: seq<ItemResult>): nat {
    if results == [] then 0
    else Failures(results[..|results| - 1]) + if results[|results| - 1].error.Some? then 1 else 0
  }

  /** The first item that failed; the number of items when none did. */
  function FirstFailure(results: seq<ItemResult>): (i: nat)
    ensures i <= |results|
    ensures i < |results| ==> results[i].error.Some?
    ensures forall j :: 0 <= j < i ==> results[j].error.None?
    ensures Failures(results) == 0 <==> i == |results|
  {
    if results == [] then 0
    else
      var n := |results| - 1;
      var i := FirstFailure(results[..n]);
      if i < n then i else if results[n].error.Some? then n else n + 1
  }

  /** What an item contributes to the results array. */
  function Entry(i: nat, r: ItemResult): Value {
    match r.error
    case None => Obj(r.output)
    case Some(e) => Obj(map["ktsu_error" := Str(e), "item_index" := Num(i as real)])
  }

  function Entries(results: seq<ItemResult>): seq<Value> {
    seq(|results|, (i: nat) requires i < |results| => Entry(i, results[i]))
  }

  /** The verdict on a fanout as a function of its item results alone. */
  function Collected(results: seq<ItemResult>, maxFailures: int): Outcome {
    if maxFailures == 0 && Failures(results) > 0 then
      Outcome(map[], Totals(results), Some("fanout item: " + results[FirstFailure(results)].error.value))
    else if maxFailures > 0 && Failures(results) > maxFailures then
      Outcome(map[], Totals(results), Some("fanout: too many items failed"))
    else Outcome(map["results" := Arr(Entries(results))], Totals(results), None)
  }

  /** A fanout succeeds exactly when its failures are within the limit; a negative limit tolerates all. */
  lemma SucceedsWithinLimit(results: seq<ItemResult>, maxFailures: int)
    ensures Collected(results, maxFailures).error.None? <==> maxFailures < 0 || Failures(results) <= maxFailures
    ensures Collected(results, maxFailures).error.None? ==>
      && |Collected(results, maxFailures).output["results"].items| == |results|
      && (forall i :: 0 <= i < |results| ==> Collected(results, maxFailures).output["results"].items[i] == Entry(i, results[i]))
  {
  }

  method Collect(results: array<ItemResult>, maxFailures: int) returns (o: Outcome)
    ensures o == Collected(results[..], maxFailures)
  {
    var outputs: seq<Value> := [];
    var totals := ZERO;
    var failCount := 0;
    var firstErr: Option<string> := None;
    ghost var all := results[..];
    for i := 0 to results.Length
      invariant totals == Totals(all[..i]) && failCount == Failures(all[..i])
      invariant outputs == Entries(all[..i])
      invariant firstErr == if Failures(all[..i]) == 0 then None else Some("fanout item: " + all[FirstFailure(all[..i])].error.value)
    {
      assert all[..i + 1][..i] == all[..i];
      var r := results[i];
      totals := totals.Plus(r.metrics);
      if r.error.Some? {
        failCount := failCount + 1;
        if firstErr.None? {
          firstErr := Some("fanout item: " + r.error.value);
        }
      }
      outputs := outputs + [Entry(i, r)];
    }
    assert all[..results.Length] == all;
    if maxFailures == 0 && firstErr.Some? {
      return Outcome(map[], totals, firstErr);
    }
    if maxFailures > 0 && failCount > maxFailures {
      return Outcome(map[], totals, Some("fanout: too many items failed"));
    }
    return Outcome(map["results" := Arr(outputs)], totals, None);
  }

  // ---- the goroutines ----

  datatype Phase = Queued | Dispatching | Done

  /** One goroutine per item: its phase, what it wrote, and the dispatches in the order they began. */
  datatype State = State(phases: seq<Phase>, results: seq<Option<ItemResult>>, dispatched: seq<nat>)

  datatype Action = Acquire(i: nat) | Release(i: nat)

  /** The semaphore's size: an absent or excessive setting means one slot per item. */
  function Slots(concurrency: int, n: nat): nat {
    if concurrency <= 0 || concurrency > n then n else concurrency
  }

  function Start(n: nat): State {
    State(seq(n, i => Queued), seq(n, i => None), [])
  }

  function Busy(phases: seq<Phase>): nat {
    if phases == [] then 0 else Busy(phases[1..]) + if phases[0] == Dispatching then 1 else 0
  }

  /** Takes a slot and dispatches; or stores the reply and gives the slot back. */
  function Next(s: State, slots: nat, replies: seq<ItemResult>, a: Action): Option<State>
    requires |s.phases| == |s.results| == |replies|
  {
    match a
    case Acquire(i) =>
      if i < |s.phases| && s.phases[i] == Queued && Busy(s.phases) < slots then
        Some(State(s.phases[i := Dispatching], s.results, s.dispatched + [i]))
      else None
    case Release(i) =>
      if i < |s.phases| && s.phases[i] == Dispatching then
        Some(State(s.phases[i := Done], s.results[i := Some(replies[i])], s.dispatched))
      else None
  }

  function Run(slots: nat, replies: seq<ItemResult>, schedule: seq<Action>): (s: Option<State>)
    ensures s.Some? ==> |s.value.phases| == |s.value.results| == |replies|
  {
    if schedule == [] then Some(Start(|replies|))
    else
      match Run(slots, replies, schedule[..|schedule| - 1])
      case None => None
      case Some(s) => Next(s, slots, replies, schedule[|schedule| - 1])
  }

  predicate Finished(s: State) {
    forall i :: 0 <= i < |s.phases| ==> s.phases[i] == Done
  }

  lemma {:induction false} BusyUpdate(phases: seq<Phase>, i: nat, p: Phase)
    requires i < |phases|
    ensures Busy(phases[i := p]) ==
      Busy(phases) - (if phases[i] == Dispatching then 1 else 0) + (if p == Dispatching then 1 else 0)
  {
    if i > 0 {
      BusyUpdate(phases[1..], i - 1, p);
      assert phases[i := p][1..] == phases[1..][i - 1 := p];
    } else {
      assert phases[i := p][1..] == phases[1..];
    }
  }

  lemma {:induction false} BusySome(phases: seq<Phase>)
    ensures Busy(phases) == 0 <==> forall i :: 0 <= i < |phases| ==> phases[i] != Dispatching
  {
    if phases != [] {
      BusySome(phases[1..]);
      assert forall i :: 0 < i < |phases| ==> phases[i] == phases[1..][i - 1];
    }
  }

  /** What is left to do: each item still has to take a slot and to give it back. */
  function Remaining(phases: seq<Phase>): nat {
    if phases == [] then 0
    else Remaining(phases[1..]) + match phases[0] case Queued => 2 case Dispatching => 1 case Done => 0
  }

  lemma {:induction false} RemainingUpdate(phases: seq<Phase>, i: nat, p: Phase)
    requires i < |phases| && ((phases[i] == Queued && p == Dispatching) || (phases[i] == Dispatching && p == Done))
    ensures Remaining(phases[i := p]) == Remaining(phases) - 1
  {
    if i > 0 {
      RemainingUpdate(phases[1..], i - 1, p);
      assert phases[i := p][1..] == phases[1..][i - 1 := p];
    } else {
      assert phases[i := p][1..] == phases[1..];
    }
  }

  lemma {:induction false} RemainingStart(n: nat, phases: seq<Phase>)
    requires |phases| == n && forall i :: 0 <= i < n ==> phases[i] == Queued
    ensures Remaining(phases) == 2 * n
  {
    if n > 0 {
      RemainingStart(n - 1, phases[1..]);
    }
  }

  lemma {:induction false} RemainingNone(phases: seq<Phase>)
    ensures Remaining(phases) == 0 <==> forall i :: 0 <= i < |phases| ==> phases[i] == Done
  {
    if phases != [] {
      RemainingNone(phases[1..]);
      assert forall i :: 0 < i < |phases| ==> phases[i] == phases[1..][i - 1];
    }
  }

  /** The invariant of every interleaving. */
  ghost predicate Inv(s: State, slots: nat, replies: seq<ItemResult>, steps: nat) {
    && |s.phases| == |s.results| == |replies|
    && Busy(s.phases) <= slots
    && (forall i :: 0 <= i < |replies| ==> s.results[i] == if s.phases[i] == Done then Some(replies[i]) else None)
    && (forall i :: i in s.dispatched <==> 0 <= i < |replies| && s.phases[i] != Queued)
    && (forall j, k :: 0 <= j < k < |s.dispatched| ==> s.dispatched[j] != s.dispatched[k])
    && Remaining(s.phases) + steps == 2 * |replies|
  }

  lemma InvStep(s: State, slots: nat, replies: seq<ItemResult>, a: Action, steps: nat)
    requires Inv(s, slots, replies, steps) && Next(s, slots, replies, a).Some?
    ensures Inv(Next(s, slots, replies, a).value, slots, replies, steps + 1)
  {
    var s' := Next(s, slots, replies, a).value;
    var p := if a.Acquire? then Dispatching else Done;
    BusyUpdate(s.phases, a.i, p);
    RemainingUpdate(s.phases, a.i, p);
    if a.Acquire? {
      forall i ensures i in s'.dispatched <==> 0 <= i < |replies| && s'.phases[i] != Queued {
        assert i in s'.dispatched <==> i in s.dispatched || i == a.i;
      }
    }
  }

  lemma {:induction false} InvRun(slots: nat, replies: seq<ItemResult>, schedule: seq<Action>)
    requires Run(slots, replies, schedule).Some?
    ensures Inv(Run(slots, replies, schedule).value, slots, replies, |schedule|)
  {
    if schedule == [] {
      RemainingStart(|replies|, Start(|replies|).phases);
      BusySome(Start(|replies|).phases);
    } else {
      var front := schedule[..|schedule| - 1];
      InvRun(slots, replies, front);
      InvStep(Run(slots, replies, front).value, slots, replies, schedule[|schedule| - 1], |front|);
    }
  }

  /** What every goroutine wrote, once all are done. */
  function Written(s: State): seq<ItemResult>
    requires forall i :: 0 <= i < |s.results| ==> s.results[i].Some?
  {
    seq(|s.results|, (i: nat) requires i < |s.results| => s.results[i].value)
  }

  /**
   * Under every interleaving: no more dispatches are in progress than a positive setting of the
   * concurrency allows, no index is dispatched twice, and when all goroutines are done every index was dispatched once and the results, and
   * with them output, error and metrics, are the same whatever the schedule was.
   */
  lemma ScheduleIndependent(concurrency: int, maxFailures: int, replies: seq<ItemResult>, schedule: seq<Action>)
    requires Run(Slots(concurrency, |replies|), replies, schedule).Some?
    ensures var s := Run(Slots(concurrency, |replies|), replies, schedule).value;
      && (concurrency > 0 ==> Busy(s.phases) <= concurrency)
      && (forall j, k :: 0 <= j < k < |s.dispatched| ==> s.dispatched[j] != s.dispatched[k])
      && (Finished(s) ==>
            && (forall i: nat :: i in s.dispatched <==> i < |replies|)
            && (forall i :: 0 <= i < |s.results| ==> s.results[i].Some?)
            && Written(s) == replies
            && Collected(Written(s), maxFailures) == Collected(replies, maxFailures))
  {
    InvRun(Slots(concurrency, |replies|), replies, schedule);
  }

  lemma {:induction false} BusyBelow(phases: seq<Phase>, i: nat)
    requires i < |phases| && phases[i] != Dispatching
    ensures Busy(phases) < |phases|
  {
    if i > 0 {
      BusyBelow(phases[1..], i - 1);
    } else {
      BusyAtMost(phases[1..]);
    }
  }

  lemma {:induction false} BusyAtMost(phases: seq<Phase>)
    ensures Busy(phases) <= |phases|
  {
    if phases != [] {
      BusyAtMost(phases[1..]);
    }
  }

  /**
   * An item can start exactly when it still waits and the number in progress is below the setting;
   * without a positive setting it can start at once, however many are in progress.
   */
  lemma StartsExactly(concurrency: int, replies: seq<ItemResult>, schedule: seq<Action>, i: nat)
    requires Run(Slots(concurrency, |replies|), replies, schedule).Some?
    ensures var s := Run(Slots(concurrency, |replies|), replies, schedule).value;
      Next(s, Slots(concurrency, |replies|), replies, Acquire(i)).Some? <==>
        && i < |replies| && i !in s.dispatched
        && (concurrency > 0 ==> Busy(s.phases) < concurrency)
  {
    InvRun(Slots(concurrency, |replies|), replies, schedule);
    var s := Run(Slots(concurrency, |replies|), replies, schedule).value;
    if i < |replies| && s.phases[i] == Queued {
      BusyBelow(s.phases, i);
    }
  }

  lemma SomeCanMove(s: State, slots: nat, replies: seq<ItemResult>, steps: nat)
    requires slots > 0 && Inv(s, slots, replies, steps) && !Finished(s)
    ensures exists a :: Next(s, slots, replies, a).Some?
  {
    BusySome(s.phases);
    if Busy(s.phases) == 0 {
      var i :| 0 <= i < |s.phases| && s.phases[i] != Done;
      assert Next(s, slots, replies, Acquire(i)).Some?;
    } else {
      var i :| 0 <= i < |s.phases| && s.phases[i] == Dispatching;
      assert Next(s, slots, replies, Release(i)).Some?;
    }
  }

  /**
   * No interleaving gets stuck: some goroutine can move until all are done, and all are done
   * after exactly two moves for each item.
   */
  lemma AlwaysFinishes(concurrency: int, replies: seq<ItemResult>, schedule: seq<Action>)
    requires Run(Slots(concurrency, |replies|), replies, schedule).Some?
    ensures var s := Run(Slots(concurrency, |replies|), replies, schedule).value;
      && (Finished(s) <==> |schedule| == 2 * |replies|)
      && (!Finished(s) ==> exists a :: Next(s, Slots(concurrency, |replies|), replies, a).Some?)
  {
    hide Next, Busy, Remaining;
    var slots := Slots(concurrency, |replies|);
    InvRun(slots, replies, schedule);
    var s := Run(slots, replies, schedule).value;
    RemainingNone(s.phases);
    if !Finished(s) {
      SomeCanMove(s, slots, replies, |schedule|);
    }
  }
}
