/** What a fanout returns, item by item, from what the dispatcher answered for each of them. */
module Items {
  import opened Wrappers
  import opened Values
  import opened Metrics
  import opened RunnerSpec
  import F = Fanout

  /** `m` of `n` items are taken: all of them, or as many as a positive limit allows. */
  predicate Takes(n: nat, limit: int, m: nat) {
    m <= n && (limit > 0 ==> m <= limit) && (m == n || (limit > 0 && m == limit))
  }

  /** The items that failed. */
  function Failing(w: World, runID: string, id: string, m: nat, before: Outputs): set<nat> {
    set i: nat | i < m && w.dispatchItem(runID, id, i, before).error.Some?
  }

  /** Item `i` failed, with this error, and no item before it did. */
  ghost predicate FailedFirst(w: World, runID: string, id: string, m: nat, before: Outputs, i: nat, e: string) {
    && i < m && w.dispatchItem(runID, id, i, before).error == Some(e)
    && forall j: nat :: j < i ==> w.dispatchItem(runID, id, j, before).error == None
  }

  /** What stands in the results for the answer of item `i`. */
  predicate StandsFor(v: Value, i: nat, r: F.ItemResult) {
    match r.error
    case None => v == Obj(r.output)
    case Some(e) => v == Obj(map["ktsu_error" := Str(e), "item_index" := Num(i as real)])
  }

  /** The results have one entry for each of the `m` items, in their order. */
  ghost predicate InOrder(w: World, runID: string, id: string, m: nat, before: Outputs, output: Object) {
    && output.Keys == {"results"}
    && output["results"].Arr?
    && |output["results"].items| == m
    && forall i: nat :: i < m ==> StandsFor(output["results"].items[i], i, w.dispatchItem(runID, id, i, before))
  }

  /** What all the items cost, failed ones included. */
  function CostOf(w: World, runID: string, id: string, m: nat, before: Outputs): Metrics {
    Sum(seq(m, i requires 0 <= i < m => w.dispatchItem(runID, id, i, before).metrics))
  }

  /** The outcome when `m` items were dispatched. */
  ghost predicate Gathered(w: World, runID: string, id: string, m: nat, maxFailures: int, before: Outputs, o: F.Outcome) {
    var failed := |Failing(w, runID, id, m, before)|;
    && o.metrics == CostOf(w, runID, id, m, before)
    && (o.error.None? <==> maxFailures < 0 || failed <= maxFailures)
    && (o.error.None? ==> InOrder(w, runID, id, m, before, o.output))
    && (o.error.Some? && maxFailures == 0 ==>
          exists i, e :: FailedFirst(w, runID, id, m, before, i, e) && o.error.value == "fanout item: " + e)
    && (o.error.Some? && maxFailures > 0 ==> o.error.value == "fanout: too many items failed")
  }

  /** What a for-each step returns. */
  ghost predicate FannedOut(w: World, runID: string, id: string, spec: ForEach, before: Outputs, o: F.Outcome) {
    if !w.dispatches then o == F.Outcome(map["results" := Arr([])], ZERO, None)
    else
      match w.items(runID, id, before)
      case Err(e) => o.error == Some(e) && o.metrics == ZERO
      case Ok(n) => exists m :: Takes(n, spec.maxItems, m) && Gathered(w, runID, id, m, spec.maxFailures, before, o)
  }

  lemma {:induction false} FailuresAreFailing(w: World, runID: string, id: string, m: nat, before: Outputs)
    ensures F.Failures(Replies(w, runID, id, m, before)) == |Failing(w, runID, id, m, before)|
  {
    if m > 0 {
      FailuresAreFailing(w, runID, id, m - 1, before);
      var replies := Replies(w, runID, id, m, before);
      assert replies[..m - 1] == Replies(w, runID, id, m - 1, before);
      assert Failing(w, runID, id, m, before)
        == Failing(w, runID, id, m - 1, before) + if replies[m - 1].error.Some? then {m - 1} else {};
    }
  }

  lemma {:induction false} TotalsAreCost(w: World, runID: string, id: string, m: nat, before: Outputs)
    ensures F.Totals(Replies(w, runID, id, m, before)) == CostOf(w, runID, id, m, before)
  {
    if m > 0 {
      TotalsAreCost(w, runID, id, m - 1, before);
      var replies := Replies(w, runID, id, m, before);
      assert replies[..m - 1] == Replies(w, runID, id, m - 1, before);
      var all := seq(m, i requires 0 <= i < m => w.dispatchItem(runID, id, i, before).metrics);
      assert all[..m - 1] == seq(m - 1, i requires 0 <= i < m - 1 => w.dispatchItem(runID, id, i, before).metrics);
    }
  }

  lemma CollectedGathers(w: World, runID: string, id: string, m: nat, maxFailures: int, before: Outputs)
    ensures Gathered(w, runID, id, m, maxFailures, before, F.Collected(Replies(w, runID, id, m, before), maxFailures))
  {
    hide CostOf, Failing;
    var replies := Replies(w, runID, id, m, before);
    FailuresAreFailing(w, runID, id, m, before);
    TotalsAreCost(w, runID, id, m, before);
    if maxFailures == 0 && F.Failures(replies) > 0 {
      var i := F.FirstFailure(replies);
      assert forall j: nat :: j < i ==> replies[j] == w.dispatchItem(runID, id, j, before);
      assert FailedFirst(w, runID, id, m, before, i, replies[i].error.value);
    }
  }

  lemma NoItems(w: World, runID: string, id: string, maxFailures: int, before: Outputs)
    ensures Gathered(w, runID, id, 0, maxFailures, before, F.Outcome(map["results" := Arr([])], ZERO, None))
  {
    CollectedGathers(w, runID, id, 0, maxFailures, before);
    assert Failing(w, runID, id, 0, before) == {};
  }

  /**
   * A for-each step takes its items in order up to a positive `max_items`, and asks the dispatcher
   * once for each. It succeeds exactly when the failures are within `max_failures`; then entry `i`
   * of the results is the object answered for item `i`, or the error of item `i` with its index. It
   * costs what its items cost, whether it succeeds or not.
   */
  lemma FanoutExactly(w: World, runID: string, id: string, spec: ForEach, p: Progress)
    ensures
      var r := ExecuteFanout(w, runID, id, spec, p);
      && FannedOut(w, runID, id, spec, p.outputs, r.outcome)
      && r.store == p.store
  {
    if w.dispatches && w.items(runID, id, p.outputs).Ok? {
      var n := w.items(runID, id, p.outputs).value;
      var m := Truncated(n, spec.maxItems);
      assert Takes(n, spec.maxItems, m);
      CollectedGathers(w, runID, id, m, spec.maxFailures, p.outputs);
      NoItems(w, runID, id, spec.maxFailures, p.outputs);
    }
  }

  /** Each item that is taken is dispatched once, in the step's name, and nothing else is. */
  lemma ItemsDispatchedOnce(w: World, runID: string, id: string, spec: ForEach, p: Progress)
    ensures
      var r := ExecuteFanout(w, runID, id, spec, p);
      if w.dispatches && w.items(runID, id, p.outputs).Ok? then
        exists m ::
          && Takes(w.items(runID, id, p.outputs).value, spec.maxItems, m)
          && |r.calls| == |p.calls| + m && p.calls <= r.calls
          && forall i: nat :: i < m ==>
               r.calls[|p.calls| + i] == Call(runID, id, w.dispatchItem(runID, id, i, p.outputs).metrics)
      else r.calls == p.calls
  {
    if w.dispatches && w.items(runID, id, p.outputs).Ok? {
      assert Takes(w.items(runID, id, p.outputs).value, spec.maxItems, Truncated(w.items(runID, id, p.outputs).value, spec.maxItems));
    }
  }
}
