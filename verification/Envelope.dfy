/** From running a workflow to reading its envelope. */
module Envelope {
  import opened Wrappers
  import opened Values
  import opened Types
  import opened MemStore
  import opened RunnerSpec
  import opened RunTree
  import opened RunnerFlows
  import opened RunnerGuarantees
  import Runner

  /**
   * A root workflow that ends without an error is complete in the store, and its envelope then
   * reports what every dispatcher call made on its behalf cost. Error or not, what the store holds
   * is what the steps made of their inputs.
   */
  method ExecuteAndReport(r: Runner.Runner, name: string, runID: string, wf: Workflow, input: Object)
    returns (err: Option<string>, envelope: Option<RunEnvelope>)
    requires r.store.Valid() && WellNamed(wf) && Fresh(r.store.View(), r.calls, runID)
    modifies r`calls, r.store
    ensures r.store.Valid() && old(r.calls) <= r.calls
    ensures err.None? <==> IsComplete(r.store.View(), runID)
    ensures exists outputs, o ::
      Walked(r.world, r.store.View(), wf, Env(runID, true, false), name, input, outputs, o) && err == o.error
    ensures err.None? ==> envelope.Some? && envelope.value.status == RunComplete
    ensures err.None? ==> envelope.value.totals == Reported(Cost(r.calls[|old(r.calls)|..]))
  {
    err := r.Execute(name, runID, wf, input);
    FailFast(r.world, Env(runID, true, false), wf, name, input, old(r.store.View()), old(r.calls));
    var outputs := PipelineWalks(r.world, Env(runID, true, false), wf, name, input, old(r.store.View()), old(r.calls));
    Conservation(r.world, Env(runID, true, false), wf, name, input, old(r.store.View()), old(r.calls));
    envelope := r.store.GetEnvelope(runID);
  }
}
