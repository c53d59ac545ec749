/** `Resolve` of internal/orchestrator/dag/dag.go: layered topological order by counting. */
module Dag {
  import opened Wrappers
  import opened Graphs
  import opened CycleDetection
  import opened Layering

  function Degree(inDegree: map<string, int>, x: string): int {
    if x in inDegree then inDegree[x] else 0
  }

  /** How many entries of `deps` are not in `placed`. */
  ghost function Missing(deps: seq<string>, placed: set<string>): nat {
    if deps == [] then 0
    else Missing(deps[..|deps| - 1], placed) + if deps[|deps| - 1] in placed then 0 else 1
  }

  lemma {:induction false} MissingZero(deps: seq<string>, placed: set<string>)
    ensures Missing(deps, placed) == 0 <==> forall d :: d in deps ==> d in placed
  {
    if deps != [] {
      var front, last := deps[..|deps| - 1], deps[|deps| - 1];
      MissingZero(front, placed);
      assert deps == front + [last];
    }
  }

  lemma {:induction false} MissingConcat(a: seq<string>, b: seq<string>, placed: set<string>)
    ensures Missing(a + b, placed) == Missing(a, placed) + Missing(b, placed)
  {
    if b == [] {
      assert a + b == a;
    } else {
      var front, last := b[..|b| - 1], b[|b| - 1];
      MissingConcat(a, front, placed);
      assert (a + b)[..|a + b| - 1] == a + front;
    }
  }

  lemma {:induction false} MissingNone(deps: seq<string>)
    ensures Missing(deps, {}) == |deps|
  {
    if deps != [] {
      MissingNone(deps[..|deps| - 1]);
    }
  }

  /** The counters once `placed` has been removed: -1 marks a placed id. */
  ghost predicate Counts(nodes: seq<Node>, inDegree: map<string, int>, placed: set<string>) {
    forall x :: Degree(inDegree, x) == if x in placed then -1 else Missing(AllDeps(nodes, x), placed)
  }

  lemma CountsStep(nodes: seq<Node>, i: nat, x: string, placed: set<string>)
    requires i < |nodes|
    ensures Missing(AllDeps(nodes[..i + 1], x), placed) ==
      Missing(AllDeps(nodes[..i], x), placed) + if nodes[i].id == x then Missing(nodes[i].depends, placed) else 0
  {
    assert nodes[..i + 1][..i] == nodes[..i];
    if nodes[i].id == x {
      MissingConcat(AllDeps(nodes[..i], x), nodes[i].depends, placed);
    }
  }

  method CountDependencies(nodes: seq<Node>) returns (inDegree: map<string, int>)
    ensures Counts(nodes, inDegree, {})
  {
    inDegree := map[];
    for i := 0 to |nodes|
      invariant forall x :: Degree(inDegree, x) == Missing(AllDeps(nodes[..i], x), {})
    {
      var n := nodes[i];
      ghost var before := inDegree;
      if n.id !in inDegree {
        inDegree := inDegree[n.id := 0];
      }
      for j := 0 to |n.depends|
        invariant forall x :: Degree(inDegree, x) == Degree(before, x) + if x == n.id then j else 0
      {
        inDegree := inDegree[n.depends[j] := Degree(inDegree, n.depends[j])];
        inDegree := inDegree[n.id := Degree(inDegree, n.id) + 1];
      }
      MissingNone(n.depends);
      forall x ensures Degree(inDegree, x) == Missing(AllDeps(nodes[..i + 1], x), {}) {
        CountsStep(nodes, i, x, {});
      }
    }
    assert nodes[..|nodes|] == nodes;
  }

  /** With the first `k` levels placed, the zero counters of declared ids are level `k`. */
  lemma ZeroCounters(nodes: seq<Node>, inDegree: map<string, int>, k: nat, n: Node)
    requires n in nodes && Counts(nodes, inDegree, Upto(Dependencies(nodes), k - 1))
    ensures Degree(inDegree, n.id) == 0 <==> n.id in Level(Dependencies(nodes), k)
  {
    DependenciesSucc(nodes, n.id);
    MissingZero(AllDeps(nodes, n.id), Upto(Dependencies(nodes), k - 1));
  }

  /** The next layer: every declared id whose counter is zero, in input order. */
  method Collect(nodes: seq<Node>, inDegree: map<string, int>, ghost k: nat) returns (layer: seq<string>)
    requires Counts(nodes, inDegree, Upto(Dependencies(nodes), k - 1))
    ensures layer == Pick(nodes, Level(Dependencies(nodes), k))
    ensures forall x :: x in layer <==> x in Level(Dependencies(nodes), k)
  {
    ghost var level := Level(Dependencies(nodes), k);
    layer := [];
    for i := 0 to |nodes|
      invariant layer == Pick(nodes[..i], level)
    {
      ZeroCounters(nodes, inDegree, k, nodes[i]);
      assert nodes[..i + 1][..i] == nodes[..i];
      if Degree(inDegree, nodes[i].id) == 0 {
        layer := layer + [nodes[i].id];
      }
    }
    assert nodes[..|nodes|] == nodes;
    forall x ensures x in layer <==> x in level {
      PickMember(nodes, level, x);
      DependenciesSucc(nodes, x);
    }
  }

  /** Marks every id of the layer with the sentinel -1. */
  method MarkPlaced(inDegree: map<string, int>, layer: seq<string>) returns (inDegree': map<string, int>, done: set<string>)
    ensures forall x :: x in done <==> x in layer
    ensures forall x :: Degree(inDegree', x) == if x in done then -1 else Degree(inDegree, x)
  {
    inDegree' := inDegree;
    done := {};
    for i := 0 to |layer|
      invariant forall x :: x in done <==> x in layer[..i]
      invariant forall x :: Degree(inDegree', x) == if x in done then -1 else Degree(inDegree, x)
    {
      done := done + {layer[i]};
      inDegree' := inDegree'[layer[i] := -1];
    }
    assert layer[..|layer|] == layer;
  }

  /** How much the counter of an id sinks when `done` is removed after `placed`. */
  ghost function Drop(deps: seq<string>, placed: set<string>, done: set<string>): int {
    Missing(deps, placed) - Missing(deps, placed + done)
  }

  /** Counts down one waiting node: once for each dependency entry in `done`. */
  method CountDownNode(n: Node, inDegree: map<string, int>, done: set<string>, ghost placed: set<string>)
    returns (inDegree': map<string, int>)
    requires placed !! done
    ensures forall x :: Degree(inDegree', x) == Degree(inDegree, x) - if x == n.id then Drop(n.depends, placed, done) else 0
  {
    inDegree' := inDegree;
    assert Drop(n.depends[..0], placed, done) == 0;
    for j := 0 to |n.depends|
      invariant forall x :: Degree(inDegree', x) == Degree(inDegree, x) - if x == n.id then Drop(n.depends[..j], placed, done) else 0
    {
      assert n.depends[..j + 1][..j] == n.depends[..j];
      if n.depends[j] in done {
        inDegree' := inDegree'[n.id := Degree(inDegree', n.id) - 1];
      }
    }
    assert n.depends[..|n.depends|] == n.depends;
  }

  method CountDown(nodes: seq<Node>, inDegree: map<string, int>, done: set<string>, ghost placed: set<string>)
    returns (inDegree': map<string, int>)
    requires placed !! done
    ensures forall x :: Degree(inDegree', x) == Degree(inDegree, x) - if x in done then 0 else Drop(AllDeps(nodes, x), placed, done)
  {
    inDegree' := inDegree;
    for i := 0 to |nodes|
      invariant forall x :: Degree(inDegree', x) == Degree(inDegree, x) - if x in done then 0 else Drop(AllDeps(nodes[..i], x), placed, done)
    {
      ghost var before := inDegree';
      if nodes[i].id !in done {
        inDegree' := CountDownNode(nodes[i], inDegree', done, placed);
      }
      forall x ensures Degree(inDegree', x) ==
        Degree(inDegree, x) - if x in done then 0 else Drop(AllDeps(nodes[..i + 1], x), placed, done)
      {
        CountsStep(nodes, i, x, placed);
        CountsStep(nodes, i, x, placed + done);
        assert Degree(before, x) == Degree(before, x);
      }
    }
    assert nodes[..|nodes|] == nodes;
  }

  /** Removes a layer: afterwards the counters are those of one more level. */
  method Remove(nodes: seq<Node>, inDegree: map<string, int>, layer: seq<string>, ghost k: nat)
    returns (inDegree': map<string, int>)
    requires Counts(nodes, inDegree, Upto(Dependencies(nodes), k - 1))
    requires forall x :: x in layer <==> x in Level(Dependencies(nodes), k)
    ensures Counts(nodes, inDegree', Upto(Dependencies(nodes), k))
  {
    var marked, done := MarkPlaced(inDegree, layer);
    ghost var placed := Upto(Dependencies(nodes), k - 1);
    UptoGrows(Dependencies(nodes), k);
    assert done == Level(Dependencies(nodes), k);
    assert Upto(Dependencies(nodes), k) == placed + done;
    inDegree' := CountDown(nodes, marked, done, placed);
    forall x ensures Degree(inDegree', x) == if x in placed + done then -1 else Missing(AllDeps(nodes, x), placed + done) {
      if x in placed {
        PlacedDepsPlaced(nodes, k - 1, x);
        MissingZero(AllDeps(nodes, x), placed);
        MissingZero(AllDeps(nodes, x), placed + done);
      }
      assert Degree(marked, x) == if x in done then -1 else Degree(inDegree, x);
    }
  }

  lemma PlacedDepsPlaced(nodes: seq<Node>, k: int, x: string)
    requires x in Upto(Dependencies(nodes), k)
    ensures forall d :: d in AllDeps(nodes, x) ==> d in Upto(Dependencies(nodes), k)
  {
    DependenciesSucc(nodes, x);
    UptoGrows(Dependencies(nodes), k);
  }

  /** `layers` are levels 0, 1, ... and none of them is empty. */
  ghost predicate Peeled(nodes: seq<Node>, layers: seq<seq<string>>) {
    forall k {:trigger layers[k]} :: 0 <= k < |layers| ==> IsLayer(nodes, k, layers[k])
  }

  ghost predicate IsLayer(nodes: seq<Node>, k: nat, layer: seq<string>) {
    layer == Pick(nodes, Level(Dependencies(nodes), k)) && Level(Dependencies(nodes), k) != {}
  }

  lemma PeelOne(nodes: seq<Node>, layers: seq<seq<string>>, layer: seq<string>)
    requires Peeled(nodes, layers) && IsLayer(nodes, |layers|, layer)
    ensures Peeled(nodes, layers + [layer])
  {
    var more := layers + [layer];
    forall k | 0 <= k < |more| ensures IsLayer(nodes, k, more[k]) {
      if k < |layers| {
        assert more[k] == layers[k];
      }
    }
  }

  lemma {:induction false} PeeledAll(nodes: seq<Node>, layers: seq<seq<string>>, k: nat)
    requires Peeled(nodes, layers) && Level(Dependencies(nodes), |layers|) == {} && k <= |layers|
    ensures LayersFrom(nodes, k) == layers[k..]
    decreases |layers| - k
  {
    hide LayersFrom, Level, Dependencies, Pick;
    LayersUnfold(nodes, k);
    if k < |layers| {
      assert IsLayer(nodes, k, layers[k]);
      PeeledAll(nodes, layers, k + 1);
      assert layers[k..] == [layers[k]] + layers[k + 1..];
    }
  }

  lemma PeelingShrinks(nodes: seq<Node>, k: nat)
    requires Level(Dependencies(nodes), k) != {}
    ensures Unplaced(nodes, k + 1) < Unplaced(nodes, k)
  {
    UptoGrows(Dependencies(nodes), k);
    var x :| x in Level(Dependencies(nodes), k);
    assert x in Unplaced(nodes, k) && x !in Unplaced(nodes, k + 1);
  }

  ghost function Unplaced(nodes: seq<Node>, k: nat): set<string> {
    Dependencies(nodes).Keys - Upto(Dependencies(nodes), k - 1)
  }

  /** Peels off layer after layer until none is left. */
  method Peel(nodes: seq<Node>, inDegree: map<string, int>) returns (layers: seq<seq<string>>)
    requires Counts(nodes, inDegree, {})
    ensures layers == Layers(nodes)
  {
    layers := [];
    var counters := inDegree;
    while true
      invariant Counts(nodes, counters, Upto(Dependencies(nodes), |layers| - 1))
      invariant Peeled(nodes, layers)
      decreases Unplaced(nodes, |layers|)
    {
      ghost var k := |layers|;
      var layer := Collect(nodes, counters, k);
      if |layer| == 0 {
        assert Level(Dependencies(nodes), k) == {};
        PeeledAll(nodes, layers, 0);
        break;
      }
      assert layer[0] in Level(Dependencies(nodes), k);
      PeelingShrinks(nodes, k);
      PeelOne(nodes, layers, layer);
      layers := layers + [layer];
      counters := Remove(nodes, counters, layer, k);
    }
  }

  /** Either names a vertex on a cycle, or returns exactly the layers. */
  method Resolve(nodes: seq<Node>) returns (layers: seq<seq<string>>, err: Option<string>)
    ensures err.Some? <==> HasCycle(Adjacency(nodes))
    ensures err.Some? ==> OnCycle(Adjacency(nodes), err.value)
    ensures err.None? ==> layers == Layers(nodes)
  {
    if |nodes| == 0 {
      ghost var v := Vertices(Adjacency(nodes));
      assert Level(Dependencies(nodes), 0) == {};
      return [], None;
    }
    layers := [];
    err := DetectCycle(nodes);
    if err.Some? {
      return;
    }
    var inDegree := CountDependencies(nodes);
    layers := Peel(nodes, inDegree);
  }
}
