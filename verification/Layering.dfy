/** What the layers computed by internal/orchestrator/dag/dag.go are, independently of counters. */
module Layering {
  import opened Graphs
  import opened CycleDetection

  /** The dependencies of `x`, over every node that carries this id, in input order. */
  function AllDeps(nodes: seq<Node>, x: string): seq<string> {
    if nodes == [] then []
    else
      var front, last := AllDeps(nodes[..|nodes| - 1], x), nodes[|nodes| - 1];
      if last.id == x then front + last.depends else front
  }

  /** The dependency graph; an id that is only mentioned as a dependency is not one of its keys. */
  ghost function Dependencies(nodes: seq<Node>): Graph {
    map n | n in nodes :: n.id := AllDeps(nodes, n.id)
  }

  lemma {:induction false} NoDepsUnlessDeclared(nodes: seq<Node>, x: string)
    requires forall n :: n in nodes ==> n.id != x
    ensures AllDeps(nodes, x) == []
  {
    if nodes != [] {
      assert nodes == nodes[..|nodes| - 1] + [nodes[|nodes| - 1]];
      NoDepsUnlessDeclared(nodes[..|nodes| - 1], x);
    }
  }

  lemma DependenciesSucc(nodes: seq<Node>, x: string)
    ensures x in Dependencies(nodes) <==> exists n :: n in nodes && n.id == x
    ensures Succ(Dependencies(nodes), x) == AllDeps(nodes, x)
  {
    if x !in Dependencies(nodes) {
      NoDepsUnlessDeclared(nodes, x);
    }
  }

  ghost predicate UniqueIds(nodes: seq<Node>) {
    forall i, j :: 0 <= i < j < |nodes| ==> nodes[i].id != nodes[j].id
  }

  /** With unique ids the graph searched for cycles is the dependency graph. */
  lemma UniqueGraph(nodes: seq<Node>)
    requires UniqueIds(nodes)
    ensures Adjacency(nodes) == Dependencies(nodes)
  {
    AdjacencyKeys(nodes);
    forall n | n in nodes ensures Adjacency(nodes)[n.id] == AllDeps(nodes, n.id) {
      OnlyDeclaration(nodes, n);
    }
  }

  lemma {:induction false} OnlyDeclaration(nodes: seq<Node>, n: Node)
    requires UniqueIds(nodes) && n in nodes
    ensures n.id in Adjacency(nodes)
    ensures Adjacency(nodes)[n.id] == n.depends && AllDeps(nodes, n.id) == n.depends
  {
    var front, last := nodes[..|nodes| - 1], nodes[|nodes| - 1];
    assert nodes == front + [last];
    if n == last {
      NoDepsUnlessDeclared(front, n.id);
      assert [] + n.depends == n.depends;
    } else {
      OnlyDeclaration(front, n);
    }
  }

  /** The declared vertices all of whose dependency chains are declared and at most `k` long. */
  ghost function Upto(g: Graph, k: int): (s: set<string>)
    ensures s <= g.Keys
    decreases k
  {
    if k < 0 then {} else set x | x in g && forall y :: y in Succ(g, x) ==> y in Upto(g, k - 1)
  }

  ghost function Level(g: Graph, k: nat): set<string> {
    Upto(g, k) - Upto(g, k - 1)
  }

  lemma {:induction false} UptoGrows(g: Graph, k: int)
    ensures Upto(g, k - 1) <= Upto(g, k)
    decreases k
  {
    if k > 0 {
      UptoGrows(g, k - 1);
    }
  }

  ghost predicate ClosureDeclared(g: Graph, x: string) {
    forall y :: Reaches(g, x, y) ==> y in g
  }

  ghost predicate ChainsBounded(g: Graph, x: string, k: int) {
    forall y, p :: Path(g, x, y, p) ==> |p| <= k
  }

  ghost predicate HasChain(g: Graph, x: string, k: nat) {
    exists y, p :: Path(g, x, y, p) && |p| == k
  }

  lemma {:induction false} UptoSound(g: Graph, x: string, k: int, y: string, p: seq<string>)
    requires x in Upto(g, k) && Path(g, x, y, p)
    ensures y in g && |p| <= k
    decreases |p|
  {
    if p != [] {
      UptoSound(g, p[0], k - 1, y, p[1..]);
    }
  }

  lemma {:induction false} UptoComplete(g: Graph, x: string, k: nat)
    requires ClosureDeclared(g, x) && ChainsBounded(g, x, k)
    ensures x in Upto(g, k)
    decreases k
  {
    assert Path(g, x, x, []);
    forall y | y in Succ(g, x) ensures y in Upto(g, k - 1) {
      EdgeLeads(g, x, y);
      assert Path(g, x, y, [y]);
      forall z | Reaches(g, y, z) ensures z in g {
        ReachesTransitive(g, x, y, z);
      }
      forall z, p | Path(g, y, z, p) ensures |p| <= k - 1 {
        PathConcat(g, x, y, z, [y], p);
      }
      UptoComplete(g, y, k - 1);
    }
  }

  /** A vertex is on level `k` exactly when its closure is declared and its longest chain is `k`. */
  lemma LevelByChains(g: Graph, x: string, k: nat)
    ensures x in Level(g, k) <==> ClosureDeclared(g, x) && HasChain(g, x, k) && ChainsBounded(g, x, k)
  {
    if x in Upto(g, k) {
      forall y, p | Path(g, x, y, p) ensures y in g && |p| <= k {
        UptoSound(g, x, k, y, p);
      }
      if k == 0 {
        assert Path(g, x, x, []);
      } else if x !in Upto(g, k - 1) {
        assert !ChainsBounded(g, x, k - 1) by {
          if ChainsBounded(g, x, k - 1) {
            UptoComplete(g, x, k - 1);
          }
        }
      } else {
        forall y, p | Path(g, x, y, p) ensures |p| <= k - 1 {
          UptoSound(g, x, k - 1, y, p);
        }
      }
    } else if ClosureDeclared(g, x) && ChainsBounded(g, x, k) {
      UptoComplete(g, x, k);
    }
  }

  /** The ids of the nodes whose id is in `s`, in input order. */
  ghost function Pick(nodes: seq<Node>, s: set<string>): seq<string> {
    if nodes == [] then []
    else
      var front, last := Pick(nodes[..|nodes| - 1], s), nodes[|nodes| - 1];
      if last.id in s then front + [last.id] else front
  }

  lemma {:induction false} PickMember(nodes: seq<Node>, s: set<string>, x: string)
    ensures x in Pick(nodes, s) <==> x in s && exists n :: n in nodes && n.id == x
  {
    if nodes != [] {
      var front, last := nodes[..|nodes| - 1], nodes[|nodes| - 1];
      assert nodes == front + [last];
      PickMember(front, s, x);
      if x in Pick(front, s) {
        var n :| n in front && n.id == x;
        assert n in nodes;
      }
    }
  }

  /** All layers from level `k` on, up to the first empty one. */
  ghost function LayersFrom(nodes: seq<Node>, k: nat): seq<seq<string>>
    decreases Dependencies(nodes).Keys - Upto(Dependencies(nodes), k - 1)
  {
    var g := Dependencies(nodes);
    UptoGrows(g, k);
    if Level(g, k) == {} then []
    else
      assert g.Keys - Upto(g, k) < g.Keys - Upto(g, k - 1);
      [Pick(nodes, Level(g, k))] + LayersFrom(nodes, k + 1)
  }

  lemma LayersUnfold(nodes: seq<Node>, k: nat)
    ensures LayersFrom(nodes, k) ==
      if Level(Dependencies(nodes), k) == {} then []
      else [Pick(nodes, Level(Dependencies(nodes), k))] + LayersFrom(nodes, k + 1)
  {
  }

  ghost function Layers(nodes: seq<Node>): seq<seq<string>> {
    LayersFrom(nodes, 0)
  }

  lemma {:induction false} UptoStable(g: Graph, k: nat, m: int)
    requires Upto(g, k) == Upto(g, k - 1) && k - 1 <= m
    ensures Upto(g, m) == Upto(g, k - 1)
    decreases m
  {
    if m > k {
      UptoStable(g, k, m - 1);
      UptoStable(g, k, m - 2);
    }
  }

  lemma EmptyLevels(g: Graph, k: nat, m: nat)
    requires Level(g, k) == {} && k <= m
    ensures Level(g, m) == {}
  {
    UptoGrows(g, k);
    assert forall x :: x in Upto(g, k) ==> x !in Level(g, k) ==> x in Upto(g, k - 1);
    UptoStable(g, k, m);
    UptoStable(g, k, m - 1);
  }

  lemma {:induction false} LayerAt(nodes: seq<Node>, k: nat, m: nat)
    requires k <= m
    ensures m - k < |LayersFrom(nodes, k)| ==> LayersFrom(nodes, k)[m - k] == Pick(nodes, Level(Dependencies(nodes), m))
    ensures m - k >= |LayersFrom(nodes, k)| ==> Level(Dependencies(nodes), m) == {}
    decreases m - k
  {
    var g := Dependencies(nodes);
    LayersUnfold(nodes, k);
    hide LayersFrom, Level, Dependencies, Pick;
    if Level(g, k) == {} {
      EmptyLevels(g, k, m);
    } else if k < m {
      LayerAt(nodes, k + 1, m);
    }
  }

  /**
   * A node is in layer `k` exactly when everything it transitively depends on is declared and its
   * longest dependency chain has `k` steps; the layer lists such nodes in input order.
   */
  lemma LayerCharacterisation(nodes: seq<Node>, k: nat, x: string)
    ensures k < |Layers(nodes)| && x in Layers(nodes)[k] <==>
      && ClosureDeclared(Dependencies(nodes), x)
      && HasChain(Dependencies(nodes), x, k)
      && ChainsBounded(Dependencies(nodes), x, k)
    ensures k < |Layers(nodes)| ==> Layers(nodes)[k] == Pick(nodes, Level(Dependencies(nodes), k))
  {
    var g := Dependencies(nodes);
    LayerAt(nodes, 0, k);
    LevelByChains(g, x, k);
    PickMember(nodes, Level(g, k), x);
    DependenciesSucc(nodes, x);
  }

  /** A node that transitively depends on an undeclared id, or on itself, is in no layer. */
  lemma LeftOut(nodes: seq<Node>, x: string, k: nat)
    requires !ClosureDeclared(Dependencies(nodes), x) || exists c :: Reaches(Dependencies(nodes), x, c) && OnCycle(Dependencies(nodes), c)
    ensures k < |Layers(nodes)| ==> x !in Layers(nodes)[k]
  {
    var g := Dependencies(nodes);
    LayerCharacterisation(nodes, k, x);
    if ClosureDeclared(g, x) {
      var c :| Reaches(g, x, c) && OnCycle(g, c);
      var p :| Path(g, x, c, p);
      var q :| q != [] && Path(g, c, c, q);
      CycleChain(g, c, q, k + 1);
      var r :| Path(g, c, c, r) && |r| >= k + 1;
      PathConcat(g, x, c, c, p, r);
      assert |p + r| > k;
    }
  }

  lemma {:induction false} CycleChain(g: Graph, c: string, q: seq<string>, k: nat)
    requires q != [] && Path(g, c, c, q)
    ensures exists r :: Path(g, c, c, r) && |r| >= k
    decreases k
  {
    if k == 0 {
      assert Path(g, c, c, []);
    } else {
      CycleChain(g, c, q, k - 1);
      var r :| Path(g, c, c, r) && |r| >= k - 1;
      PathConcat(g, c, c, c, q, r);
      assert |q + r| >= k;
    }
  }

  lemma {:induction false} PlacedByChains(nodes: seq<Node>, x: string, k: nat)
    requires x in Upto(Dependencies(nodes), k)
    ensures exists m :: 0 <= m <= k && m < |Layers(nodes)| && x in Layers(nodes)[m]
    decreases k
  {
    var g := Dependencies(nodes);
    if x in Level(g, k) {
      LayerAt(nodes, 0, k);
      PickMember(nodes, Level(g, k), x);
      DependenciesSucc(nodes, x);
      assert x in Layers(nodes)[k];
    } else {
      assert k > 0 && x in Upto(g, k - 1);
      PlacedByChains(nodes, x, k - 1);
    }
  }

  /** No vertex reachable from `x` is on a cycle. */
  ghost predicate AcyclicBelow(g: Graph, x: string) {
    forall c :: Reaches(g, x, c) ==> !OnCycle(g, c)
  }

  lemma BelowEdge(g: Graph, x: string, y: string)
    requires ClosureDeclared(g, x) && AcyclicBelow(g, x) && y in Succ(g, x)
    ensures ClosureDeclared(g, y) && AcyclicBelow(g, y)
  {
    EdgeLeads(g, x, y);
    forall z | Reaches(g, y, z) ensures z in g && !OnCycle(g, z) {
      ReachesTransitive(g, x, y, z);
    }
  }

  /**
   * Without a cycle below it, a vertex whose closure is declared has bounded chains: a chain visits
   * no vertex twice, so it is shorter than the vertices it has not yet left behind are many.
   */
  lemma {:induction false} ChainsEnd(g: Graph, x: string, behind: set<string>)
    requires ClosureDeclared(g, x) && AcyclicBelow(g, x)
    requires behind <= g.Keys && forall a :: a in behind ==> Leads(g, a, x)
    ensures x in g.Keys - behind && x in Upto(g, |g.Keys - behind| - 1)
    decreases g.Keys - behind
  {
    assert Path(g, x, x, []);
    assert Reaches(g, x, x);
    var left := g.Keys - behind;
    assert x in left;
    var behind' := behind + {x};
    assert g.Keys - behind' == left - {x};
    assert |left - {x}| == |left| - 1;
    forall y | y in Succ(g, x) ensures y in Upto(g, |left| - 2) {
      BelowEdge(g, x, y);
      forall a | a in behind' ensures Leads(g, a, y) {
        LeadsStep(g, a, x, y);
      }
      ChainsEnd(g, y, behind');
    }
  }

  /**
   * Converse of `LeftOut`: exactly the declared nodes whose dependency closure is declared and
   * free of cycles are in some layer.
   */
  lemma EveryOtherPlaced(nodes: seq<Node>, x: string)
    ensures (exists m :: 0 <= m < |Layers(nodes)| && x in Layers(nodes)[m]) <==>
      ClosureDeclared(Dependencies(nodes), x) && AcyclicBelow(Dependencies(nodes), x)
  {
    var g := Dependencies(nodes);
    if ClosureDeclared(g, x) && AcyclicBelow(g, x) {
      ChainsEnd(g, x, {});
      assert |g.Keys - {}| >= 1;
      PlacedByChains(nodes, x, |g.Keys - {}| - 1);
    } else {
      forall m | 0 <= m < |Layers(nodes)| ensures x !in Layers(nodes)[m] {
        LeftOut(nodes, x, m);
      }
    }
  }

  /** The order in which the runner walks the layers. */
  ghost function Flatten(layers: seq<seq<string>>): seq<string> {
    if layers == [] then [] else layers[0] + Flatten(layers[1..])
  }
}
