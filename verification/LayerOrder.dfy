/** The order in which the runner walks the layers: no step twice, dependencies before dependents. */
module LayerOrder {
  import opened Graphs
  import opened CycleDetection
  import opened Layering

  predicate Distinct(s: seq<string>) {
    forall i, j :: 0 <= i < j < |s| ==> s[i] != s[j]
  }

  lemma DistinctConcat(a: seq<string>, b: seq<string>)
    requires Distinct(a) && Distinct(b) && forall x :: x in a ==> x !in b
    ensures Distinct(a + b)
  {
    forall i, j | 0 <= i < j < |a + b| ensures (a + b)[i] != (a + b)[j] {
      assert i < |a| ==> (a + b)[i] in a;
      assert j >= |a| ==> (a + b)[j] in b;
    }
  }

  lemma {:induction false} PickDistinct(nodes: seq<Node>, s: set<string>)
    requires UniqueIds(nodes)
    ensures Distinct(Pick(nodes, s))
  {
    if nodes != [] {
      var front, last := nodes[..|nodes| - 1], nodes[|nodes| - 1];
      PickDistinct(front, s);
      PickMember(front, s, last.id);
    }
  }

  ghost predicate Placed(nodes: seq<Node>, k: nat, x: string) {
    x in Dependencies(nodes) && exists m {:trigger Level(Dependencies(nodes), m)} :: m >= k && x in Level(Dependencies(nodes), m)
  }

  lemma {:induction false} OrderMember(nodes: seq<Node>, k: nat, x: string)
    ensures x in Flatten(LayersFrom(nodes, k)) <==> Placed(nodes, k, x)
    decreases Dependencies(nodes).Keys - Upto(Dependencies(nodes), k - 1)
  {
    var g := Dependencies(nodes);
    UptoGrows(g, k);
    if Level(g, k) == {} {
      forall m | m >= k ensures Level(g, m) == {} {
        EmptyLevels(g, k, m);
      }
    } else {
      assert g.Keys - Upto(g, k) < g.Keys - Upto(g, k - 1);
      OrderMember(nodes, k + 1, x);
      PickMember(nodes, Level(g, k), x);
      DependenciesSucc(nodes, x);
    }
  }

  lemma {:induction false} UptoMonotone(g: Graph, k: int, m: int)
    requires k <= m
    ensures Upto(g, k) <= Upto(g, m)
    decreases m - k
  {
    if k < m {
      UptoMonotone(g, k, m - 1);
      UptoGrows(g, m);
    }
  }

  lemma LevelsDisjoint(g: Graph, k: nat, m: nat, x: string)
    requires x in Level(g, k) && x in Level(g, m)
    ensures k == m
  {
    if k < m {
      UptoMonotone(g, k, m - 1);
    } else if m < k {
      UptoMonotone(g, m, k - 1);
    }
  }

  lemma {:induction false} OrderDistinct(nodes: seq<Node>, k: nat)
    requires UniqueIds(nodes)
    ensures Distinct(Flatten(LayersFrom(nodes, k)))
    decreases Dependencies(nodes).Keys - Upto(Dependencies(nodes), k - 1)
  {
    var g := Dependencies(nodes);
    UptoGrows(g, k);
    if Level(g, k) != {} {
      assert g.Keys - Upto(g, k) < g.Keys - Upto(g, k - 1);
      var first, rest := Pick(nodes, Level(g, k)), Flatten(LayersFrom(nodes, k + 1));
      PickDistinct(nodes, Level(g, k));
      OrderDistinct(nodes, k + 1);
      forall x | x in first ensures x !in rest {
        PickMember(nodes, Level(g, k), x);
        OrderMember(nodes, k + 1, x);
        if Placed(nodes, k + 1, x) {
          var m :| m >= k + 1 && x in Level(g, m);
          LevelsDisjoint(g, k, m, x);
        }
      }
      DistinctConcat(first, rest);
    }
  }

  /** The steps of a workflow in the order the runner takes them. */
  ghost function Order(nodes: seq<Node>): seq<string> {
    Flatten(Layers(nodes))
  }

  /** What a step depends on has been placed: before layer `k`, or earlier in the order. */
  lemma {:induction false} EarlierOrBelow(nodes: seq<Node>, k: nat, i: nat, d: string)
    requires i < |Flatten(LayersFrom(nodes, k))|
    requires d in AllDeps(nodes, Flatten(LayersFrom(nodes, k))[i])
    ensures d in Upto(Dependencies(nodes), k - 1) || d in Flatten(LayersFrom(nodes, k))[..i]
    decreases Dependencies(nodes).Keys - Upto(Dependencies(nodes), k - 1)
  {
    var g := Dependencies(nodes);
    UptoGrows(g, k);
    var first, rest := Pick(nodes, Level(g, k)), Flatten(LayersFrom(nodes, k + 1));
    var all := Flatten(LayersFrom(nodes, k));
    assert Level(g, k) != {};
    assert g.Keys - Upto(g, k) < g.Keys - Upto(g, k - 1);
    assert all == first + rest;
    if i < |first| {
      assert all[i] in first;
      PickMember(nodes, Level(g, k), all[i]);
      DependenciesSucc(nodes, all[i]);
    } else {
      assert all[i] == rest[i - |first|];
      EarlierOrBelow(nodes, k + 1, i - |first|, d);
      assert all[..i] == first + rest[..i - |first|];
      if d in Upto(g, k) && d !in Upto(g, k - 1) {
        PickMember(nodes, Level(g, k), d);
        DependenciesSucc(nodes, d);
        assert d in first;
      }
    }
  }

  /** Every dependency of a step comes before it in the order. */
  lemma DependenciesFirst(nodes: seq<Node>, i: nat, d: string)
    requires i < |Order(nodes)| && d in AllDeps(nodes, Order(nodes)[i])
    ensures d in Order(nodes)[..i]
  {
    EarlierOrBelow(nodes, 0, i, d);
  }

  lemma {:induction false} FlattenMember(layers: seq<seq<string>>, x: string)
    ensures x in Flatten(layers) <==> exists m :: 0 <= m < |layers| && x in layers[m]
  {
    if layers != [] {
      FlattenMember(layers[1..], x);
      if x in Flatten(layers[1..]) {
        var m :| 0 <= m < |layers[1..]| && x in layers[1..][m];
        assert x in layers[m + 1];
      }
      if m :| 0 <= m < |layers| && x in layers[m] {
        assert m > 0 ==> layers[1..][m - 1] == layers[m];
      }
    }
  }

  /**
   * With unique ids and no cycle, exactly the nodes whose whole dependency closure is declared are
   * in the order, once each.
   */
  lemma OrderIsComplete(nodes: seq<Node>, x: string)
    requires UniqueIds(nodes) && !HasCycle(Adjacency(nodes))
    ensures Distinct(Order(nodes))
    ensures x in Order(nodes) <==> ClosureDeclared(Dependencies(nodes), x)
  {
    OrderDistinct(nodes, 0);
    UniqueGraph(nodes);
    FlattenMember(Layers(nodes), x);
    EveryOtherPlaced(nodes, x);
  }
}
