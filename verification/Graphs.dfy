/** Finite directed graphs given by adjacency lists, and walks through them. */
module Graphs {

  type Graph = map<string, seq<string>>

  /** The targets of the edges leaving `x`; a key that is not in the map has none. */
  function Succ(g: Graph, x: string): seq<string> {
    if x in g then g[x] else []
  }

  /** `p` lists the vertices visited after `x`, one per edge, the last of them `y`. */
  ghost predicate Path(g: Graph, x: string, y: string, p: seq<string>)
    decreases |p|
  {
    if p == [] then x == y else p[0] in Succ(g, x) && Path(g, p[0], y, p[1..])
  }

  ghost predicate Reaches(g: Graph, x: string, y: string) {
    exists p :: Path(g, x, y, p)
  }

  /** Reachable along at least one edge. */
  ghost predicate Leads(g: Graph, x: string, y: string) {
    exists p :: p != [] && Path(g, x, y, p)
  }

  ghost predicate OnCycle(g: Graph, x: string) {
    Leads(g, x, x)
  }

  ghost predicate HasCycle(g: Graph) {
    exists x :: OnCycle(g, x)
  }

  /** No edge leaves `s`. */
  ghost predicate Closed(g: Graph, s: set<string>) {
    forall x, y :: x in s && y in Succ(g, x) ==> y in s
  }

  ghost function Vertices(g: Graph): (v: set<string>)
    ensures Closed(g, v)
    ensures forall x :: OnCycle(g, x) ==> x in g
  {
    var v := g.Keys + set k, d | k in g && d in g[k] :: d;
    assert forall x, y :: x in v && y in Succ(g, x) ==> y in v;
    assert forall x :: OnCycle(g, x) ==> x in g by {
      forall x | OnCycle(g, x) ensures x in g {
        var p :| p != [] && Path(g, x, x, p);
        assert p[0] in Succ(g, x);
      }
    }
    v
  }

  lemma {:induction false} PathConcat(g: Graph, x: string, y: string, z: string, p: seq<string>, q: seq<string>)
    requires Path(g, x, y, p) && Path(g, y, z, q)
    ensures Path(g, x, z, p + q)
    decreases |p|
  {
    if p == [] {
      assert p + q == q;
    } else {
      PathConcat(g, p[0], y, z, p[1..], q);
      assert (p + q)[1..] == p[1..] + q;
    }
  }

  lemma ReachesTransitive(g: Graph, x: string, y: string, z: string)
    requires Reaches(g, x, y) && Reaches(g, y, z)
    ensures Reaches(g, x, z)
  {
    var p :| Path(g, x, y, p);
    var q :| Path(g, y, z, q);
    PathConcat(g, x, y, z, p, q);
  }

  lemma EdgeLeads(g: Graph, x: string, y: string)
    requires y in Succ(g, x)
    ensures Leads(g, x, y) && Reaches(g, x, y)
  {
    var p := [y];
    assert Path(g, y, y, p[1..]);
    assert Path(g, x, y, p);
  }

  lemma LeadsStep(g: Graph, x: string, y: string, z: string)
    requires x == y || Leads(g, x, y)
    requires z in Succ(g, y)
    ensures Leads(g, x, z)
  {
    EdgeLeads(g, y, z);
    if x != y {
      var p :| p != [] && Path(g, x, y, p);
      var q :| q != [] && Path(g, y, z, q);
      PathConcat(g, x, y, z, p, q);
      assert p + q != [];
    }
  }

  /** A walk that starts in a closed set never leaves it. */
  lemma {:induction false} ClosedPath(g: Graph, s: set<string>, x: string, y: string, p: seq<string>)
    requires Closed(g, s) && x in s && Path(g, x, y, p)
    ensures y in s
    decreases |p|
  {
    if p != [] {
      ClosedPath(g, s, p[0], y, p[1..]);
    }
  }

  /**
   * What makes depth-first search decide cycles: a vertex whose successors all lie in a closed
   * set that leaves the vertex out cannot be on a cycle.
   */
  lemma FinishedOffCycle(g: Graph, s: set<string>, x: string)
    requires Closed(g, s) && x !in s
    requires forall y :: y in Succ(g, x) ==> y in s
    ensures !OnCycle(g, x)
  {
    if OnCycle(g, x) {
      var p :| p != [] && Path(g, x, x, p);
      ClosedPath(g, s, p[0], x, p[1..]);
    }
  }
}
