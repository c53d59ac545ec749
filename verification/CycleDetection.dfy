/** The coloured depth-first search of internal/orchestrator/dag/dag.go. */
module CycleDetection {
  import opened Wrappers
  import opened Graphs

  datatype Node = Node(id: string, depends: seq<string>)

  /** The adjacency map the search walks: a repeated id keeps its last dependency list. */
  function Adjacency(nodes: seq<Node>): Graph {
    if nodes == [] then map[]
    else Adjacency(nodes[..|nodes| - 1])[nodes[|nodes| - 1].id := nodes[|nodes| - 1].depends]
  }

  const GRAY := 1
  const BLACK := 2

  ghost function Painted(color: map<string, int>, paint: int): set<string> {
    set x | x in color && color[x] == paint
  }

  /** Every entry is gray or black; the black vertices are closed and none is on a cycle. */
  ghost predicate Sound(adj: Graph, color: map<string, int>) {
    && (forall x :: x in color ==> color[x] == GRAY || color[x] == BLACK)
    && Closed(adj, Painted(color, BLACK))
    && (forall x :: x in Painted(color, BLACK) ==> !OnCycle(adj, x))
  }

  lemma PaintGray(adj: Graph, color: map<string, int>, id: string)
    requires Sound(adj, color) && id !in color
    ensures Sound(adj, color[id := GRAY])
    ensures Painted(color[id := GRAY], GRAY) == Painted(color, GRAY) + {id}
    ensures Painted(color[id := GRAY], BLACK) == Painted(color, BLACK)
  {
    assert Painted(color[id := GRAY], BLACK) == Painted(color, BLACK);
  }

  lemma PaintBlack(adj: Graph, color: map<string, int>, id: string)
    requires Sound(adj, color) && id in Painted(color, GRAY)
    requires forall d :: d in Succ(adj, id) ==> d in Painted(color, BLACK)
    ensures Sound(adj, color[id := BLACK])
    ensures Painted(color[id := BLACK], GRAY) == Painted(color, GRAY) - {id}
    ensures Painted(color[id := BLACK], BLACK) == Painted(color, BLACK) + {id}
  {
    FinishedOffCycle(adj, Painted(color, BLACK), id);
    assert Painted(color[id := BLACK], BLACK) == Painted(color, BLACK) + {id};
  }

  /** Every gray vertex leads to the vertex about to be visited. */
  ghost predicate Walk(adj: Graph, color: map<string, int>, id: string) {
    forall s :: s in Painted(color, GRAY) ==> Leads(adj, s, id)
  }

  lemma WalkOn(adj: Graph, before: map<string, int>, color: map<string, int>, id: string, dep: string)
    requires Walk(adj, before, id) && dep in Succ(adj, id)
    requires Painted(color, GRAY) == Painted(before, GRAY) + {id}
    ensures Walk(adj, color, dep)
  {
    forall s | s in Painted(color, GRAY) ensures Leads(adj, s, dep) {
      LeadsStep(adj, s, id, dep);
    }
  }

  class Search {
    const adj: Graph
    var color: map<string, int>

    constructor (adj: Graph)
      ensures this.adj == adj && color == map[]
    {
      this.adj := adj;
      color := map[];
    }

    /** Visits `id`, with the gray vertices as the walk that led here. */
    method Visit(id: string) returns (err: Option<string>)
      requires Sound(adj, color) && id in Vertices(adj) && Walk(adj, color, id)
      modifies this`color
      ensures err.Some? ==> OnCycle(adj, err.value)
      ensures err.None? ==> Sound(adj, color) && id in Painted(color, BLACK)
      ensures err.None? ==> Painted(color, GRAY) == Painted(old(color), GRAY)
      ensures err.None? ==> Painted(old(color), BLACK) <= Painted(color, BLACK)
      ensures err.None? ==> old(color.Keys) <= color.Keys
      decreases Vertices(adj) - color.Keys
    {
      if id in color && color[id] == BLACK {
        return None;
      }
      if id in color && color[id] == GRAY {
        return Some(id);
      }
      ghost var before := color;
      PaintGray(adj, color, id);
      color := color[id := GRAY];
      var deps := Succ(adj, id);
      var i := 0;
      while i < |deps|
        invariant 0 <= i <= |deps|
        invariant Sound(adj, color)
        invariant Painted(color, GRAY) == Painted(before, GRAY) + {id}
        invariant Painted(before, BLACK) <= Painted(color, BLACK)
        invariant before.Keys + {id} <= color.Keys
        invariant forall j :: 0 <= j < i ==> deps[j] in Painted(color, BLACK)
      {
        WalkOn(adj, before, color, id, deps[i]);
        err := Visit(deps[i]);
        if err.Some? {
          return err;
        }
        i := i + 1;
      }
      PaintBlack(adj, color, id);
      color := color[id := BLACK];
      return None;
    }
  }

  /** Reports a vertex on a cycle of the dependency graph exactly when the graph has one. */
  method DetectCycle(nodes: seq<Node>) returns (err: Option<string>)
    ensures err.Some? <==> HasCycle(Adjacency(nodes))
    ensures err.Some? ==> OnCycle(Adjacency(nodes), err.value)
  {
    var adj: Graph := map[];
    for i := 0 to |nodes|
      invariant adj == Adjacency(nodes[..i])
    {
      assert nodes[..i + 1][..i] == nodes[..i];
      adj := adj[nodes[i].id := nodes[i].depends];
    }
    assert nodes[..|nodes|] == nodes;
    var search := new Search(adj);
    for i := 0 to |nodes|
      invariant search.adj == adj && Sound(adj, search.color) && Painted(search.color, GRAY) == {}
      invariant forall j :: 0 <= j < i ==> nodes[j].id in Painted(search.color, BLACK)
    {
      NodeIsVertex(nodes, i);
      err := search.Visit(nodes[i].id);
      if err.Some? {
        return err;
      }
    }
    AllBlack(nodes, search.color);
    return None;
  }

  lemma NodeIsVertex(nodes: seq<Node>, i: nat)
    requires i < |nodes|
    ensures nodes[i].id in Vertices(Adjacency(nodes))
  {
    AdjacencyKeys(nodes);
    assert nodes[i] in nodes;
  }

  /** Once every node is black no cycle is left. */
  lemma AllBlack(nodes: seq<Node>, color: map<string, int>)
    requires Sound(Adjacency(nodes), color)
    requires forall j :: 0 <= j < |nodes| ==> nodes[j].id in Painted(color, BLACK)
    ensures !HasCycle(Adjacency(nodes))
  {
    var adj := Adjacency(nodes);
    AdjacencyKeys(nodes);
    var v := Vertices(adj);
    forall x ensures !OnCycle(adj, x) {
      if x in adj {
        var n :| n in nodes && n.id == x;
        assert x in Painted(color, BLACK);
      }
    }
  }

  lemma {:induction false} AdjacencyKeys(nodes: seq<Node>)
    ensures Adjacency(nodes).Keys == set n | n in nodes :: n.id
  {
    if nodes != [] {
      var front, last := nodes[..|nodes| - 1], nodes[|nodes| - 1];
      AdjacencyKeys(front);
      assert nodes == front + [last];
    }
  }
}
