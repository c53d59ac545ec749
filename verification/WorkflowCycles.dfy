/** The search for cyclic workflow references in cmd/ktsu/main.go. */
module WorkflowCycles {
  import opened Wrappers
  import opened Graphs

  /**
   * The workflow files: for every reference that resolves, the `workflow:` field of each step of
   * its pipeline, and the path a relative field denotes when it is read from a given reference.
   */
  datatype Files = Files(pipelines: map<string, seq<string>>, join: (string, string) -> string)

  predicate Followed(field: string) {
    field != "" && !("ktsu/" <= field)
  }

  function Target(files: Files, ref: string, field: string): string {
    if "/" <= field then field else files.join(ref, field)
  }

  function Targets(files: Files, ref: string, fields: seq<string>): seq<string> {
    if fields == [] then []
    else
      var front, field := Targets(files, ref, fields[..|fields| - 1]), fields[|fields| - 1];
      if Followed(field) then front + [Target(files, ref, field)] else front
  }

  lemma {:induction false} TargetsMember(files: Files, ref: string, fields: seq<string>, d: string)
    ensures d in Targets(files, ref, fields) <==>
      exists i :: 0 <= i < |fields| && Followed(fields[i]) && d == Target(files, ref, fields[i])
  {
    if fields != [] {
      var front, n := fields[..|fields| - 1], |fields| - 1;
      TargetsMember(files, ref, front, d);
      assert forall i :: 0 <= i < n ==> front[i] == fields[i];
    }
  }

  /** The reference graph: what each resolvable workflow refers to. */
  ghost function References(files: Files): Graph {
    map ref | ref in files.pipelines :: Targets(files, ref, files.pipelines[ref])
  }

  /** The field names `d`, read from `ref`: an absolute path itself, another one joined to it; shipped workflows are not followed. */
  predicate RefersTo(files: Files, ref: string, field: string, d: string) {
    && field != "" && !(|field| >= 5 && field[..5] == "ktsu/")
    && d == if field[0] == '/' then field else files.join(ref, field)
  }

  /** A workflow refers to what the `workflow:` fields of its steps name; one that does not resolve to nothing. */
  lemma RefersExactly(files: Files, ref: string, d: string)
    ensures d in Succ(References(files), ref) <==>
      ref in files.pipelines && exists i :: 0 <= i < |files.pipelines[ref]| && RefersTo(files, ref, files.pipelines[ref][i], d)
  {
    if ref in files.pipelines {
      var fields := files.pipelines[ref];
      TargetsMember(files, ref, fields, d);
      forall i | 0 <= i < |fields| ensures RefersTo(files, ref, fields[i], d) <==> Followed(fields[i]) && d == Target(files, ref, fields[i]) {
        FieldRefers(files, ref, fields[i], d);
      }
    }
  }

  lemma FieldRefers(files: Files, ref: string, field: string, d: string)
    ensures RefersTo(files, ref, field, d) <==> Followed(field) && d == Target(files, ref, field)
  {
  }

  ghost function Marked(flags: map<string, bool>): set<string> {
    set x | x in flags && flags[x]
  }

  /** Refs that were entered and left again. */
  ghost function Done(visited: map<string, bool>, inStack: map<string, bool>): set<string> {
    Marked(visited) - Marked(inStack)
  }

  /** The finished refs form a closed set and none of them is on a cycle. */
  ghost predicate Sound(g: Graph, visited: map<string, bool>, inStack: map<string, bool>) {
    && Marked(inStack) <= Marked(visited)
    && Closed(g, Done(visited, inStack))
    && (forall x :: x in Done(visited, inStack) ==> !OnCycle(g, x))
  }

  lemma Enter(g: Graph, visited: map<string, bool>, inStack: map<string, bool>, ref: string)
    requires Sound(g, visited, inStack) && ref !in Marked(visited)
    ensures Sound(g, visited[ref := true], inStack[ref := true])
    ensures Marked(visited[ref := true]) == Marked(visited) + {ref}
    ensures Marked(inStack[ref := true]) == Marked(inStack) + {ref}
  {
    assert Done(visited[ref := true], inStack[ref := true]) == Done(visited, inStack);
  }

  lemma Leave(g: Graph, visited: map<string, bool>, inStack: map<string, bool>, ref: string)
    requires Sound(g, visited, inStack) && ref in Marked(inStack)
    requires forall d :: d in Succ(g, ref) ==> d in Done(visited, inStack)
    ensures Sound(g, visited, inStack[ref := false])
    ensures Marked(inStack[ref := false]) == Marked(inStack) - {ref}
  {
    FinishedOffCycle(g, Done(visited, inStack), ref);
    assert Done(visited, inStack[ref := false]) == Done(visited, inStack) + {ref};
  }

  /** Every ref on the stack leads to the ref about to be checked. */
  ghost predicate Walk(g: Graph, inStack: map<string, bool>, ref: string) {
    forall s :: s in Marked(inStack) ==> Leads(g, s, ref)
  }

  lemma WalkOn(g: Graph, before: map<string, bool>, inStack: map<string, bool>, ref: string, dep: string)
    requires Walk(g, before, ref) && dep in Succ(g, ref)
    requires Marked(inStack) == Marked(before) + {ref}
    ensures Walk(g, inStack, dep)
  {
    forall s | s in Marked(inStack) ensures Leads(g, s, dep) {
      LeadsStep(g, s, ref, dep);
    }
  }

  /** A cycle that the given ref leads into. */
  ghost predicate Finds(g: Graph, ref: string, c: string) {
    Reaches(g, ref, c) && OnCycle(g, c)
  }

  class Checker {
    const files: Files
    var visited: map<string, bool>
    var inStack: map<string, bool>

    constructor (files: Files)
      ensures this.files == files && visited == map[] && inStack == map[]
    {
      this.files := files;
      visited, inStack := map[], map[];
    }

    /** The ghost `universe` is any closed set of refs; the search stays inside it. */
    method Check(ref: string, ghost universe: set<string>) returns (msg: Option<string>)
      requires Sound(References(files), visited, inStack) && Walk(References(files), inStack, ref)
      requires ref in universe && Closed(References(files), universe)
      modifies this`visited, this`inStack
      ensures msg.Some? ==> Finds(References(files), ref, msg.value)
      ensures msg.None? ==> Sound(References(files), visited, inStack)
      ensures msg.None? ==> ref in Done(visited, inStack)
      ensures msg.None? ==> Marked(inStack) == Marked(old(inStack)) && Marked(old(visited)) <= Marked(visited)
      decreases universe - Marked(visited)
    {
      ghost var g := References(files);
      if ref in inStack && inStack[ref] {
        assert Path(g, ref, ref, []);
        return Some(ref);
      }
      if ref in visited && visited[ref] {
        return None;
      }
      ghost var before, entered := inStack, Marked(visited);
      Enter(g, visited, inStack, ref);
      visited, inStack := visited[ref := true], inStack[ref := true];
      if ref !in files.pipelines {
        // a ref that does not resolve has no outgoing references
        Leave(g, visited, inStack, ref);
        inStack := inStack[ref := false];
        return None;
      }
      var fields := files.pipelines[ref];
      var i := 0;
      while i < |fields|
        invariant 0 <= i <= |fields|
        invariant Sound(g, visited, inStack)
        invariant Marked(inStack) == Marked(before) + {ref}
        invariant entered + {ref} <= Marked(visited)
        invariant forall j :: 0 <= j < i && Followed(fields[j]) ==> Target(files, ref, fields[j]) in Done(visited, inStack)
      {
        if Followed(fields[i]) {
          var dep := Target(files, ref, fields[i]);
          TargetsMember(files, ref, fields, dep);
          WalkOn(g, before, inStack, ref, dep);
          msg := Check(dep, universe);
          if msg.Some? {
            EdgeLeads(g, ref, dep);
            ReachesTransitive(g, ref, dep, msg.value);
            inStack := inStack[ref := false];
            return msg;
          }
        }
        i := i + 1;
      }
      forall d | d in Succ(g, ref) ensures d in Done(visited, inStack) {
        TargetsMember(files, ref, fields, d);
      }
      Leave(g, visited, inStack, ref);
      inStack := inStack[ref := false];
      return None;
    }
  }

  /** Reports a cycle exactly when one is reachable from the workflow file being validated. */
  method CheckWorkflow(files: Files, root: string) returns (msg: Option<string>)
    ensures msg.Some? ==> Finds(References(files), root, msg.value)
    ensures msg.None? ==> forall c :: !Finds(References(files), root, c)
  {
    ghost var g := References(files);
    ghost var universe := Vertices(g) + {root};
    assert Closed(g, universe);
    var checker := new Checker(files);
    assert Marked(checker.visited) == {} && Marked(checker.inStack) == {};
    msg := checker.Check(root, universe);
    if msg.None? {
      forall c ensures !Finds(g, root, c) {
        if Finds(g, root, c) {
          var p :| Path(g, root, c, p);
          ClosedPath(g, Done(checker.visited, checker.inStack), root, c, p);
        }
      }
    }
  }
}
