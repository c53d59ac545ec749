/**
 * How deep the copies of internal/orchestrator/state/mem_store.go go. The maps a step record or an
 * approval carries are copied key by key; a map or list inside them is not, so the caller's record
 * and the stored one share it.
 */
module Copies {
  import opened Values

  /** A map inside an output: whoever holds it can change it. */
  class Node {
    var content: Object

    constructor (content: Object)
      ensures this.content == content
    {
      this.content := content;
    }
  }

  /** What an output holds under a key: a plain value, or a map that others may hold too. */
  datatype Field = Plain(value: Value) | Shared(node: Node)

  type Fields = map<string, Field>

  /** What a reader sees under a key. */
  datatype Seen = Scalar(value: Value) | Nested(content: Object)

  ghost function Nodes(fields: Fields): set<Node> {
    set k | k in fields && fields[k].Shared? :: fields[k].node
  }

  /** What the nested maps of an output hold. */
  ghost function Held(fields: Fields): map<Node, Object>
    reads Nodes(fields)
  {
    map n | n in Nodes(fields) :: n.content
  }

  ghost function Look(f: Field, held: map<Node, Object>): Seen
    requires f.Shared? ==> f.node in held
  {
    if f.Shared? then Nested(held[f.node]) else Scalar(f.value)
  }

  /** All that a reader of an output sees. */
  ghost function Reading(fields: Fields, held: map<Node, Object>): map<string, Seen>
    requires Nodes(fields) <= held.Keys
  {
    map k | k in fields :: assert fields[k].Shared? ==> fields[k].node in Nodes(fields); Look(fields[k], held)
  }

  /** An output map. */
  class Document {
    var fields: Fields

    constructor ()
      ensures fields == map[]
    {
      fields := map[];
    }
  }

  ghost function See(d: Document): map<string, Seen>
    reads d, Nodes(d.fields)
  {
    Reading(d.fields, Held(d.fields))
  }

  /** The copying loop: every key, in any order, with the value the original has there. */
  method Copy(d: Document) returns (c: Document)
    ensures fresh(c) && c.fields == d.fields
  {
    c := new Document();
    var todo := d.fields.Keys;
    while todo != {}
      invariant todo <= d.fields.Keys
      invariant c.fields.Keys == d.fields.Keys - todo
      invariant forall k :: k in c.fields ==> c.fields[k] == d.fields[k]
      decreases todo
    {
      var k :| k in todo;
      c.fields := c.fields[k := d.fields[k]];
      todo := todo - {k};
    }
  }

  // ---- what the holder of a record can do to its output ----

  datatype Edit =
    | SetTop(key: string, field: Field)
    | DeleteTop(key: string)
    | SetNested(key: string, inner: string, value: Value)

  /** The edit is inside a nested map. */
  predicate Inside(fields: Fields, e: Edit) {
    e.SetNested? && e.key in fields && fields[e.key].Shared?
  }

  /** The edit changes a nested map, and not to what it was. */
  ghost predicate Reaches(fields: Fields, held: map<Node, Object>, e: Edit)
    requires Nodes(fields) <= held.Keys
  {
    Inside(fields, e) &&
    (assert fields[e.key].node in Nodes(fields);
     !(e.inner in held[fields[e.key].node] && held[fields[e.key].node][e.inner] == e.value))
  }

  function AfterTop(fields: Fields, e: Edit): Fields {
    match e
    case SetTop(key, field) => fields[key := field]
    case DeleteTop(key) => fields - {key}
    case SetNested(_, _, _) => fields
  }

  /** Of all nested maps only the one the edit is inside changes, at one key. */
  ghost function AfterInside(fields: Fields, held: map<Node, Object>, e: Edit): map<Node, Object>
    requires Nodes(fields) <= held.Keys
  {
    if Inside(fields, e) then
      var node := fields[e.key].node;
      assert node in Nodes(fields);
      held[node := held[node][e.inner := e.value]]
    else held
  }

  method Apply(d: Document, e: Edit)
    modifies d, Nodes(d.fields)
    ensures d.fields == AfterTop(old(d.fields), e)
    ensures Held(old(d.fields)) == AfterInside(old(d.fields), old(Held(d.fields)), e)
  {
    match e
    case SetTop(key, field) => d.fields := d.fields[key := field];
    case DeleteTop(key) => d.fields := d.fields - {key};
    case SetNested(key, inner, value) =>
      if key in d.fields && d.fields[key].Shared? {
        d.fields[key].node.content := d.fields[key].node.content[inner := value];
      }
  }

  /** Writing a key changes a map unless the key held that value already. */
  lemma WriteChanges(content: Object, inner: string, value: Value)
    ensures content[inner := value] == content <==> inner in content && content[inner] == value
  {
    assert content[inner := value][inner] == value;
  }

  /** What a holder of the same nested maps sees of an edit. */
  lemma SeenExactly(fields: Fields, held: map<Node, Object>, e: Edit)
    requires Nodes(fields) <= held.Keys
    ensures Reading(fields, AfterInside(fields, held, e)) == Reading(fields, held) <==> !Reaches(fields, held, e)
  {
    var after := AfterInside(fields, held, e);
    if Inside(fields, e) {
      var node := fields[e.key].node;
      assert node in Nodes(fields);
      WriteChanges(held[node], e.inner, e.value);
      assert Reading(fields, after)[e.key] == Nested(after[node]) && Reading(fields, held)[e.key] == Nested(held[node]);
    }
  }

  /**
   * Copy in, exactly. After a record was stored, what its owner does to the original changes what
   * the store holds exactly when it changes a map inside the output: top-level keys are isolated,
   * nested maps are shared.
   */
  method EditOriginal(mine: Document, e: Edit) returns (stored: Document)
    modifies mine, Nodes(mine.fields)
    ensures fresh(stored) && stored.fields == old(mine.fields)
    ensures See(stored) == old(See(mine)) <==> !old(Reaches(mine.fields, Held(mine.fields), e))
  {
    ghost var fields, held := mine.fields, Held(mine.fields);
    stored := Copy(mine);
    Apply(mine, e);
    SeenExactly(fields, held, e);
  }

  /** Copy out, exactly: the same for a record the store has handed out. */
  method EditCopy(stored: Document, e: Edit) returns (given: Document)
    modifies Nodes(stored.fields)
    ensures fresh(given) && stored.fields == old(stored.fields)
    ensures See(stored) == old(See(stored)) <==> !old(Reaches(stored.fields, Held(stored.fields), e))
  {
    ghost var fields, held := stored.fields, Held(stored.fields);
    given := Copy(stored);
    Apply(given, e);
    SeenExactly(fields, held, e);
  }

  /** The failing input: one nested key is changed after the record was stored. */
  method NestedWriteShows() returns (stored: Document, before: Value, after: Value)
    ensures fresh(stored) && "a" in stored.fields && stored.fields["a"].Shared?
    ensures before == Num(0.0) && after == Num(1.0)
    ensures stored.fields["a"].node.content == map["b" := after]
  {
    var node := new Node(map["b" := Num(0.0)]);
    var mine := new Document();
    mine.fields := map["a" := Shared(node)];
    stored := Copy(mine);
    before := stored.fields["a"].node.content["b"];
    Apply(mine, SetNested("a", "b", Num(1.0)));
    after := stored.fields["a"].node.content["b"];
  }
}
