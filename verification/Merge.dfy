/** `deepMerge` and `applyMerge` of internal/orchestrator/runner/runner.go. */
module Merge {
  import opened Wrappers
  import opened Values

  /** Merges `b` into `a`: objects key by key, arrays by concatenation, otherwise `b` wins. */
  function DeepMerge(a: Value, b: Value): Value
    decreases a
  {
    if a.Obj? && b.Obj? then
      Obj(map k | k in a.fields.Keys + b.fields.Keys ::
        if k !in b.fields then a.fields[k]
        else if k in a.fields then DeepMerge(a.fields[k], b.fields[k])
        else b.fields[k])
    else if a.Arr? && b.Arr? then Arr(a.items + b.items)
    else b
  }

  /** The value found by following object keys. */
  function At(v: Value, path: seq<string>): Option<Value>
    decreases |path|
  {
    if path == [] then Some(v)
    else if v.Obj? && path[0] in v.fields then At(v.fields[path[0]], path[1..])
    else None
  }

  /** Following `path` runs into something that is not an object. */
  predicate Blocks(v: Value, path: seq<string>)
    decreases |path|
  {
    path != [] && (!v.Obj? || (path[0] in v.fields && Blocks(v.fields[path[0]], path[1..])))
  }

  /** Of two objects a merge has all the keys, of two arrays all the items in a row; otherwise it is `b`. */
  predicate Combines(m: Value, a: Value, b: Value) {
    if a.Obj? && b.Obj? then m.Obj? && m.fields.Keys == a.fields.Keys + b.fields.Keys
    else if a.Arr? && b.Arr? then m.Arr? && m.items == a.items + b.items
    else m == b
  }

  /**
   * What a merge holds at any path: where both have something, the two combined; where only `b` has
   * something, that; where `b` has nothing, what `a` has, unless `b` replaced an object on the way
   * by something else.
   */
  lemma {:induction false} MergeAt(a: Value, b: Value, path: seq<string>)
    ensures At(b, path).Some? && At(a, path).Some? ==>
      && At(DeepMerge(a, b), path) == Some(DeepMerge(At(a, path).value, At(b, path).value))
      && Combines(At(DeepMerge(a, b), path).value, At(a, path).value, At(b, path).value)
    ensures At(b, path).Some? && At(a, path).None? ==> At(DeepMerge(a, b), path) == At(b, path)
    ensures At(b, path).None? && !Blocks(b, path) ==> At(DeepMerge(a, b), path) == At(a, path)
    ensures At(b, path).None? && Blocks(b, path) ==> At(DeepMerge(a, b), path) == None
    decreases |path|
  {
    if path != [] && a.Obj? && b.Obj? && path[0] in a.fields && path[0] in b.fields {
      MergeAt(a.fields[path[0]], b.fields[path[0]], path[1..]);
    }
  }

  /** Merging `c` over `a` leaves nothing of `a`. */
  predicate Absorbed(a: Value, c: Value)
    decreases a
  {
    if a.Obj? && c.Obj? then forall k :: k in a.fields ==> k in c.fields && Absorbed(a.fields[k], c.fields[k])
    else a.Arr? && c.Arr? ==> a.items == []
  }

  /** `b` does not stand between two mergeable values with a value of another shape. */
  predicate Reassociates(a: Value, b: Value, c: Value)
    decreases a
  {
    if a.Obj? && c.Obj? then
      if b.Obj? then
        forall k :: k in a.fields && k in b.fields && k in c.fields ==> Reassociates(a.fields[k], b.fields[k], c.fields[k])
      else Absorbed(a, c)
    else a.Arr? && c.Arr? && !b.Arr? ==> a.items == []
  }

  lemma {:induction false} AbsorbedExactly(a: Value, c: Value)
    ensures Absorbed(a, c) <==> DeepMerge(a, c) == c
    decreases a
  {
    if a.Obj? && c.Obj? {
      var m := DeepMerge(a, c).fields;
      forall k | k in a.fields && k in c.fields ensures Absorbed(a.fields[k], c.fields[k]) <==> m[k] == c.fields[k] {
        AbsorbedExactly(a.fields[k], c.fields[k]);
      }
      if Absorbed(a, c) {
        assert m == c.fields;
      } else {
        var k :| k in a.fields && !(k in c.fields && Absorbed(a.fields[k], c.fields[k]));
        assert k in m;
      }
    } else if a.Arr? && c.Arr? {
      assert |a.items + c.items| == |a.items| + |c.items|;
      assert [] + c.items == c.items;
    }
  }

  /** Merging is not associative in general; these are exactly the triples on which it is. */
  lemma {:induction false} AssociativeExactly(a: Value, b: Value, c: Value)
    ensures Reassociates(a, b, c) <==> DeepMerge(DeepMerge(a, b), c) == DeepMerge(a, DeepMerge(b, c))
    decreases a
  {
    var left, right := DeepMerge(DeepMerge(a, b), c), DeepMerge(a, DeepMerge(b, c));
    if a.Obj? && b.Obj? && c.Obj? {
      var l, r := left.fields, right.fields;
      forall k | k in a.fields && k in b.fields && k in c.fields
        ensures Reassociates(a.fields[k], b.fields[k], c.fields[k]) <==> l[k] == r[k]
      {
        AssociativeExactly(a.fields[k], b.fields[k], c.fields[k]);
      }
      assert l.Keys == r.Keys;
      if Reassociates(a, b, c) {
        assert l == r;
      } else {
        var k :| k in a.fields && k in b.fields && k in c.fields && !Reassociates(a.fields[k], b.fields[k], c.fields[k]);
        assert l[k] != r[k];
      }
    } else if a.Arr? && b.Arr? && c.Arr? {
      assert (a.items + b.items) + c.items == a.items + (b.items + c.items);
    } else if (a.Obj? && c.Obj?) || (a.Arr? && c.Arr?) {
      AbsorbedExactly(a, c);
    }
  }

  /** A step output that is null between two lists: which lists survive depends on the grouping. */
  lemma NotAssociative()
    ensures var (a, b, c) := (Arr([Num(1.0)]), Null, Arr([Num(2.0)]));
      && DeepMerge(DeepMerge(a, b), c) == Arr([Num(2.0)])
      && DeepMerge(a, DeepMerge(b, c)) == Arr([Num(1.0), Num(2.0)])
  {
    assert [Num(1.0)] + [Num(2.0)] == [Num(1.0), Num(2.0)];
    assert Arr([Num(1.0), Num(2.0)]).items[0] == Num(1.0);
  }

  lemma EmptyObjectIsIdentity(v: Value)
    requires v.Obj?
    ensures DeepMerge(Obj(map[]), v) == v && DeepMerge(v, Obj(map[])) == v
  {
    assert DeepMerge(Obj(map[]), v).fields == v.fields;
    assert DeepMerge(v, Obj(map[])).fields == v.fields;
  }

  /** The step id an entry of a merge list denotes; an entry that is not a string denotes "". */
  function StepId(id: Value): string {
    if id.Str? then id.s else ""
  }

  /** Merges the outputs of the listed steps in turn; a step without output is passed over. */
  function MergeAll(current: Value, ids: seq<Value>, outputs: map<string, Object>): Value {
    if ids == [] then current
    else
      var front, id := MergeAll(current, ids[..|ids| - 1], outputs), StepId(ids[|ids| - 1]);
      if id in outputs then DeepMerge(front, Obj(outputs[id])) else front
  }

  /** Merging one list and then another is merging the two lists in a row. */
  lemma {:induction false} MergesInARow(current: Value, ids: seq<Value>, more: seq<Value>, outputs: map<string, Object>)
    ensures MergeAll(current, ids + more, outputs) == MergeAll(MergeAll(current, ids, outputs), more, outputs)
    decreases |more|
  {
    if more == [] {
      assert ids + more == ids;
    } else {
      var front := more[..|more| - 1];
      MergesInARow(current, ids, front, outputs);
      assert (ids + more)[..|ids + more| - 1] == ids + front;
    }
  }

  /** What an entry of a merge list names: a string itself, anything else the empty id. */
  predicate Names(entry: Value, id: string) {
    entry == Str(id) || (!entry.Str? && id == "")
  }

  lemma NamesOne(entry: Value, id: string)
    ensures Names(entry, id) <==> StepId(entry) == id
  {
  }

  /** One more entry merges the output of the step it names over what is there, or is passed over. */
  lemma NextOutput(current: Value, ids: seq<Value>, entry: Value, id: string, outputs: map<string, Object>)
    requires Names(entry, id)
    ensures var (before, after) := (MergeAll(current, ids, outputs), MergeAll(current, ids + [entry], outputs));
      after == if id in outputs then DeepMerge(before, Obj(outputs[id])) else before
    ensures MergeAll(current, [], outputs) == current
  {
    assert (ids + [entry])[..|ids|] == ids;
  }

  method ApplyMerge(current: Value, ids: seq<Value>, outputs: map<string, Object>) returns (result: Value)
    ensures result == MergeAll(current, ids, outputs)
  {
    result := current;
    for i := 0 to |ids|
      invariant result == MergeAll(current, ids[..i], outputs)
    {
      assert ids[..i + 1][..i] == ids[..i];
      var id := StepId(ids[i]);
      if id in outputs {
        result := DeepMerge(result, Obj(outputs[id]));
      }
    }
    assert ids[..|ids|] == ids;
  }

  predicate IsScalar(v: Value) {
    !v.Obj? && !v.Arr?
  }

  lemma {:induction false} LastScalarStays(current: Value, ids: seq<Value>, outputs: map<string, Object>, i: nat, path: seq<string>)
    requires i < |ids| && StepId(ids[i]) in outputs
    requires At(Obj(outputs[StepId(ids[i])]), path).Some?
    requires IsScalar(At(Obj(outputs[StepId(ids[i])]), path).value)
    requires forall j :: i < j < |ids| && StepId(ids[j]) in outputs ==>
      At(Obj(outputs[StepId(ids[j])]), path).None? && !Blocks(Obj(outputs[StepId(ids[j])]), path)
    ensures At(MergeAll(current, ids, outputs), path) == At(Obj(outputs[StepId(ids[i])]), path)
    decreases |ids|
  {
    var n := |ids| - 1;
    var front := MergeAll(current, ids[..n], outputs);
    if StepId(ids[n]) in outputs {
      MergeAt(front, Obj(outputs[StepId(ids[n])]), path);
    }
    if i < n {
      LastScalarStays(current, ids[..n], outputs, i, path);
    }
  }

  /** The output has nothing at the path, and does not stand in the way of it. */
  predicate LeavesAlone(output: Object, path: seq<string>) {
    At(Obj(output), path).None? && !Blocks(Obj(output), path)
  }

  /** The last listed output that has anything at `path` decides, if what it has is a scalar. */
  lemma LastOutputWins(current: Value, ids: seq<Value>, outputs: map<string, Object>, i: nat, id: string, path: seq<string>)
    requires i < |ids| && Names(ids[i], id) && id in outputs
    requires At(Obj(outputs[id]), path).Some? && IsScalar(At(Obj(outputs[id]), path).value)
    requires forall j, other :: i < j < |ids| && Names(ids[j], other) && other in outputs ==> LeavesAlone(outputs[other], path)
    ensures At(MergeAll(current, ids, outputs), path) == At(Obj(outputs[id]), path)
  {
    NamesOne(ids[i], id);
    forall j | i < j < |ids| && StepId(ids[j]) in outputs ensures LeavesAlone(outputs[StepId(ids[j])], path) {
      NamesOne(ids[j], StepId(ids[j]));
    }
    LastScalarStays(current, ids, outputs, i, path);
  }
}
