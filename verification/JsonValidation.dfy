/** What the JSON a message carries may be: a graph of arrays and records, which may share parts (protocol.ts). */
module JsonGraphs {
  type ObjectId(==, !new)

  datatype Option<+T> = None | Some(value: T)

  /** `Other` is a value of no JSON type. */
  datatype Value = Null | Boolean | Text | Number(finite: bool) | Other | Object(id: ObjectId)

  /** An array may have holes. `Exotic` is an object that is neither an array nor a plain record. */
  datatype Node = Array(items: seq<Option<Value>>) | Record(values: seq<Value>) | Exotic

  type Graph = map<ObjectId, Node>

  const MAX_JSON_DEPTH := 64
  const MAX_ARRAY_ITEMS := 1_000_000
  const MAX_JSON_VISITS := 1_000_000

  /** An object's own parts. A hole in an array counts as a value of no JSON type. */
  function Children(node: Node): seq<Value> {
    match node
    case Array(items) => seq(|items|, i requires 0 <= i < |items| => if items[i].Some? then items[i].value else Other)
    case Record(values) => values
    case Exotic => []
  }

  predicate Sound(g: Graph, v: Value) {
    match v
    case Number(finite) => finite
    case Other => false
    case Object(id) => id in g && !g[id].Exotic? && (g[id].Array? ==> |g[id].items| <= MAX_ARRAY_ITEMS)
    case _ => true
  }

  function ChildrenOf(g: Graph, v: Value): seq<Value> {
    if v.Object? && v.id in g then Children(g[v.id]) else []
  }

  /** The plain check: every value below is sound, and none is deeper than the limit. */
  predicate Plain(g: Graph, v: Value, depth: nat)
    decreases MAX_JSON_DEPTH + 1 - depth
  {
    && depth <= MAX_JSON_DEPTH
    && Sound(g, v)
    && forall i :: 0 <= i < |ChildrenOf(g, v)| ==> Plain(g, ChildrenOf(g, v)[i], depth + 1)
  }

  /** What the plain check looks at: of a record every value, and of an array every item, none of which is a hole. */
  lemma PlainParts(g: Graph, v: Value, depth: nat)
    ensures Plain(g, v, depth) <==>
            && depth <= MAX_JSON_DEPTH
            && match v
               case Null | Boolean | Text => true
               case Number(finite) => finite
               case Other => false
               case Object(id) => id in g && match g[id]
                 case Record(values) => forall i :: 0 <= i < |values| ==> Plain(g, values[i], depth + 1)
                 case Array(items) =>
                   && |items| <= MAX_ARRAY_ITEMS
                   && forall i :: 0 <= i < |items| ==> items[i].Some? && Plain(g, items[i].value, depth + 1)
                 case Exotic => false
  {
    if v.Object? && v.id in g {
      var below := ChildrenOf(g, v);
      match g[v.id]
      case Record(values) =>
        assert below == values;
      case Array(items) =>
        forall i | 0 <= i < |items|
          ensures Plain(g, below[i], depth + 1) <==> items[i].Some? && Plain(g, items[i].value, depth + 1)
        {
          assert below[i] == if items[i].Some? then items[i].value else Other;
        }
      case Exotic =>
    }
  }

  /** The value at the end of a path of child indexes. */
  function Follow(g: Graph, v: Value, path: seq<nat>): Option<Value>
    decreases |path|
  {
    if path == [] then Some(v)
    else if path[0] < |ChildrenOf(g, v)| then Follow(g, ChildrenOf(g, v)[path[0]], path[1..])
    else None
  }

  ghost predicate PathsSound(g: Graph, v: Value, depth: nat) {
    forall path :: Follow(g, v, path).Some? ==> depth + |path| <= MAX_JSON_DEPTH && Sound(g, Follow(g, v, path).value)
  }

  /** The plain check accepts exactly the values all of whose paths are within the limit and end in sound values. */
  lemma {:induction false} PlainPaths(g: Graph, v: Value, depth: nat)
    ensures Plain(g, v, depth) <==> PathsSound(g, v, depth)
    decreases MAX_JSON_DEPTH + 1 - depth
  {
    if Plain(g, v, depth) {
      forall path | Follow(g, v, path).Some?
        ensures depth + |path| <= MAX_JSON_DEPTH && Sound(g, Follow(g, v, path).value)
      {
        PlainPath(g, v, depth, path);
      }
    }
    if PathsSound(g, v, depth) {
      assert Follow(g, v, []).Some?;
      forall i | 0 <= i < |ChildrenOf(g, v)| ensures Plain(g, ChildrenOf(g, v)[i], depth + 1) {
        PathsBelow(g, v, depth, i);
        PlainPaths(g, ChildrenOf(g, v)[i], depth + 1);
      }
    }
  }

  lemma PathsBelow(g: Graph, v: Value, depth: nat, i: nat)
    requires PathsSound(g, v, depth) && i < |ChildrenOf(g, v)|
    ensures PathsSound(g, ChildrenOf(g, v)[i], depth + 1)
  {
    var child := ChildrenOf(g, v)[i];
    forall rest | Follow(g, child, rest).Some?
      ensures depth + 1 + |rest| <= MAX_JSON_DEPTH && Sound(g, Follow(g, child, rest).value)
    {
      assert ([i] + rest)[1..] == rest && ([i] + rest)[0] == i;
      assert Follow(g, v, [i] + rest) == Follow(g, child, rest);
    }
  }

  lemma {:induction false} PlainPath(g: Graph, v: Value, depth: nat, path: seq<nat>)
    requires Plain(g, v, depth) && Follow(g, v, path).Some?
    ensures depth + |path| <= MAX_JSON_DEPTH && Plain(g, Follow(g, v, path).value, depth + |path|)
    decreases |path|
  {
    if path != [] {
      PlainPath(g, ChildrenOf(g, v)[path[0]], depth + 1, path[1..]);
    }
  }

  lemma {:induction false} FollowAppend(g: Graph, v: Value, path: seq<nat>, more: seq<nat>)
    requires Follow(g, v, path).Some?
    ensures Follow(g, v, path + more) == Follow(g, Follow(g, v, path).value, more)
    decreases |path|
  {
    if path == [] {
      assert path + more == more;
    } else {
      FollowAppend(g, ChildrenOf(g, v)[path[0]], path[1..], more);
      assert (path + more)[1..] == path[1..] + more;
    }
  }

  ghost predicate Below(g: Graph, above: Value, below: Value) {
    exists path :: path != [] && Follow(g, above, path) == Some(below)
  }

  /** A value below itself is too deep at any depth. */
  lemma {:induction false} CyclicNotPlain(g: Graph, v: Value, depth: nat)
    requires Below(g, v, v)
    ensures !Plain(g, v, depth)
    decreases MAX_JSON_DEPTH + 1 - depth
  {
    if Plain(g, v, depth) {
      var path :| path != [] && Follow(g, v, path) == Some(v);
      PlainPath(g, v, depth, path);
      CyclicNotPlain(g, v, depth + |path|);
    }
  }

  /** The check accepts no cycle anywhere below a value. */
  lemma PlainAcyclic(g: Graph, v: Value, depth: nat, path: seq<nat>)
    requires Plain(g, v, depth) && Follow(g, v, path).Some?
    ensures !Below(g, Follow(g, v, path).value, Follow(g, v, path).value)
  {
    PlainPath(g, v, depth, path);
    if Below(g, Follow(g, v, path).value, Follow(g, v, path).value) {
      CyclicNotPlain(g, Follow(g, v, path).value, depth + |path|);
    }
  }

  lemma {:induction false} PlainShallower(g: Graph, v: Value, depth: nat, deeper: nat)
    requires Plain(g, v, deeper) && depth <= deeper
    ensures Plain(g, v, depth)
    decreases MAX_JSON_DEPTH + 1 - deeper
  {
    forall i | 0 <= i < |ChildrenOf(g, v)| ensures Plain(g, ChildrenOf(g, v)[i], depth + 1) {
      PlainShallower(g, ChildrenOf(g, v)[i], depth + 1, deeper + 1);
    }
  }

  lemma BelowChild(g: Graph, above: Value, v: Value, i: nat)
    requires i < |ChildrenOf(g, v)| && (above == v || Below(g, above, v))
    ensures Below(g, above, ChildrenOf(g, v)[i])
  {
    var child := ChildrenOf(g, v)[i];
    assert [i][1..] == [];
    assert Follow(g, child, []) == Some(child);
    assert Follow(g, v, [i]) == Some(child);
    if above != v {
      var path :| path != [] && Follow(g, above, path) == Some(v);
      FollowAppend(g, above, path, [i]);
      assert path + [i] != [];
    }
  }
}

/** The check a message goes through, with one budget and one cache for all the JSON it carries (protocol.ts). */
module JsonValidations {
  import opened JsonGraphs

  class JsonValidation {
    const g: Graph
    var remaining: int
    var ancestors: set<ObjectId>
    var validatedDepths: map<ObjectId, nat>

    /** An object is remembered at a depth at which the plain check accepts it. */
    ghost predicate Valid()
      reads this
    {
      forall id :: id in validatedDepths ==> Plain(g, Object(id), validatedDepths[id])
    }

    constructor (g: Graph)
      ensures Valid() && this.g == g && remaining == MAX_JSON_VISITS && ancestors == {}
    {
      this.g, remaining, ancestors, validatedDepths := g, MAX_JSON_VISITS, {}, map[];
    }

    method Step() returns (ok: bool)
      modifies this`remaining
      ensures ok == (old(remaining) > 0) && remaining == old(remaining) - 1
    {
      ok := remaining > 0;
      remaining := remaining - 1;
    }

    /** What the check accepts, the plain check accepts; and while the budget lasts it refuses nothing else. */
    method Visit(value: Value, depth: nat) returns (valid: bool)
      requires Valid() && forall id :: id in ancestors ==> Below(g, Object(id), value)
      modifies this
      ensures Valid() && ancestors == old(ancestors) && remaining < old(remaining)
      ensures valid ==> Plain(g, value, depth)
      ensures remaining >= 0 ==> (valid <==> Plain(g, value, depth))
      decreases MAX_JSON_DEPTH + 1 - depth, 1
    {
      var ok := Step();
      if !ok || depth > MAX_JSON_DEPTH {
        return false;
      }
      match value
      case Null | Boolean | Text => return true;
      case Number(finite) => return finite;
      case Other => return false;
      case Object(id) =>
        if id in ancestors {
          CyclicNotPlain(g, value, depth);
          return false;
        }
        if id in validatedDepths && validatedDepths[id] >= depth {
          PlainShallower(g, value, depth, validatedDepths[id]);
          return true;
        }
        ancestors := ancestors + {id};
        if id !in g || g[id].Exotic? {
          valid := false;
        } else {
          valid := VisitChildren(id, depth);
        }
        ancestors := ancestors - {id};
        if valid {
          validatedDepths := validatedDepths[id := depth];
        }
    }

    /** An array must be dense and of bounded length. Either way the check stops at the first value it refuses. */
    method VisitChildren(id: ObjectId, depth: nat) returns (valid: bool)
      requires Valid() && id in g && !g[id].Exotic? && depth <= MAX_JSON_DEPTH
      requires forall above :: above in ancestors ==> above == id || Below(g, Object(above), Object(id))
      modifies this
      ensures Valid() && ancestors == old(ancestors) && remaining <= old(remaining)
      ensures valid ==> Plain(g, Object(id), depth)
      ensures remaining >= 0 ==> (valid <==> Plain(g, Object(id), depth))
      decreases MAX_JSON_DEPTH + 1 - depth, 0
    {
      var value, node := Object(id), g[id];
      var size := if node.Array? then |node.items| else |node.values|;
      if node.Array? && size > MAX_ARRAY_ITEMS {
        return false;
      }
      for i := 0 to size
        invariant Valid() && ancestors == old(ancestors) && remaining <= old(remaining)
        invariant forall j :: 0 <= j < i ==> Plain(g, ChildrenOf(g, value)[j], depth + 1)
      {
        if node.Array? && node.items[i].None? {
          assert !Plain(g, ChildrenOf(g, value)[i], depth + 1);
          return false;
        }
        var item := if node.Array? then node.items[i].value else node.values[i];
        assert item == ChildrenOf(g, value)[i];
        forall above | above in ancestors ensures Below(g, Object(above), item) {
          BelowChild(g, Object(above), value, i);
        }
        valid := Visit(item, depth + 1);
        if !valid {
          return false;
        }
      }
      return true;
    }
  }

  /** Whether a statement's parameters are dense, bounded, and each accepted by the plain check. */
  predicate PlainValues(g: Graph, items: seq<Option<Value>>) {
    && |items| <= MAX_ARRAY_ITEMS
    && forall i :: 0 <= i < |items| ==> items[i].Some? && Plain(g, items[i].value, 0)
  }

  /** A statement's parameters: scalars are checked by themselves, and a container sends them all through the full
      check, from the first. Both give the plain check's verdict, while the full check's budget lasts. */
  method IsJsonValues(g: Graph, items: seq<Option<Value>>) returns (valid: bool, ghost exhausted: bool)
    ensures valid ==> PlainValues(g, items)
    ensures !exhausted ==> (valid <==> PlainValues(g, items))
    ensures exhausted ==>
              exists i :: 0 <= i < |items| && items[i].Some? && (items[i].value.Object? || items[i].value.Other?)
  {
    exhausted := false;
    if |items| > MAX_ARRAY_ITEMS {
      return false, exhausted;
    }
    for index := 0 to |items|
      invariant !exhausted && forall i :: 0 <= i < index ==> items[i].Some? && Plain(g, items[i].value, 0)
    {
      if items[index].None? {
        return false, exhausted;
      }
      match items[index].value
      case Number(finite) =>
        if !finite {
          return false, exhausted;
        }
      case Null | Boolean | Text =>
      case _ =>
        valid, exhausted := AreJson(g, items);
        return;
    }
    return true, exhausted;
  }

  /** The full check of every item, with a budget of its own. */
  method AreJson(g: Graph, items: seq<Option<Value>>) returns (valid: bool, ghost exhausted: bool)
    ensures valid ==> PlainValues(g, items)
    ensures !exhausted ==> (valid <==> PlainValues(g, items))
  {
    exhausted := false;
    if |items| > MAX_ARRAY_ITEMS {
      return false, exhausted;
    }
    var validation := new JsonValidation(g);
    for index := 0 to |items|
      invariant validation.Valid() && validation.g == g && validation.ancestors == {}
      invariant forall i :: 0 <= i < index ==> items[i].Some? && Plain(g, items[i].value, 0)
    {
      if items[index].None? {
        return false, exhausted;
      }
      valid := validation.Visit(items[index].value, 0);
      if !valid {
        exhausted := validation.remaining < 0;
        return false, exhausted;
      }
    }
    return true, exhausted;
  }
}
