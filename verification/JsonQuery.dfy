/** Evaluating a path on a decoded document, level by level. */
module JsonQuery {
  import opened JsonPath

  datatype Entry = Entry(key: string, value: Json)

  /** A decoded document. A scalar is known by the text it is shown as; the
      entries of an object stand in the order in which their keys are visited. */
  datatype Json = Null | Scalar(text: string) | Arr(items: seq<Json>) | Obj(entries: seq<Entry>)

  datatype Outcome = Values(values: seq<string>) | InvalidPath | ObjectResult

  // ----- one level -------------------------------------------------------

  function Lookup(entries: seq<Entry>, key: string): seq<Json> {
    if entries == [] then []
    else if entries[0].key == key then [entries[0].value]
    else Lookup(entries[1..], key)
  }

  /** Whether a segment can be applied to a node; null lets every segment pass. */
  predicate Fits(node: Json, seg: Segment) {
    match node
    case Null => true
    case Scalar(_) => false
    case Arr(_) => !seg.Field?
    case Obj(_) => seg.Field?
  }

  function Children(node: Json, seg: Segment): seq<Json> {
    match node
    case Null => []
    case Scalar(_) => []
    case Arr(items) =>
      (match seg
       case Field(_) => []
       case Index(i) => if i < |items| then [items[i]] else []
       case Wildcard => items)
    case Obj(entries) => if seg.Field? then Lookup(entries, seg.name) else []
  }

  predicate AllFit(nodes: seq<Json>, seg: Segment) {
    forall k :: 0 <= k < |nodes| ==> Fits(nodes[k], seg)
  }

  function Level(nodes: seq<Json>, seg: Segment): seq<Json> {
    if nodes == [] then [] else Children(nodes[0], seg) + Level(nodes[1..], seg)
  }

  lemma {:induction false} LevelConcat(a: seq<Json>, b: seq<Json>, seg: Segment)
    ensures Level(a + b, seg) == Level(a, seg) + Level(b, seg)
  {
    if a == [] {
      assert a + b == b;
    } else {
      assert (a + b)[1..] == a[1..] + b;
      LevelConcat(a[1..], b, seg);
    }
  }

  lemma LevelSnoc(nodes: seq<Json>, node: Json, seg: Segment)
    ensures Level(nodes + [node], seg) == Level(nodes, seg) + Children(node, seg)
  {
    LevelConcat(nodes, [node], seg);
    assert Level([node], seg) == Children(node, seg);
  }

  /** The nodes a path leads to, every misfit counting as a dead end. */
  function NodesAt(nodes: seq<Json>, segs: seq<Segment>): seq<Json>
    decreases segs
  {
    if segs == [] then nodes else NodesAt(Level(nodes, segs[0]), segs[1..])
  }

  /** No segment meets a node it cannot be applied to. */
  predicate LevelsFit(nodes: seq<Json>, segs: seq<Segment>)
    decreases segs
  {
    segs == [] || (AllFit(nodes, segs[0]) && LevelsFit(Level(nodes, segs[0]), segs[1..]))
  }

  // ----- the terminal level ----------------------------------------------

  predicate Flat(node: Json) {
    match node
    case Obj(_) => false
    case Arr(items) => AllFlat(items)
    case _ => true
  }

  predicate AllFlat(nodes: seq<Json>) {
    nodes == [] || (Flat(nodes[0]) && AllFlat(nodes[1..]))
  }

  /** The scalars of nested arrays from left to right. */
  function Scalars(node: Json): seq<string> {
    match node
    case Scalar(text) => [text]
    case Arr(items) => AllScalars(items)
    case _ => []
  }

  function AllScalars(nodes: seq<Json>): seq<string> {
    if nodes == [] then [] else Scalars(nodes[0]) + AllScalars(nodes[1..])
  }

  lemma {:induction false} FlatteningSnoc(nodes: seq<Json>, node: Json)
    ensures AllScalars(nodes + [node]) == AllScalars(nodes) + Scalars(node)
    ensures AllFlat(nodes + [node]) == (AllFlat(nodes) && Flat(node))
  {
    if nodes == [] {
      assert nodes + [node] == [node];
      assert Scalars(node) + [] == Scalars(node);
    } else {
      assert (nodes + [node])[1..] == nodes[1..] + [node];
      FlatteningSnoc(nodes[1..], node);
    }
  }

  lemma {:induction false} FlatPrefix(nodes: seq<Json>, i: nat)
    requires i <= |nodes| && AllFlat(nodes)
    ensures AllFlat(nodes[..i])
  {
    if i > 0 {
      FlatPrefix(nodes[1..], i - 1);
      assert nodes[..i][1..] == nodes[1..][..i - 1];
    }
  }

  function Query(doc: Json, path: string): Outcome {
    var parsed := Parse(path);
    if parsed.Err? then InvalidPath else Resolve(doc, parsed.value)
  }

  function Resolve(doc: Json, segs: seq<Segment>): Outcome {
    if !LevelsFit([doc], segs) then InvalidPath
    else
      var ends := NodesAt([doc], segs);
      if AllFlat(ends) then Values(AllScalars(ends)) else ObjectResult
  }

  // ----- Extract as the program runs it ----------------------------------

  /** One pass over the nodes of a level. */
  method NextLevel(nodes: seq<Json>, seg: Segment) returns (next: seq<Json>, ok: bool)
    ensures ok <==> AllFit(nodes, seg)
    ensures ok ==> next == Level(nodes, seg)
  {
    next := [];
    for k := 0 to |nodes|
      invariant AllFit(nodes[..k], seg)
      invariant next == Level(nodes[..k], seg)
    {
      assert nodes[..k + 1] == nodes[..k] + [nodes[k]];
      LevelSnoc(nodes[..k], nodes[k], seg);
      if !Fits(nodes[k], seg) {
        return [], false;
      }
      next := next + Children(nodes[k], seg);
    }
    assert nodes[..|nodes|] == nodes;
    return next, true;
  }

  method AppendScalarValues(values: seq<string>, node: Json) returns (r: seq<string>, ok: bool)
    ensures ok <==> Flat(node)
    ensures ok ==> r == values + Scalars(node)
    decreases node, 1
  {
    match node {
      case Null => return values, true;
      case Obj(_) => return values, false;
      case Scalar(text) => return values + [text], true;
      case Arr(items) => r, ok := AppendAll(values, items);
    }
  }

  method AppendAll(values: seq<string>, nodes: seq<Json>) returns (r: seq<string>, ok: bool)
    ensures ok <==> AllFlat(nodes)
    ensures ok ==> r == values + AllScalars(nodes)
    decreases nodes, 0
  {
    r, ok := values, true;
    for k := 0 to |nodes|
      invariant AllFlat(nodes[..k])
      invariant r == values + AllScalars(nodes[..k])
    {
      assert nodes[..k + 1] == nodes[..k] + [nodes[k]];
      FlatteningSnoc(nodes[..k], nodes[k]);
      r, ok := AppendScalarValues(r, nodes[k]);
      if !ok {
        if AllFlat(nodes) {
          FlatPrefix(nodes, k + 1);
        }
        return r, false;
      }
    }
    assert nodes[..|nodes|] == nodes;
    return r, true;
  }

  method Extract(doc: Json, path: string) returns (r: Outcome)
    ensures r == Query(doc, path)
  {
    var parsed := ParsePath(path);
    if parsed.Err? {
      return InvalidPath;
    }
    var segs := parsed.value;
    var nodes := [doc];
    assert segs[0..] == segs;
    for k := 0 to |segs|
      invariant LevelsFit([doc], segs) == LevelsFit(nodes, segs[k..])
      invariant NodesAt([doc], segs) == NodesAt(nodes, segs[k..])
    {
      assert segs[k..][0] == segs[k] && segs[k..][1..] == segs[k + 1..];
      var ok;
      nodes, ok := NextLevel(nodes, segs[k]);
      if !ok {
        return InvalidPath;
      }
    }
    var values, ok := AppendAll([], nodes);
    assert [] + AllScalars(nodes) == AllScalars(nodes);
    return if ok then Values(values) else ObjectResult;
  }
}
