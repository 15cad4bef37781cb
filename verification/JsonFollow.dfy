/** The query as a walk from node to node: what a path returns, segment by segment, without levels. */
module JsonFollow {
  import opened Text
  import Collections
  import opened JsonPath
  import opened JsonQuery

  // ----- following one path at a time ---------------------------------------

  /** The values of both, unless one of them is an error; an invalid path outweighs an object. */
  function Join(a: Outcome, b: Outcome): Outcome {
    if a.InvalidPath? || b.InvalidPath? then InvalidPath
    else if a.ObjectResult? || b.ObjectResult? then ObjectResult
    else Values(a.values + b.values)
  }

  /** A field leads to the entry of that name, an index to the item at that place, a wildcard to all items;
      null and whatever is missing lead nowhere, and every other combination is an error. */
  function Follow(node: Json, segs: seq<Segment>): Outcome
    decreases |segs|, 0
  {
    if segs == [] then if Flat(node) then Values(Scalars(node)) else ObjectResult
    else
      var rest := segs[1..];
      match (node, segs[0])
      case (Null, _) => Values([])
      case (Arr(items), Index(i)) => if i < |items| then Follow(items[i], rest) else Values([])
      case (Arr(items), Wildcard) => FollowAll(items, rest)
      case (Obj(entries), Field(name)) => FollowAll(Lookup(entries, name), rest)
      case _ => InvalidPath
  }

  function FollowAll(nodes: seq<Json>, segs: seq<Segment>): Outcome
    decreases |segs|, |nodes| + 1
  {
    if nodes == [] then Values([]) else Join(Follow(nodes[0], segs), FollowAll(nodes[1..], segs))
  }

  lemma JoinUnit(a: Outcome)
    ensures Join(a, Values([])) == a == Join(Values([]), a)
  {
    if a.Values? {
      assert a.values + [] == a.values == [] + a.values;
    }
  }

  lemma JoinAssociates(a: Outcome, b: Outcome, c: Outcome)
    ensures Join(Join(a, b), c) == Join(a, Join(b, c))
  {
    if a.Values? && b.Values? && c.Values? {
      assert (a.values + b.values) + c.values == a.values + (b.values + c.values);
    }
  }

  lemma FollowOne(node: Json, segs: seq<Segment>)
    ensures FollowAll([node], segs) == Follow(node, segs)
  {
    JoinUnit(Follow(node, segs));
    assert [node][1..] == [];
  }

  lemma {:induction false} FollowConcat(a: seq<Json>, b: seq<Json>, segs: seq<Segment>)
    ensures FollowAll(a + b, segs) == Join(FollowAll(a, segs), FollowAll(b, segs))
    decreases a
  {
    if a == [] {
      assert a + b == b;
      JoinUnit(FollowAll(b, segs));
    } else {
      assert (a + b)[1..] == a[1..] + b;
      FollowConcat(a[1..], b, segs);
      JoinAssociates(Follow(a[0], segs), FollowAll(a[1..], segs), FollowAll(b, segs));
    }
  }

  // ----- level by level is the same --------------------------------------------

  lemma FollowChildren(node: Json, segs: seq<Segment>)
    requires segs != []
    ensures Follow(node, segs) ==
            if Fits(node, segs[0]) then FollowAll(Children(node, segs[0]), segs[1..]) else InvalidPath
  {
    if node.Arr? && segs[0].Index? && segs[0].i < |node.items| {
      FollowOne(node.items[segs[0].i], segs[1..]);
    }
  }

  lemma {:induction false} FollowLevel(nodes: seq<Json>, segs: seq<Segment>)
    requires segs != []
    ensures FollowAll(nodes, segs) ==
            if AllFit(nodes, segs[0]) then FollowAll(Level(nodes, segs[0]), segs[1..]) else InvalidPath
    decreases nodes
  {
    if nodes != [] {
      FollowChildren(nodes[0], segs);
      FollowLevel(nodes[1..], segs);
      FollowConcat(Children(nodes[0], segs[0]), Level(nodes[1..], segs[0]), segs[1..]);
      assert AllFit(nodes, segs[0]) <==> Fits(nodes[0], segs[0]) && AllFit(nodes[1..], segs[0]) by {
        assert nodes == [nodes[0]] + nodes[1..];
      }
    }
  }

  lemma {:induction false} FollowEnds(nodes: seq<Json>)
    ensures FollowAll(nodes, []) == if AllFlat(nodes) then Values(AllScalars(nodes)) else ObjectResult
  {
    if nodes != [] {
      FollowEnds(nodes[1..]);
    }
  }

  /** Following a path in two parts: the second from all nodes the first leads to. */
  lemma {:induction false} FollowThrough(nodes: seq<Json>, segs: seq<Segment>, more: seq<Segment>)
    ensures FollowAll(nodes, segs + more) ==
            if LevelsFit(nodes, segs) then FollowAll(NodesAt(nodes, segs), more) else InvalidPath
    decreases segs
  {
    if segs == [] {
      assert segs + more == more;
    } else {
      assert (segs + more)[0] == segs[0] && (segs + more)[1..] == segs[1..] + more;
      FollowLevel(nodes, segs + more);
      FollowThrough(Level(nodes, segs[0]), segs[1..], more);
    }
  }

  /** The level-by-level query returns what following the path from node to node does. */
  lemma QueryFollows(doc: Json, path: string)
    ensures Query(doc, path) == if Parse(path).Ok? then Follow(doc, Parse(path).value) else InvalidPath
  {
    if Parse(path).Ok? {
      var segs := Parse(path).value;
      assert segs + [] == segs;
      FollowThrough([doc], segs, []);
      FollowEnds(NodesAt([doc], segs));
      FollowOne(doc, segs);
    }
  }

  // ----- longer paths ---------------------------------------------------------

  lemma {:induction false} SpelledConcat(a: seq<Piece>, b: seq<Piece>)
    ensures SpelledTail(a + b) == SpelledTail(a) + SpelledTail(b)
  {
    if a == [] {
      assert a + b == b;
    } else {
      assert (a + b)[1..] == a[1..] + b;
      SpelledConcat(a[1..], b);
      FirstPiece(a);
      FirstPiece(a + b);
      Collections.Regroup(Spelled(a[0]), SpelledTail(a[1..]), SpelledTail(b));
    }
  }

  lemma PathConcat(a: seq<Piece>, b: seq<Piece>)
    requires a != []
    ensures SpelledPath(a + b) == SpelledPath(a) + SpelledTail(b)
  {
    if a[0].Name? {
      assert (a + b)[1..] == a[1..] + b;
      SpelledConcat(a[1..], b);
      Collections.Regroup(a[0].text, SpelledTail(a[1..]), SpelledTail(b));
    } else {
      SpelledConcat(a, b);
    }
  }

  /** The text of a path with further segments added to it. */
  function Extended(path: string, more: seq<Segment>): string {
    TrimSpace(path) + RenderTail(more)
  }

  lemma ExtendedIsTrimmed(path: string, more: seq<Segment>)
    requires TrimSpace(path) != "" && Plain(more)
    ensures TrimSpace(Extended(path, more)) == Extended(path, more)
  {
    TrimSpaceTrims(path);
    RenderTailNoSpaces(more);
    TrimSpaceFixes(Extended(path, more));
  }

  /** Adding the text of segments to an accepted path adds the segments. */
  lemma ExtendedParses(path: string, more: seq<Segment>)
    requires Parse(path).Ok? && Plain(more)
    ensures Parse(Extended(path, more)) == Ok(Parse(path).value + more)
  {
    var segs := Parse(path).value;
    ParsesExactly(path, segs);
    var pieces :| pieces != [] && AllProper(pieces) && TrimSpace(path) == SpelledPath(pieces) && AllRead(pieces, segs);
    PiecesRoundTrip(more);
    RenderIsSpelled(more);
    PathConcat(pieces, PiecesOf(more));
    ExtendedIsTrimmed(path, more);
    var all := pieces + PiecesOf(more);
    assert AllProper(all) && AllRead(all, segs + more);
    ParsesExactly(Extended(path, more), segs + more);
  }

  /** The path leads to this one node. */
  predicate LeadsTo(doc: Json, path: string, node: Json) {
    Parse(path).Ok? && LevelsFit([doc], Parse(path).value) && NodesAt([doc], Parse(path).value) == [node]
  }

  /** What follows a path that leads to one node is followed from that node. */
  lemma QueryContinues(doc: Json, path: string, node: Json, more: seq<Segment>)
    requires LeadsTo(doc, path, node) && Plain(more)
    ensures Query(doc, Extended(path, more)) == Follow(node, more)
  {
    var segs := Parse(path).value;
    ExtendedParses(path, more);
    QueryFollows(doc, Extended(path, more));
    FollowThrough([doc], segs, more);
    FollowOne(doc, segs + more);
    FollowOne(node, more);
  }

  // ----- indexes and wildcards ---------------------------------------------------

  /** An index leads on from the item at its place, and nowhere if there is none. */
  lemma IndexPicks(doc: Json, path: string, items: seq<Json>, i: nat, more: seq<Segment>)
    requires LeadsTo(doc, path, Arr(items)) && Plain(more) && i <= MAX_INT64
    ensures var r := Query(doc, Extended(path, [Index(i)] + more));
      && (i >= |items| ==> r == Values([]))
      && (i < |items| ==> r == Follow(items[i], more))
      && (i < |items| && more != [] ==> r == Query(items[i], Render(more)))
      && (i < |items| && more == [] && Flat(items[i]) ==> r == Values(Scalars(items[i])))
  {
    QueryContinues(doc, path, Arr(items), [Index(i)] + more);
    assert ([Index(i)] + more)[1..] == more;
    if more != [] && i < |items| {
      RoundTrip(more);
      QueryFollows(items[i], Render(more));
    }
  }

  /** The answers under the first n indexes, put together. */
  function Indexed(doc: Json, path: string, n: nat): Outcome {
    if n == 0 then Values([]) else Join(Indexed(doc, path, n - 1), Query(doc, Extended(path, [Index(n - 1)])))
  }

  lemma IndexedItem(doc: Json, path: string, items: seq<Json>, i: nat)
    requires LeadsTo(doc, path, Arr(items)) && i < |items| && i <= MAX_INT64
    ensures Query(doc, Extended(path, [Index(i)])) == Follow(items[i], [])
  {
    IndexPicks(doc, path, items, i, []);
    assert [Index(i)] + [] == [Index(i)];
  }

  lemma FollowSnoc(items: seq<Json>, n: nat)
    requires n < |items|
    ensures FollowAll(items[..n + 1], []) == Join(FollowAll(items[..n], []), Follow(items[n], []))
  {
    assert items[..n + 1] == items[..n] + [items[n]];
    FollowConcat(items[..n], [items[n]], []);
    FollowOne(items[n], []);
  }

  lemma {:induction false} IndexedFollows(doc: Json, path: string, items: seq<Json>, n: nat)
    requires LeadsTo(doc, path, Arr(items)) && n <= |items| && |items| <= MAX_INT64
    ensures Indexed(doc, path, n) == FollowAll(items[..n], [])
  {
    if n > 0 {
      IndexedFollows(doc, path, items, n - 1);
      IndexedItem(doc, path, items, n - 1);
      FollowSnoc(items, n - 1);
    }
  }

  /** A wildcard returns what all indexes return, in order. */
  lemma WildcardIsAllIndexes(doc: Json, path: string, items: seq<Json>)
    requires LeadsTo(doc, path, Arr(items)) && |items| <= MAX_INT64
    ensures Query(doc, Extended(path, [Wildcard])) == Indexed(doc, path, |items|)
    ensures AllFlat(items) ==> Query(doc, Extended(path, [Wildcard])) == Values(AllScalars(items))
  {
    QueryContinues(doc, path, Arr(items), [Wildcard]);
    assert [Wildcard][1..] == [];
    IndexedFollows(doc, path, items, |items|);
    assert items[..|items|] == items;
    FollowEnds(items);
  }

  // ----- ends --------------------------------------------------------------------------

  /** What a path returns depends on where it ends: a scalar's text, nothing for null, an error for an object, and for
      an array what the same path with a wildcard returns. */
  lemma EndTold(doc: Json, path: string, node: Json)
    requires LeadsTo(doc, path, node)
    ensures node.Scalar? ==> Query(doc, path) == Values([node.text])
    ensures node.Null? ==> Query(doc, path) == Values([])
    ensures node.Obj? ==> Query(doc, path) == ObjectResult
    ensures node.Arr? ==> Query(doc, path) == Query(doc, Extended(path, [Wildcard]))
  {
    FollowEnds([node]);
    FollowOne(node, []);
    if node.Arr? {
      QueryContinues(doc, path, node, [Wildcard]);
      assert [Wildcard][1..] == [];
      FollowEnds(node.items);
    }
  }
}
