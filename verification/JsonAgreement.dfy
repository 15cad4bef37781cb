/** The index agrees with the query: feeding a discovered path back to the
    evaluator gives the values the index counted. */
module JsonAgreement {
  import opened Collections
  import opened JsonPath
  import opened JsonQuery
  import opened JsonIndex
  import opened JsonTraces

  // ----- plain segments are written as they are rendered -----------------------

  /** The walk writes fields and wildcards, never an index. */
  predicate Walked(segs: seq<Segment>) {
    Plain(segs) && NoIndex(segs)
  }

  lemma {:induction false} RenderTailSnoc(segs: seq<Segment>, seg: Segment)
    ensures RenderTail(segs + [seg]) == RenderTail(segs) + RenderSelector(seg)
  {
    if segs == [] {
      assert segs + [seg] == [seg];
    } else {
      assert (segs + [seg])[1..] == segs[1..] + [seg];
      RenderTailSnoc(segs[1..], seg);
    }
  }

  lemma RenderSnoc(segs: seq<Segment>, seg: Segment)
    requires segs != []
    ensures Render(segs + [seg]) == Render(segs) + RenderSelector(seg)
  {
    var longer := segs + [seg];
    assert longer[0] == segs[0] && longer[1..] == segs[1..] + [seg];
    if segs[0].Field? {
      RenderTailSnoc(segs[1..], seg);
      Regroup(segs[0].name, RenderTail(segs[1..]), RenderSelector(seg));
    } else {
      RenderTailSnoc(segs, seg);
    }
  }

  lemma RenderArray(segs: seq<Segment>)
    ensures Render(segs + [Wildcard]) == Render(segs) + "[]"
  {
    if segs == [] {
      RenderTailSnoc(segs, Wildcard);
    } else {
      RenderSnoc(segs, Wildcard);
    }
  }

  lemma RenderChild(segs: seq<Segment>, key: string)
    requires Plain(segs)
    ensures Render(segs + [Field(key)]) == ChildPath(Render(segs), key)
  {
    if segs == [] {
      assert segs + [Field(key)] == [Field(key)];
      assert RenderTail([Field(key)][1..]) == "";
    } else {
      RenderHasText(segs);
      RenderSnoc(segs, Field(key));
    }
  }

  lemma {:induction false} WrittenIsRendered(segs: seq<Segment>)
    requires Walked(segs)
    ensures Written(segs) == Render(segs)
  {
    if segs != [] {
      var front, last := segs[..|segs| - 1], segs[|segs| - 1];
      assert segs == front + [last];
      WrittenIsRendered(front);
      WrittenSnoc(front, last);
      if last.Field? {
        RenderChild(front, last.name);
      } else {
        RenderArray(front);
      }
    }
  }

  // ----- paths that are reached through plain keys only --------------------------

  /** No leaf is entered under this path through a key that is not plain. */
  predicate PlainlyReached(doc: Json, path: string) {
    forall tr :: tr in Traces(doc, []) && Written(tr.at) == path ==> Plain(tr.at)
  }

  /** Which holds of every path if all keys are plain. */
  lemma PlainKeysReachPlainly(doc: Json, path: string)
    requires PlainKeys(doc)
    ensures PlainlyReached(doc, path)
  {
    TracesGoOn(doc, [], true);
    forall tr | tr in Traces(doc, [])
      ensures Plain(tr.at)
    {
      assert GoesOn(tr, [], true);
      assert tr.at[0..] == tr.at;
    }
  }

  /** The texts entered under a path are those along its segments, if only plain keys lead there. */
  lemma {:induction false} TextsAreAlong(traces: seq<Trace>, segs: seq<Segment>)
    requires Walked(segs) && segs != []
    requires forall tr :: tr in traces ==> NoIndex(tr.at)
    requires forall tr :: tr in traces && Written(tr.at) == Render(segs) ==> Plain(tr.at)
    ensures Texts(Shown(traces), Render(segs)) == TextsAlong(traces, segs)
  {
    if traces != [] {
      var tr := traces[0];
      assert tr in traces && forall x :: x in traces[1..] ==> x in traces;
      TextsAreAlong(traces[1..], segs);
      var first := if Written(tr.at) == "" then [] else [Leaf(Written(tr.at), tr.text)];
      TextsConcat(first, Shown(traces[1..]), Render(segs));
      SameTrace(tr, segs);
      assert Texts(first, Render(segs)) == if tr.at == segs then [tr.text] else [] by {
        assert first != [] ==> first[1..] == [];
      }
    }
  }

  lemma SameTrace(tr: Trace, segs: seq<Segment>)
    requires Walked(segs) && segs != [] && NoIndex(tr.at)
    requires Written(tr.at) == Render(segs) ==> Plain(tr.at)
    ensures Written(tr.at) == Render(segs) <==> tr.at == segs
    ensures Render(segs) != ""
  {
    WrittenIsRendered(segs);
    RenderHasText(segs);
    if Written(tr.at) == Render(segs) {
      WrittenIsRendered(tr.at);
      RenderInjective(tr.at, segs);
    }
  }

  lemma TracesHaveNoIndex(doc: Json)
    ensures forall tr :: tr in Traces(doc, []) ==> NoIndex(tr.at)
  {
    TracesGoOn(doc, [], false);
    forall tr | tr in Traces(doc, [])
      ensures NoIndex(tr.at)
    {
      assert GoesOn(tr, [], false);
      assert tr.at[0..] == tr.at;
    }
  }

  /** The texts entered under a rendered path are the scalars it leads to. */
  lemma TextsEnd(doc: Json, segs: seq<Segment>)
    requires Keyed(doc) && Walked(segs) && segs != [] && PlainlyReached(doc, Render(segs))
    ensures Texts(Leaves(doc, ""), Render(segs)) == EndsAt([doc], segs)
  {
    LeavesAreShown(doc, []);
    TracesHaveNoIndex(doc);
    TextsAreAlong(Traces(doc, []), segs);
    TracesEnd(doc, [], segs);
    assert [] + segs == segs;
  }

  lemma {:induction false} TextsHaveTrace(traces: seq<Trace>, path: string)
    requires Texts(Shown(traces), path) != []
    ensures exists tr :: tr in traces && Written(tr.at) == path && path != ""
  {
    var tr := traces[0];
    assert tr in traces && forall x :: x in traces[1..] ==> x in traces;
    var first := if Written(tr.at) == "" then [] else [Leaf(Written(tr.at), tr.text)];
    TextsConcat(first, Shown(traces[1..]), path);
    if Texts(first, path) == [] {
      TextsHaveTrace(traces[1..], path);
    }
  }

  /** A path that is discovered through plain keys parses, to fields and wildcards only, and its
      texts are the scalars that end there. */
  lemma DiscoveredPathParses(doc: Json, path: string)
    requires Keyed(doc) && PlainlyReached(doc, path) && Texts(Leaves(doc, ""), path) != []
    ensures Parse(path).Ok? && Walked(Parse(path).value)
    ensures Texts(Leaves(doc, ""), path) == EndsAt([doc], Parse(path).value)
  {
    LeavesAreShown(doc, []);
    TextsHaveTrace(Traces(doc, []), path);
    var tr :| tr in Traces(doc, []) && Written(tr.at) == path && path != "";
    TracesHaveNoIndex(doc);
    WrittenIsRendered(tr.at);
    RoundTrip(tr.at);
    TextsEnd(doc, tr.at);
  }

  // ----- when the evaluator returns exactly those scalars ----------------------

  /** A terminal node that adds nothing but its own text. */
  predicate Quiet(node: Json) {
    node.Null? || node.Scalar? || (Flat(node) && Scalars(node) == [])
  }

  predicate AllQuiet(nodes: seq<Json>) {
    forall k :: 0 <= k < |nodes| ==> Quiet(nodes[k])
  }

  lemma {:induction false} FlatteningCompares(nodes: seq<Json>)
    ensures |AllScalars(nodes)| >= |Own(nodes)|
    ensures AllQuiet(nodes) <==> AllFlat(nodes) && |AllScalars(nodes)| == |Own(nodes)|
    ensures AllQuiet(nodes) ==> AllScalars(nodes) == Own(nodes)
  {
    if nodes != [] {
      FlatteningCompares(nodes[1..]);
      assert AllQuiet(nodes) <==> Quiet(nodes[0]) && AllQuiet(nodes[1..]) by {
        assert nodes == [nodes[0]] + nodes[1..];
      }
    }
  }

  /** Index and query agree on a path discovered through plain keys exactly if every segment only meets nodes it
      can be applied to and each node at the end is a scalar, a null, or an array with no scalar and no object
      below it. */
  lemma IndexAgreesWithQuery(doc: Json, path: string)
    requires Keyed(doc) && PlainlyReached(doc, path) && Texts(Leaves(doc, ""), path) != []
    ensures Parse(path).Ok?
    ensures Query(doc, path) == Values(Texts(Leaves(doc, ""), path))
       <==> LevelsFit([doc], Parse(path).value) && AllQuiet(NodesAt([doc], Parse(path).value))
  {
    DiscoveredPathParses(doc, path);
    FlatteningCompares(NodesAt([doc], Parse(path).value));
  }

  // ----- documents of uniform shape ---------------------------------------------

  /** Null has no kind of its own. */
  predicate SameKind(a: Json, b: Json) {
    a.Null? || b.Null? || (a.Scalar? && b.Scalar?) || (a.Arr? && b.Arr?) || (a.Obj? && b.Obj?)
  }

  predicate OneKind(nodes: seq<Json>) {
    forall i, j :: 0 <= i < |nodes| && 0 <= j < |nodes| ==> SameKind(nodes[i], nodes[j])
  }

  /** All nodes that share a path share a kind. */
  ghost predicate Uniform(doc: Json) {
    forall segs :: Walked(segs) ==> OneKind(NodesAt([doc], segs))
  }

  lemma {:induction false} NodesAtSplit(nodes: seq<Json>, a: seq<Segment>, b: seq<Segment>)
    ensures NodesAt(nodes, a + b) == NodesAt(NodesAt(nodes, a), b)
    decreases a
  {
    if a == [] {
      assert a + b == b;
    } else {
      assert (a + b)[1..] == a[1..] + b;
      NodesAtSplit(Level(nodes, a[0]), a[1..], b);
    }
  }

  lemma NodesAtSnoc(nodes: seq<Json>, segs: seq<Segment>, seg: Segment)
    ensures NodesAt(nodes, segs + [seg]) == Level(NodesAt(nodes, segs), seg)
  {
    NodesAtSplit(nodes, segs, [seg]);
    assert [seg][1..] == [];
  }

  lemma {:induction false} LevelHasParent(nodes: seq<Json>, seg: Segment)
    requires Level(nodes, seg) != []
    ensures exists k :: 0 <= k < |nodes| && Children(nodes[k], seg) != []
  {
    if Children(nodes[0], seg) == [] {
      LevelHasParent(nodes[1..], seg);
      var k :| 0 <= k < |nodes[1..]| && Children(nodes[1..][k], seg) != [];
      assert nodes[1..][k] == nodes[k + 1];
    }
  }

  lemma OneKindFits(nodes: seq<Json>, seg: Segment)
    requires OneKind(nodes) && Level(nodes, seg) != []
    ensures AllFit(nodes, seg)
  {
    LevelHasParent(nodes, seg);
    var k :| 0 <= k < |nodes| && Children(nodes[k], seg) != [];
    forall i | 0 <= i < |nodes|
      ensures Fits(nodes[i], seg)
    {
      assert SameKind(nodes[i], nodes[k]);
    }
  }

  lemma {:induction false} NothingFollowsNothing(segs: seq<Segment>)
    ensures NodesAt([], segs) == []
  {
    if segs != [] {
      NothingFollowsNothing(segs[1..]);
    }
  }

  lemma {:induction false} UniformFits(doc: Json, done: seq<Segment>, segs: seq<Segment>)
    requires Uniform(doc) && Walked(done + segs) && NodesAt([doc], done + segs) != []
    ensures LevelsFit(NodesAt([doc], done), segs)
    decreases segs
  {
    if segs != [] {
      var nodes := NodesAt([doc], done);
      var further := done + [segs[0]];
      assert further + segs[1..] == done + segs;
      NodesAtSnoc([doc], done, segs[0]);
      assert Walked(done) by {
        assert forall k :: 0 <= k < |done| ==> done[k] == (done + segs)[k];
      }
      NodesAtSplit([doc], further, segs[1..]);
      if Level(nodes, segs[0]) == [] {
        NothingFollowsNothing(segs[1..]);
        assert false;
      }
      OneKindFits(nodes, segs[0]);
      UniformFits(doc, further, segs[1..]);
    }
  }

  lemma {:induction false} OwnNeedsScalar(nodes: seq<Json>)
    requires Own(nodes) != []
    ensures exists k :: 0 <= k < |nodes| && nodes[k].Scalar?
  {
    if !nodes[0].Scalar? {
      OwnNeedsScalar(nodes[1..]);
      var k :| 0 <= k < |nodes[1..]| && nodes[1..][k].Scalar?;
      assert nodes[1..][k] == nodes[k + 1];
    }
  }

  lemma ScalarEndsAreQuiet(nodes: seq<Json>)
    requires OneKind(nodes) && Own(nodes) != []
    ensures AllQuiet(nodes)
  {
    OwnNeedsScalar(nodes);
    var k :| 0 <= k < |nodes| && nodes[k].Scalar?;
    forall i | 0 <= i < |nodes|
      ensures Quiet(nodes[i])
    {
      assert SameKind(nodes[i], nodes[k]);
    }
  }

  /** On a document of uniform shape every path discovered through plain keys returns exactly what was counted. */
  lemma UniformDocsAgree(doc: Json, path: string)
    requires Keyed(doc) && PlainlyReached(doc, path) && Uniform(doc) && Texts(Leaves(doc, ""), path) != []
    ensures Query(doc, path) == Values(Texts(Leaves(doc, ""), path))
  {
    DiscoveredPathParses(doc, path);
    var segs := Parse(path).value;
    assert [] + segs == segs;
    UniformFits(doc, [], segs);
    ScalarEndsAreQuiet(NodesAt([doc], segs));
    IndexAgreesWithQuery(doc, path);
  }

  /** What the picker shows about a path is what the query returns for it. */
  lemma PickerMatchesQuery(doc: Json, found: seq<Candidate>, c: Candidate)
    requires Keyed(doc) && PlainKeys(doc) && Uniform(doc) && Discovery(found, doc) && c in found
    ensures Query(doc, c.path).Values?
    ensures c.count == |Query(doc, c.path).values|
    ensures c.samples == FirstThree(Distinct(Query(doc, c.path).values))
  {
    assert Lists(found, c.path);
    PlainKeysReachPlainly(doc, c.path);
    UniformDocsAgree(doc, c.path);
  }

  // ----- why the conditions are needed --------------------------------------------

  lemma TwoSegments(name: string, seg: Segment, path: string)
    requires PlainName(name) && PlainSegment(seg) && path == name + RenderSelector(seg)
    ensures Parse(path) == Ok([Field(name), seg]) && Render([Field(name), seg]) == path
  {
    var segs := [Field(name), seg];
    assert [seg][1..] == [];
    assert RenderTail([seg]) == RenderSelector(seg) + "" == RenderSelector(seg);
    assert segs[1..] == [seg];
    assert Render(segs) == name + RenderSelector(seg);
    RoundTrip(segs);
  }

  lemma LookupOnly(key: string, value: Json, name: string)
    ensures Level([Obj([Entry(key, value)])], Field(name)) == if key == name then [value] else []
  {
    var entries := [Entry(key, value)];
    assert entries[1..] == [];
    assert Lookup(entries, name) == if key == name then [value] else [];
  }

  /** A scalar and, beside it, an array with another one. */
  function MixedItems(): seq<Json> {
    [Scalar("1"), Arr([Scalar("2")])]
  }

  lemma MixedItemsFacts()
    ensures PlainItems(MixedItems()) && KeyedItems(MixedItems())
    ensures Own(MixedItems()) == ["1"]
    ensures AllFlat(MixedItems()) && AllScalars(MixedItems()) == ["1", "2"]
  {
    var inner := [Scalar("2")];
    assert inner[1..] == [];
    assert PlainItems(inner) && KeyedItems(inner) && AllFlat(inner) && AllScalars(inner) == ["2"];
    var tail := [Arr(inner)];
    assert tail[1..] == [];
    assert Own(tail) == [] + Own([]);
    assert AllScalars(tail) == Scalars(tail[0]) + AllScalars([]);
    assert PlainItems(tail) && KeyedItems(tail) && AllFlat(tail) && AllScalars(tail) == ["2"] && Own(tail) == [];
    assert MixedItems()[1..] == tail;
  }

  function MixedDoc(): Json {
    Obj([Entry("a", Arr(MixedItems()))])
  }

  lemma MixedDocFacts(segs: seq<Segment>)
    requires segs == [Field("a"), Wildcard]
    ensures Keyed(MixedDoc()) && PlainKeys(MixedDoc())
    ensures LevelsFit([MixedDoc()], segs) && NodesAt([MixedDoc()], segs) == MixedItems()
  {
    MixedItemsFacts();
    var node := Arr(MixedItems());
    var entries := [Entry("a", node)];
    assert entries[1..] == [];
    assert PlainKeys(node) && Keyed(node);
    assert PlainEntries(entries) && KeyedEntries(entries);
    LookupOnly("a", node, "a");
    assert Level([node], Wildcard) == MixedItems();
    assert segs[1..] == [Wildcard] && segs[1..][1..] == [];
    assert LevelsFit([node], segs[1..]) && NodesAt([node], segs[1..]) == MixedItems();
  }

  /** An array beside a scalar is flattened by the query and indexed apart by the walk. */
  lemma MixedKindsDisagree()
    ensures Keyed(MixedDoc()) && PlainKeys(MixedDoc())
    ensures Texts(Leaves(MixedDoc(), ""), "a[]") == ["1"]
    ensures Query(MixedDoc(), "a[]") == Values(["1", "2"])
  {
    var segs := [Field("a"), Wildcard];
    TwoSegments("a", Wildcard, "a[]");
    MixedDocFacts(segs);
    MixedItemsFacts();
    MixedResolves(segs);
    PlainKeysReachPlainly(MixedDoc(), "a[]");
    TextsEnd(MixedDoc(), segs);
  }

  lemma MixedResolves(segs: seq<Segment>)
    requires segs == [Field("a"), Wildcard]
    ensures Resolve(MixedDoc(), segs) == Values(["1", "2"])
  {
    MixedItemsFacts();
    MixedDocFacts(segs);
  }

  function DottedDoc(): Json {
    Obj([Entry("a.b", Scalar("1"))])
  }

  /** A dot inside a key is read back as two fields. */
  lemma DottedKeyDisagrees()
    ensures Uniform(DottedDoc())
    ensures Texts(Leaves(DottedDoc(), ""), "a.b") == ["1"]
    ensures Query(DottedDoc(), "a.b") == Values([])
  {
    SingleFieldIsUniform(DottedDoc(), "a.b", "1");
    DottedLeaves();
    TwoSegments("a", Field("b"), "a.b");
    DottedResolves([Field("a"), Field("b")]);
  }

  lemma DottedResolves(segs: seq<Segment>)
    requires segs == [Field("a"), Field("b")]
    ensures Resolve(DottedDoc(), segs) == Values([])
  {
    LookupOnly("a.b", Scalar("1"), "a");
    DeadEnd(DottedDoc(), segs);
  }

  lemma DeadEnd(doc: Json, segs: seq<Segment>)
    requires |segs| == 2 && AllFit([doc], segs[0]) && Level([doc], segs[0]) == []
    ensures Resolve(doc, segs) == Values([])
  {
    NothingFollowsNothing(segs[1..]);
    assert segs[1..][1..] == [];
    assert LevelsFit([], segs[1..]);
  }

  lemma DottedLeaves()
    ensures Texts(Leaves(Obj([Entry("a.b", Scalar("1"))]), ""), "a.b") == ["1"]
  {
    var entries := [Entry("a.b", Scalar("1"))];
    assert entries[1..] == [];
    assert EntryLeaves(entries, "") == [Leaf("a.b", "1")];
    assert [Leaf("a.b", "1")][1..] == [];
  }

  lemma SingleField(doc: Json, key: string, value: Json, seg: Segment)
    requires doc == Obj([Entry(key, value)])
    ensures Level([doc], seg) == if seg == Field(key) then [value] else []
  {
    if seg.Field? {
      LookupOnly(key, value, seg.name);
    } else {
      assert Level([doc], seg) == Children(doc, seg);
    }
  }

  lemma SingleFieldIsUniform(doc: Json, key: string, text: string)
    requires doc == Obj([Entry(key, Scalar(text))])
    ensures Uniform(doc)
  {
    forall at | Walked(at)
      ensures OneKind(NodesAt([doc], at))
    {
      if at != [] {
        SingleField(doc, key, Scalar(text), at[0]);
        NothingFollowsNothing(at[1..]);
        if |at| > 1 {
          assert Level([Scalar(text)], at[1]) == [];
          NothingFollowsNothing(at[1..][1..]);
        }
      }
    }
  }
}
