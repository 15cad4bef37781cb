/** The walk of the index, leaf by leaf with the segments it went through, and where it meets the evaluator. */
module JsonTraces {
  import opened JsonPath
  import opened JsonQuery
  import opened JsonIndex

  // ----- documents ------------------------------------------------------------

  /** No object has a key twice. */
  predicate Keyed(node: Json)
    decreases node, 1
  {
    match node
    case Arr(items) => KeyedItems(items)
    case Obj(entries) => KeyedEntries(entries)
    case _ => true
  }

  predicate KeyedItems(items: seq<Json>)
    decreases items, 0
  {
    items == [] || (Keyed(items[0]) && KeyedItems(items[1..]))
  }

  predicate KeyedEntries(entries: seq<Entry>)
    decreases entries, 0
  {
    entries == [] || (
      && (forall e :: e in entries[1..] ==> e.key != entries[0].key)
      && Keyed(entries[0].value)
      && KeyedEntries(entries[1..]))
  }

  /** All keys can be written in a path. */
  predicate PlainKeys(node: Json)
    decreases node, 1
  {
    match node
    case Arr(items) => PlainItems(items)
    case Obj(entries) => PlainEntries(entries)
    case _ => true
  }

  predicate PlainItems(items: seq<Json>)
    decreases items, 0
  {
    items == [] || (PlainKeys(items[0]) && PlainItems(items[1..]))
  }

  predicate PlainEntries(entries: seq<Entry>)
    decreases entries, 0
  {
    entries == [] || (
      && PlainName(entries[0].key)
      && PlainKeys(entries[0].value)
      && PlainEntries(entries[1..]))
  }

  // ----- traces -----------------------------------------------------------------

  /** A scalar and the segments that lead to it. */
  datatype Trace = Trace(at: seq<Segment>, text: string)

  function Traces(node: Json, at: seq<Segment>): seq<Trace>
    decreases node, 1
  {
    match node
    case Null => []
    case Scalar(text) => [Trace(at, text)]
    case Arr(items) => ItemTraces(items, at + [Wildcard])
    case Obj(entries) => EntryTraces(entries, at)
  }

  function ItemTraces(items: seq<Json>, at: seq<Segment>): seq<Trace>
    decreases items, 0
  {
    if items == [] then [] else Traces(items[0], at) + ItemTraces(items[1..], at)
  }

  function EntryTraces(entries: seq<Entry>, at: seq<Segment>): seq<Trace>
    decreases entries, 0
  {
    if entries == [] then []
    else Traces(entries[0].value, at + [Field(entries[0].key)]) + EntryTraces(entries[1..], at)
  }

  /** The texts of the traces along one sequence of segments. */
  function TextsAlong(traces: seq<Trace>, segs: seq<Segment>): seq<string> {
    if traces == [] then []
    else (if traces[0].at == segs then [traces[0].text] else []) + TextsAlong(traces[1..], segs)
  }

  lemma {:induction false} TextsAlongConcat(a: seq<Trace>, b: seq<Trace>, segs: seq<Segment>)
    ensures TextsAlong(a + b, segs) == TextsAlong(a, segs) + TextsAlong(b, segs)
  {
    if a == [] {
      assert a + b == b;
    } else {
      assert (a + b)[1..] == a[1..] + b;
      TextsAlongConcat(a[1..], b, segs);
    }
  }

  // ----- every trace goes on from where its walk began ----------------------------

  predicate NoIndex(segs: seq<Segment>) {
    forall k :: 0 <= k < |segs| ==> !segs[k].Index?
  }

  /** The trace begins with these segments and goes on with fields and wildcards, plain ones if so said. */
  predicate GoesOn(tr: Trace, at: seq<Segment>, plain: bool) {
    at <= tr.at && NoIndex(tr.at[|at|..]) && (plain ==> Plain(tr.at[|at|..]))
  }

  predicate AllGoOn(traces: seq<Trace>, at: seq<Segment>, plain: bool) {
    forall tr :: tr in traces ==> GoesOn(tr, at, plain)
  }

  lemma GoesOnFromChild(traces: seq<Trace>, at: seq<Segment>, seg: Segment, plain: bool)
    requires AllGoOn(traces, at + [seg], plain) && !seg.Index? && (plain ==> PlainSegment(seg))
    ensures AllGoOn(traces, at, plain)
  {
    forall tr | tr in traces
      ensures GoesOn(tr, at, plain)
    {
      assert GoesOn(tr, at + [seg], plain);
      assert tr.at[|at|..] == [seg] + tr.at[|at| + 1..];
    }
  }

  lemma {:induction false} TracesGoOn(node: Json, at: seq<Segment>, plain: bool)
    requires plain ==> PlainKeys(node)
    ensures AllGoOn(Traces(node, at), at, plain)
    decreases node, 1
  {
    match node
    case Null =>
    case Scalar(_) =>
    case Arr(items) =>
      ItemsGoOn(items, at + [Wildcard], plain);
      GoesOnFromChild(ItemTraces(items, at + [Wildcard]), at, Wildcard, plain);
    case Obj(entries) => EntriesGoOn(entries, at, plain);
  }

  lemma {:induction false} ItemsGoOn(items: seq<Json>, at: seq<Segment>, plain: bool)
    requires plain ==> PlainItems(items)
    ensures AllGoOn(ItemTraces(items, at), at, plain)
    decreases items, 0
  {
    if items != [] {
      TracesGoOn(items[0], at, plain);
      ItemsGoOn(items[1..], at, plain);
    }
  }

  lemma {:induction false} EntriesGoOn(entries: seq<Entry>, at: seq<Segment>, plain: bool)
    requires plain ==> PlainEntries(entries)
    ensures AllGoOn(EntryTraces(entries, at), at, plain)
    decreases entries, 0
  {
    if entries != [] {
      var seg := Field(entries[0].key);
      TracesGoOn(entries[0].value, at + [seg], plain);
      GoesOnFromChild(Traces(entries[0].value, at + [seg]), at, seg, plain);
      EntriesGoOn(entries[1..], at, plain);
    }
  }

  /** Traces that begin elsewhere contribute nothing. */
  lemma {:induction false} Elsewhere(traces: seq<Trace>, at: seq<Segment>, other: seq<Segment>)
    requires AllGoOn(traces, at, false) && !(at <= other)
    ensures TextsAlong(traces, other) == []
  {
    if traces != [] {
      assert GoesOn(traces[0], at, false);
      assert forall tr :: tr in traces[1..] ==> tr in traces;
      Elsewhere(traces[1..], at, other);
    }
  }

  lemma Departs(at: seq<Segment>, seg: Segment, next: Segment, below: seq<Segment>)
    requires seg != next
    ensures !(at + [seg] <= at + [next] + below)
  {
    assert (at + [seg])[|at|] == seg && (at + [next] + below)[|at|] == next;
  }

  // ----- the scalars that end exactly at a path ------------------------------

  function Own(nodes: seq<Json>): seq<string> {
    if nodes == [] then []
    else (if nodes[0].Scalar? then [nodes[0].text] else []) + Own(nodes[1..])
  }

  lemma {:induction false} OwnConcat(a: seq<Json>, b: seq<Json>)
    ensures Own(a + b) == Own(a) + Own(b)
  {
    if a == [] {
      assert a + b == b;
    } else {
      assert (a + b)[1..] == a[1..] + b;
      OwnConcat(a[1..], b);
    }
  }

  lemma {:induction false} NodesAtConcat(a: seq<Json>, b: seq<Json>, segs: seq<Segment>)
    ensures NodesAt(a + b, segs) == NodesAt(a, segs) + NodesAt(b, segs)
    decreases segs
  {
    if segs != [] {
      LevelConcat(a, b, segs[0]);
      NodesAtConcat(Level(a, segs[0]), Level(b, segs[0]), segs[1..]);
    }
  }

  function EndsAt(nodes: seq<Json>, segs: seq<Segment>): seq<string> {
    Own(NodesAt(nodes, segs))
  }

  lemma EndsAtConcat(a: seq<Json>, b: seq<Json>, segs: seq<Segment>)
    ensures EndsAt(a + b, segs) == EndsAt(a, segs) + EndsAt(b, segs)
  {
    NodesAtConcat(a, b, segs);
    OwnConcat(NodesAt(a, segs), NodesAt(b, segs));
  }

  lemma {:induction false} EndsNowhere(segs: seq<Segment>)
    ensures EndsAt([], segs) == []
  {
    if segs != [] {
      EndsNowhere(segs[1..]);
    }
  }

  lemma EndsAtStep(node: Json, segs: seq<Segment>)
    requires segs != []
    ensures EndsAt([node], segs) == EndsAt(Children(node, segs[0]), segs[1..])
  {
    assert Level([node], segs[0]) == Children(node, segs[0]);
  }

  // ----- the texts along a path are the scalars that end there ------------------------

  lemma {:induction false} TracesEnd(node: Json, at: seq<Segment>, below: seq<Segment>)
    requires Keyed(node) && NoIndex(below)
    ensures TextsAlong(Traces(node, at), at + below) == EndsAt([node], below)
    decreases node, 1
  {
    if below == [] {
      assert at + below == at;
      TracesHere(node, at);
    } else {
      EndsAtStep(node, below);
      TracesBelow(node, at, below);
    }
  }

  lemma TracesHere(node: Json, at: seq<Segment>)
    ensures TextsAlong(Traces(node, at), at) == Own([node])
  {
    match node
    case Null =>
    case Scalar(text) => assert [Trace(at, text)][1..] == [];
    case Arr(items) =>
      ItemsGoOn(items, at + [Wildcard], false);
      Elsewhere(ItemTraces(items, at + [Wildcard]), at + [Wildcard], at);
    case Obj(entries) => EntriesElsewhere(entries, at, at);
  }

  lemma {:induction false} EntriesElsewhere(entries: seq<Entry>, at: seq<Segment>, other: seq<Segment>)
    requires forall e :: e in entries ==> !(at + [Field(e.key)] <= other)
    ensures TextsAlong(EntryTraces(entries, at), other) == []
  {
    if entries != [] {
      assert entries[0] in entries && forall e :: e in entries[1..] ==> e in entries;
      var child := at + [Field(entries[0].key)];
      TracesGoOn(entries[0].value, child, false);
      Elsewhere(Traces(entries[0].value, child), child, other);
      EntriesElsewhere(entries[1..], at, other);
      TextsAlongConcat(Traces(entries[0].value, child), EntryTraces(entries[1..], at), other);
    }
  }

  lemma {:induction false} TracesBelow(node: Json, at: seq<Segment>, below: seq<Segment>)
    requires Keyed(node) && NoIndex(below) && below != []
    ensures TextsAlong(Traces(node, at), at + below) == EndsAt(Children(node, below[0]), below[1..])
    decreases node, 0
  {
    var seg, rest := below[0], below[1..];
    EndsNowhere(rest);
    assert at + below == at + [seg] + rest;
    match node
    case Null =>
    case Scalar(text) => assert [Trace(at, text)][1..] == [];
    case Arr(items) =>
      if seg == Wildcard {
        ItemsEnd(items, at + [Wildcard], rest);
      } else {
        Departs(at, Wildcard, seg, rest);
        ItemsGoOn(items, at + [Wildcard], false);
        Elsewhere(ItemTraces(items, at + [Wildcard]), at + [Wildcard], at + below);
      }
    case Obj(entries) =>
      if seg.Field? {
        EntriesEnd(entries, at, seg.name, rest);
      } else {
        forall e | e in entries
          ensures !(at + [Field(e.key)] <= at + below)
        {
          Departs(at, Field(e.key), seg, rest);
        }
        EntriesElsewhere(entries, at, at + below);
      }
  }

  lemma {:induction false} ItemsEnd(items: seq<Json>, at: seq<Segment>, below: seq<Segment>)
    requires KeyedItems(items) && NoIndex(below)
    ensures TextsAlong(ItemTraces(items, at), at + below) == EndsAt(items, below)
    decreases items, 0
  {
    if items == [] {
      EndsNowhere(below);
    } else {
      TracesEnd(items[0], at, below);
      ItemsEnd(items[1..], at, below);
      TextsAlongConcat(Traces(items[0], at), ItemTraces(items[1..], at), at + below);
      EndsAtConcat([items[0]], items[1..], below);
      assert items == [items[0]] + items[1..];
    }
  }

  lemma OtherEntries(entries: seq<Entry>, at: seq<Segment>, key: string, below: seq<Segment>)
    requires forall e :: e in entries ==> e.key != key
    ensures TextsAlong(EntryTraces(entries, at), at + [Field(key)] + below) == []
  {
    forall e | e in entries
      ensures !(at + [Field(e.key)] <= at + [Field(key)] + below)
    {
      Departs(at, Field(e.key), Field(key), below);
    }
    EntriesElsewhere(entries, at, at + [Field(key)] + below);
  }

  lemma {:induction false} EntriesEnd(entries: seq<Entry>, at: seq<Segment>, key: string, below: seq<Segment>)
    requires KeyedEntries(entries) && NoIndex(below)
    ensures TextsAlong(EntryTraces(entries, at), at + [Field(key)] + below) == EndsAt(Lookup(entries, key), below)
    decreases entries, 0
  {
    if entries == [] {
      EndsNowhere(below);
    } else {
      var goal := at + [Field(key)] + below;
      var child := at + [Field(entries[0].key)];
      TextsAlongConcat(Traces(entries[0].value, child), EntryTraces(entries[1..], at), goal);
      if entries[0].key == key {
        TracesEnd(entries[0].value, child, below);
        OtherEntries(entries[1..], at, key, below);
      } else {
        Departs(at, Field(entries[0].key), Field(key), below);
        TracesGoOn(entries[0].value, child, false);
        Elsewhere(Traces(entries[0].value, child), child, goal);
        EntriesEnd(entries[1..], at, key, below);
      }
    }
  }

  // ----- what the walk writes for its traces -------------------------------------------

  function WriteOn(path: string, seg: Segment): string {
    match seg
    case Field(key) => ChildPath(path, key)
    case Index(_) => path
    case Wildcard => path + "[]"
  }

  /** The path the walk writes for the segments it went through, whatever the keys. */
  function Written(segs: seq<Segment>): string {
    if segs == [] then "" else WriteOn(Written(segs[..|segs| - 1]), segs[|segs| - 1])
  }

  lemma WrittenSnoc(segs: seq<Segment>, seg: Segment)
    ensures Written(segs + [seg]) == WriteOn(Written(segs), seg)
  {
    assert (segs + [seg])[..|segs|] == segs;
  }

  /** The leaves the walk enters for its traces; a trace whose path is empty is passed over. */
  function Shown(traces: seq<Trace>): seq<Leaf> {
    if traces == [] then []
    else
      (if Written(traces[0].at) == "" then [] else [Leaf(Written(traces[0].at), traces[0].text)]) + Shown(traces[1..])
  }

  lemma {:induction false} ShownConcat(a: seq<Trace>, b: seq<Trace>)
    ensures Shown(a + b) == Shown(a) + Shown(b)
  {
    if a == [] {
      assert a + b == b;
    } else {
      assert (a + b)[1..] == a[1..] + b;
      ShownConcat(a[1..], b);
    }
  }

  lemma {:induction false} LeavesAreShown(node: Json, at: seq<Segment>)
    ensures Leaves(node, Written(at)) == Shown(Traces(node, at))
    decreases node, 1
  {
    match node
    case Null =>
    case Scalar(text) => assert [Trace(at, text)][1..] == [];
    case Arr(items) =>
      WrittenSnoc(at, Wildcard);
      ItemsAreShown(items, at + [Wildcard]);
    case Obj(entries) => EntriesAreShown(entries, at);
  }

  lemma {:induction false} ItemsAreShown(items: seq<Json>, at: seq<Segment>)
    ensures ItemLeaves(items, Written(at)) == Shown(ItemTraces(items, at))
    decreases items, 0
  {
    if items != [] {
      LeavesAreShown(items[0], at);
      ItemsAreShown(items[1..], at);
      ShownConcat(Traces(items[0], at), ItemTraces(items[1..], at));
    }
  }

  lemma {:induction false} EntriesAreShown(entries: seq<Entry>, at: seq<Segment>)
    ensures EntryLeaves(entries, Written(at)) == Shown(EntryTraces(entries, at))
    decreases entries, 0
  {
    if entries != [] {
      var seg := Field(entries[0].key);
      WrittenSnoc(at, seg);
      LeavesAreShown(entries[0].value, at + [seg]);
      EntriesAreShown(entries[1..], at);
      ShownConcat(Traces(entries[0].value, at + [seg]), EntryTraces(entries[1..], at));
    }
  }
}
