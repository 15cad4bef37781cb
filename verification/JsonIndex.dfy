/** The index of scalar leaves that is offered as a path picker. */
module JsonIndex {
  import opened JsonQuery
  import opened Collections
  import Sorting

  // ----- leaves in walk order, with the paths the walk writes -------------

  datatype Leaf = Leaf(path: string, text: string)

  function ChildPath(path: string, key: string): string {
    if path == "" then key else path + "." + key
  }

  function Leaves(node: Json, path: string): seq<Leaf>
    decreases node, 1
  {
    match node
    case Null => []
    case Scalar(text) => if path == "" then [] else [Leaf(path, text)]
    case Arr(items) => ItemLeaves(items, path + "[]")
    case Obj(entries) => EntryLeaves(entries, path)
  }

  function ItemLeaves(items: seq<Json>, path: string): seq<Leaf>
    decreases items, 0
  {
    if items == [] then [] else Leaves(items[0], path) + ItemLeaves(items[1..], path)
  }

  function EntryLeaves(entries: seq<Entry>, path: string): seq<Leaf>
    decreases entries, 0
  {
    if entries == [] then []
    else Leaves(entries[0].value, ChildPath(path, entries[0].key)) + EntryLeaves(entries[1..], path)
  }

  // ----- the accumulators --------------------------------------------------

  const SAMPLES := 3

  datatype Accumulator = Accumulator(count: nat, samples: seq<string>, seen: set<string>)

  type Index = map<string, Accumulator>

  function Counted(acc: Accumulator, text: string): Accumulator {
    if |acc.samples| < SAMPLES && text !in acc.seen
    then Accumulator(acc.count + 1, acc.samples + [text], acc.seen + {text})
    else acc.(count := acc.count + 1)
  }

  function Entered(index: Index, leaf: Leaf): Index {
    var acc := if leaf.path in index then index[leaf.path] else Accumulator(0, [], {});
    index[leaf.path := Counted(acc, leaf.text)]
  }

  function Filled(index: Index, leaves: seq<Leaf>): Index
    decreases leaves
  {
    if leaves == [] then index else Filled(Entered(index, leaves[0]), leaves[1..])
  }

  lemma {:induction false} FilledConcat(index: Index, a: seq<Leaf>, b: seq<Leaf>)
    ensures Filled(index, a + b) == Filled(Filled(index, a), b)
    decreases a
  {
    if a == [] {
      assert a + b == b;
    } else {
      assert (a + b)[1..] == a[1..] + b;
      FilledConcat(Entered(index, a[0]), a[1..], b);
    }
  }

  /** The walk as the program runs it, entering every leaf it meets. */
  method WalkCandidates(node: Json, path: string, index: Index) returns (r: Index)
    ensures r == Filled(index, Leaves(node, path))
    decreases node, 1
  {
    match node {
      case Null => r := index;
      case Scalar(text) => r := if path == "" then index else Entered(index, Leaf(path, text));
      case Arr(items) => r := WalkItems(items, path + "[]", index);
      case Obj(entries) => r := WalkEntries(entries, path, index);
    }
  }

  method WalkItems(items: seq<Json>, path: string, index: Index) returns (r: Index)
    ensures r == Filled(index, ItemLeaves(items, path))
    decreases items, 0
  {
    r := index;
    assert items[0..] == items;
    for k := 0 to |items|
      invariant Filled(index, ItemLeaves(items, path)) == Filled(r, ItemLeaves(items[k..], path))
    {
      assert items[k..][0] == items[k] && items[k..][1..] == items[k + 1..];
      FilledConcat(r, Leaves(items[k], path), ItemLeaves(items[k + 1..], path));
      r := WalkCandidates(items[k], path, r);
    }
  }

  method WalkEntries(entries: seq<Entry>, path: string, index: Index) returns (r: Index)
    ensures r == Filled(index, EntryLeaves(entries, path))
    decreases entries, 0
  {
    r := index;
    assert entries[0..] == entries;
    for k := 0 to |entries|
      invariant Filled(index, EntryLeaves(entries, path)) == Filled(r, EntryLeaves(entries[k..], path))
    {
      var child := ChildPath(path, entries[k].key);
      assert entries[k..][0] == entries[k] && entries[k..][1..] == entries[k + 1..];
      FilledConcat(r, Leaves(entries[k].value, child), EntryLeaves(entries[k + 1..], path));
      r := WalkCandidates(entries[k].value, child, r);
    }
  }

  // ----- what an accumulator knows about the leaves entered into it --------

  /** The texts of the leaves with one path, in walk order. */
  function Texts(leaves: seq<Leaf>, path: string): seq<string> {
    if leaves == [] then []
    else (if leaves[0].path == path then [leaves[0].text] else []) + Texts(leaves[1..], path)
  }

  /** The distinct elements in order of first occurrence. */
  function Distinct(s: seq<string>): seq<string> {
    if s == [] then []
    else
      var front := Distinct(s[..|s| - 1]);
      var last := s[|s| - 1];
      if last in front then front else front + [last]
  }

  function FirstThree(s: seq<string>): seq<string> {
    if |s| <= SAMPLES then s else s[..SAMPLES]
  }

  /** The distinct texts are those of the list, each once, and more texts only add at the end; so they stand in the
      order in which they first occur. At most three of them are shown. */
  lemma {:induction false} SamplesAreFirst(s: seq<string>, k: nat)
    requires k <= |s|
    ensures forall i, j :: 0 <= i < j < |Distinct(s)| ==> Distinct(s)[i] != Distinct(s)[j]
    ensures forall x :: x in Distinct(s) <==> x in s
    ensures Distinct(s[..k]) <= Distinct(s)
    ensures FirstThree(s) <= s && |FirstThree(s)| == if |s| < 3 then |s| else 3
  {
    if k == |s| {
      assert s[..k] == s;
    }
    if s != [] {
      var n := |s| - 1;
      SamplesAreFirst(s[..n], if k <= n then k else n);
      assert forall x :: x in s <==> x in s[..n] || x == s[n];
      if k <= n {
        assert s[..n][..k] == s[..k];
      }
    }
  }

  predicate Summarises(acc: Accumulator, texts: seq<string>) {
    && acc.count == |texts|
    && acc.samples == FirstThree(Distinct(texts))
    && acc.seen == (set t | t in acc.samples)
  }

  lemma CountedSummarises(acc: Accumulator, texts: seq<string>, text: string)
    requires Summarises(acc, texts)
    ensures Summarises(Counted(acc, text), texts + [text])
  {
    assert (texts + [text])[..|texts|] == texts;
    var d := Distinct(texts);
    if |d| <= SAMPLES {
      assert FirstThree(d) == d;
    }
    if text !in d && |d| >= SAMPLES {
      assert FirstThree(d + [text]) == FirstThree(d);
    }
  }

  /** The index knows a path exactly if a leaf had it, and summarises the leaves that did. */
  predicate Indexed(index: Index, leaves: seq<Leaf>, path: string) {
    && (path in index <==> Texts(leaves, path) != [])
    && (path in index ==> Summarises(index[path], Texts(leaves, path)))
  }

  lemma {:induction false} TextsConcat(a: seq<Leaf>, b: seq<Leaf>, path: string)
    ensures Texts(a + b, path) == Texts(a, path) + Texts(b, path)
  {
    if a == [] {
      assert a + b == b;
    } else {
      assert (a + b)[1..] == a[1..] + b;
      TextsConcat(a[1..], b, path);
    }
  }

  lemma TextsSnoc(leaves: seq<Leaf>, leaf: Leaf, path: string)
    ensures Texts(leaves + [leaf], path) == Texts(leaves, path) + (if leaf.path == path then [leaf.text] else [])
  {
    TextsConcat(leaves, [leaf], path);
    assert [leaf][1..] == [];
  }

  lemma NothingSummarised()
    ensures Summarises(Accumulator(0, [], {}), [])
  {
  }

  lemma CountedIndexed(index: Index, leaves: seq<Leaf>, leaf: Leaf)
    requires Indexed(index, leaves, leaf.path)
    ensures Indexed(Entered(index, leaf), leaves + [leaf], leaf.path)
  {
    var path := leaf.path;
    var acc := if path in index then index[path] else Accumulator(0, [], {});
    assert Summarises(acc, Texts(leaves, path)) by {
      NothingSummarised();
    }
    CountedSummarises(acc, Texts(leaves, path), leaf.text);
    TextsSnoc(leaves, leaf, path);
  }

  lemma EnteredIndexed(index: Index, leaves: seq<Leaf>, leaf: Leaf, path: string)
    requires Indexed(index, leaves, path)
    ensures Indexed(Entered(index, leaf), leaves + [leaf], path)
  {
    if leaf.path == path {
      CountedIndexed(index, leaves, leaf);
    } else {
      TextsSnoc(leaves, leaf, path);
      assert Texts(leaves, path) + [] == Texts(leaves, path);
    }
  }

  lemma {:induction false} FilledIndexed(index: Index, done: seq<Leaf>, leaves: seq<Leaf>, path: string)
    requires Indexed(index, done, path)
    ensures Indexed(Filled(index, leaves), done + leaves, path)
    decreases leaves
  {
    if leaves == [] {
      assert done + leaves == done;
    } else {
      var first, rest := leaves[0], leaves[1..];
      assert done + leaves == done + [first] + rest;
      EnteredIndexed(index, done, first, path);
      FilledIndexed(Entered(index, first), done + [first], rest, path);
    }
  }

  lemma WalkIndexed(doc: Json, path: string)
    ensures Indexed(Filled(map[], Leaves(doc, "")), Leaves(doc, ""), path)
  {
    FilledIndexed(map[], [], Leaves(doc, ""), path);
    assert [] + Leaves(doc, "") == Leaves(doc, "");
  }

  // ----- the list handed to the picker --------------------------------------

  datatype Candidate = Candidate(path: string, isArray: bool, count: nat, samples: seq<string>)

  /** Lexicographic order, in which the candidates are listed. */
  predicate StringLe(a: string, b: string) {
    a == "" || (b != "" && (a[0] < b[0] || (a[0] == b[0] && StringLe(a[1..], b[1..]))))
  }

  lemma {:induction false} StringLeTotal(a: string, b: string)
    ensures StringLe(a, b) || StringLe(b, a)
  {
    if a != "" && b != "" && a[0] == b[0] {
      StringLeTotal(a[1..], b[1..]);
    }
  }

  lemma {:induction false} StringLeTransitive(a: string, b: string, c: string)
    requires StringLe(a, b) && StringLe(b, c)
    ensures StringLe(a, c)
  {
    if a != "" && a[0] == b[0] && b[0] == c[0] {
      StringLeTransitive(a[1..], b[1..], c[1..]);
    }
  }

  lemma StringLeOrders()
    ensures Sorting.TotalPreorder(StringLe)
  {
    forall a, b
      ensures StringLe(a, b) || StringLe(b, a)
    {
      StringLeTotal(a, b);
    }
    forall a, b, c | StringLe(a, b) && StringLe(b, c)
      ensures StringLe(a, c)
    {
      StringLeTransitive(a, b, c);
    }
  }

  predicate MentionsArray(path: string) {
    exists i :: 0 <= i < |path| - 1 && path[i] == '[' && path[i + 1] == ']'
  }

  /** The paths of the index in an arbitrary order, the empty path left out. */
  method PathsOf(index: Index) returns (paths: seq<string>)
    ensures Sorting.NoRepeats(paths)
    ensures forall p :: p in paths <==> p in index && p != ""
  {
    paths := [];
    var rest := index.Keys;
    while rest != {}
      invariant rest <= index.Keys
      invariant Sorting.NoRepeats(paths)
      invariant forall p :: p in paths <==> p in index && p !in rest && p != ""
      decreases |rest|
    {
      var p := Pick(rest);
      if p != "" {
        paths := paths + [p];
      }
      rest := rest - {p};
    }
  }

  function Described(path: string, acc: Accumulator): Candidate {
    Candidate(path, MentionsArray(path), acc.count, acc.samples)
  }

  method Describe(index: Index, paths: seq<string>) returns (r: seq<Candidate>)
    requires forall p :: p in paths ==> p in index
    ensures |r| == |paths|
    ensures forall i :: 0 <= i < |r| ==> r[i] == Described(paths[i], index[paths[i]])
  {
    r := [];
    for k := 0 to |paths|
      invariant |r| == k
      invariant forall i :: 0 <= i < k ==> r[i] == Described(paths[i], index[paths[i]])
    {
      r := r + [Described(paths[k], index[paths[k]])];
    }
  }

  predicate Lists(r: seq<Candidate>, path: string) {
    exists i :: 0 <= i < |r| && r[i].path == path
  }

  lemma DescribedLists(r: seq<Candidate>, index: Index, paths: seq<string>, path: string)
    requires forall p :: p in paths ==> p in index
    requires |r| == |paths|
    requires forall i :: 0 <= i < |r| ==> r[i] == Described(paths[i], index[paths[i]])
    ensures Lists(r, path) <==> path in paths
  {
    if path in paths {
      var i :| 0 <= i < |paths| && paths[i] == path;
      assert r[i].path == path;
    }
  }

  /** One candidate for each path with a leaf, with its number of leaves and first three distinct texts. */
  ghost predicate Discovery(r: seq<Candidate>, doc: Json) {
    && (forall p :: Lists(r, p) <==> Texts(Leaves(doc, ""), p) != [])
    && (forall c :: c in r ==> c.count == |Texts(Leaves(doc, ""), c.path)|)
    && (forall c :: c in r ==> c.samples == FirstThree(Distinct(Texts(Leaves(doc, ""), c.path))))
    && (forall c :: c in r ==> c.isArray == MentionsArray(c.path))
  }

  lemma DescribedIsDiscovery(doc: Json, index: Index, paths: seq<string>, r: seq<Candidate>)
    requires forall p :: Indexed(index, Leaves(doc, ""), p)
    requires forall p :: p in paths <==> p in index
    requires |r| == |paths|
    requires forall i :: 0 <= i < |r| ==> r[i] == Described(paths[i], index[paths[i]])
    ensures Discovery(r, doc)
  {
    var leaves := Leaves(doc, "");
    forall p
      ensures Lists(r, p) <==> Texts(leaves, p) != []
    {
      DescribedLists(r, index, paths, p);
      assert Indexed(index, leaves, p);
    }
    forall c | c in r
      ensures c.path in index && c == Described(c.path, index[c.path]) && Indexed(index, leaves, c.path)
    {
      var i :| 0 <= i < |r| && r[i] == c;
      assert paths[i] in paths;
    }
  }

  method DiscoverFields(doc: Json) returns (r: seq<Candidate>)
    ensures forall i, j :: 0 <= i < j < |r| ==> r[i].path != r[j].path && StringLe(r[i].path, r[j].path)
    ensures Discovery(r, doc)
  {
    var index := WalkCandidates(doc, "", map[]);
    forall p
      ensures Indexed(index, Leaves(doc, ""), p)
    {
      WalkIndexed(doc, p);
    }
    assert "" !in index by {
      assert Indexed(index, Leaves(doc, ""), "");
      LeavesNamed(doc, "");
    }
    var found := PathsOf(index);
    StringLeOrders();
    var paths := Sorting.Sort(found, StringLe);
    Sorting.PermutationKeepsDistinct(found, paths);
    r := Describe(index, paths);
    DescribedIsDiscovery(doc, index, paths, r);
  }

  /** No leaf goes by the empty path. */
  lemma LeavesNamed(node: Json, path: string)
    ensures Texts(Leaves(node, path), "") == []
    decreases node, 1
  {
    match node
    case Arr(items) => ItemLeavesNamed(items, path + "[]");
    case Obj(entries) => EntryLeavesNamed(entries, path);
    case _ =>
  }

  lemma ItemLeavesNamed(items: seq<Json>, path: string)
    ensures Texts(ItemLeaves(items, path), "") == []
    decreases items, 0
  {
    if items != [] {
      LeavesNamed(items[0], path);
      ItemLeavesNamed(items[1..], path);
      TextsConcat(Leaves(items[0], path), ItemLeaves(items[1..], path), "");
    }
  }

  lemma EntryLeavesNamed(entries: seq<Entry>, path: string)
    ensures Texts(EntryLeaves(entries, path), "") == []
    decreases entries, 0
  {
    if entries != [] {
      var child := ChildPath(path, entries[0].key);
      LeavesNamed(entries[0].value, child);
      EntryLeavesNamed(entries[1..], path);
      TextsConcat(Leaves(entries[0].value, child), EntryLeaves(entries[1..], path), "");
    }
  }
}
