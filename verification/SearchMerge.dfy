/** Merging search results: one result for each key, the most complete one. */
module SearchMerge {
  import opened Collections
  import Sorting

  /** Text is a sequence of bytes here, one character for each. */
  datatype Result = Result(
    messageId: string,
    uniqueId: string,
    channel: string,
    datetime: int,
    title: string,
    content: string,
    links: seq<string>,
    tags: seq<string>)

  function Key(r: Result): string {
    if r.uniqueId != "" then r.uniqueId
    else if r.messageId != "" then r.messageId
    else "title_" + r.title + "_" + r.channel
  }

  function Score(r: Result): nat {
    (if r.uniqueId != "" then 10 else 0)
    + (if |r.links| > 0 then 5 + |r.links| else 0)
    + (if r.content != "" then 3 else 0)
    + |r.title| / 10
    + (if r.channel != "" then 2 else 0)
    + |r.tags|
  }

  /** The newcomer has to be strictly more complete. */
  function Better(existing: Result, newcomer: Result): Result {
    if Score(newcomer) > Score(existing) then newcomer else existing
  }

  type Table = map<string, Result>

  /** The table of a list: the last result of a key counts. */
  function TableOf(results: seq<Result>): Table {
    if results == [] then map[]
    else
      var last := results[|results| - 1];
      TableOf(results[..|results| - 1])[Key(last) := last]
  }

  function Improved(t: Table, r: Result): Table {
    t[Key(r) := if Key(r) in t then Better(t[Key(r)], r) else r]
  }

  function Absorbed(t: Table, incoming: seq<Result>): Table {
    if incoming == [] then t
    else Improved(Absorbed(t, incoming[..|incoming| - 1]), incoming[|incoming| - 1])
  }

  // ----- lists without repeated keys ---------------------------------------------

  /** The list shows every entry of the table once and nothing else. */
  ghost predicate Lists(results: seq<Result>, t: Table) {
    && Sorting.NoRepeats(results)
    && (forall r :: r in results ==> Key(r) in t && t[Key(r)] == r)
    && (forall k :: k in t ==> t[k] in results && Key(t[k]) == k)
  }

  predicate UniqueKeys(results: seq<Result>) {
    forall i, j :: 0 <= i < j < |results| ==> Key(results[i]) != Key(results[j])
  }

  lemma ListedKeysAreUnique(results: seq<Result>, t: Table)
    requires Lists(results, t)
    ensures UniqueKeys(results)
  {
    forall i, j | 0 <= i < j < |results|
      ensures Key(results[i]) != Key(results[j])
    {
      assert results[i] in results && results[j] in results;
    }
  }

  lemma {:induction false} TableKnowsKeys(results: seq<Result>, k: string)
    ensures k in TableOf(results) ==> TableOf(results)[k] in results && Key(TableOf(results)[k]) == k
    ensures k in TableOf(results) <==> exists r :: r in results && Key(r) == k
  {
    if results != [] {
      var front, last := results[..|results| - 1], results[|results| - 1];
      TableKnowsKeys(front, k);
      assert results == front + [last];
      assert forall r :: r in results <==> r in front || r == last;
    }
  }

  /** Listing a table and reading the list back gives the table. */
  lemma ListedTable(results: seq<Result>, t: Table)
    requires Lists(results, t)
    ensures TableOf(results) == t
  {
    forall k
      ensures k in TableOf(results) <==> k in t
      ensures k in t ==> TableOf(results)[k] == t[k]
    {
      TableKnowsKeys(results, k);
    }
    SameMap(TableOf(results), t);
  }

  // ----- mergeSearchResults as the program runs it --------------------------------

  predicate Newer(a: Result, b: Result) {
    a.datetime >= b.datetime
  }

  predicate WellKeyed(t: Table) {
    forall k :: k in t ==> Key(t[k]) == k
  }

  method FillTable(existing: seq<Result>) returns (t: Table)
    ensures t == TableOf(existing) && WellKeyed(t)
  {
    t := map[];
    for i := 0 to |existing|
      invariant t == TableOf(existing[..i]) && WellKeyed(t)
    {
      assert existing[..i + 1][..i] == existing[..i];
      t := t[Key(existing[i]) := existing[i]];
    }
    assert existing[..|existing|] == existing;
  }

  method AbsorbAll(start: Table, incoming: seq<Result>) returns (t: Table)
    requires WellKeyed(start)
    ensures t == Absorbed(start, incoming) && WellKeyed(t)
  {
    t := start;
    for i := 0 to |incoming|
      invariant t == Absorbed(start, incoming[..i]) && WellKeyed(t)
    {
      assert incoming[..i + 1][..i] == incoming[..i];
      var key := Key(incoming[i]);
      if key in t {
        t := t[key := Better(t[key], incoming[i])];
      } else {
        t := t[key := incoming[i]];
      }
    }
    assert incoming[..|incoming|] == incoming;
  }

  /** The entries of the table in no particular order. */
  method ListTable(t: Table) returns (results: seq<Result>)
    requires WellKeyed(t)
    ensures Lists(results, t)
  {
    results := [];
    var rest := t.Keys;
    while rest != {}
      invariant rest <= t.Keys
      invariant Sorting.NoRepeats(results)
      invariant forall r :: r in results ==> Key(r) in t && Key(r) !in rest && t[Key(r)] == r
      invariant forall k :: k in t && k !in rest ==> t[k] in results
      decreases |rest|
    {
      var k := Pick(rest);
      results := results + [t[k]];
      rest := rest - {k};
    }
  }

  method MergeSearchResults(existing: seq<Result>, incoming: seq<Result>) returns (merged: seq<Result>)
    ensures UniqueKeys(merged)
    ensures TableOf(merged) == Absorbed(TableOf(existing), incoming)
    ensures forall i, j :: 0 <= i < j < |merged| ==> merged[i].datetime >= merged[j].datetime
  {
    var t := FillTable(existing);
    t := AbsorbAll(t, incoming);
    var listed := ListTable(t);
    assert Sorting.TotalPreorder(Newer);
    merged := Sorting.Sort(listed, Newer);
    Sorting.PermutationKeepsDistinct(listed, merged);
    assert Lists(merged, t);
    ListedKeysAreUnique(merged, t);
    ListedTable(merged, t);
  }

  // ----- what the table knows of all results seen ----------------------------------

  /** Exactly the keys seen, and for each key a result seen under it that none seen is more complete than. */
  ghost predicate Tops(t: Table, seen: seq<Result>) {
    && (forall r :: r in seen ==> Key(r) in t && Score(r) <= Score(t[Key(r)]))
    && (forall k :: k in t ==> t[k] in seen && Key(t[k]) == k)
  }

  lemma ImprovedTops(t: Table, seen: seq<Result>, r: Result)
    requires Tops(t, seen)
    ensures Tops(Improved(t, r), seen + [r])
  {
    var next := Improved(t, r);
    forall x | x in seen + [r]
      ensures Key(x) in next && Score(x) <= Score(next[Key(x)])
    {
      assert x in seen || x == r;
    }
  }

  lemma {:induction false} AbsorbedTops(t: Table, seen: seq<Result>, incoming: seq<Result>)
    requires Tops(t, seen)
    ensures Tops(Absorbed(t, incoming), seen + incoming)
  {
    if incoming == [] {
      assert seen + incoming == seen;
    } else {
      var front, last := incoming[..|incoming| - 1], incoming[|incoming| - 1];
      assert seen + front + [last] == seen + incoming;
      assert Absorbed(t, incoming) == Improved(Absorbed(t, front), last);
      AbsorbedTops(t, seen, front);
      ImprovedTops(Absorbed(t, front), seen + front, last);
    }
  }

  /** Two tables that saw the same results, in whatever order and number, have the same keys and scores. */
  lemma SameSeenSameScores(a: Table, seenA: seq<Result>, b: Table, seenB: seq<Result>, k: string)
    requires Tops(a, seenA) && Tops(b, seenB)
    requires forall r :: r in seenA <==> r in seenB
    ensures k in a <==> k in b
    ensures k in a ==> Score(a[k]) == Score(b[k])
  {
    if k in a {
      assert a[k] in seenB;
      assert Score(a[k]) <= Score(b[k]);
    }
    if k in b {
      assert b[k] in seenA;
    }
  }

  // ----- lists with repeated keys: the exact condition -------------------------------

  /** Whether the result is matched by the last existing one of its key or by a newcomer. */
  ghost predicate Matched(r: Result, existing: seq<Result>, incoming: seq<Result>) {
    || (Key(r) in TableOf(existing) && Score(r) <= Score(TableOf(existing)[Key(r)]))
    || (exists n :: n in incoming && Key(n) == Key(r) && Score(r) <= Score(n))
  }

  /** The table behind a list tops what the list shows last under each key. */
  lemma {:induction false} AbsorbedOrigin(t: Table, incoming: seq<Result>, k: string)
    requires WellKeyed(t)
    ensures k in t ==> k in Absorbed(t, incoming) && Score(t[k]) <= Score(Absorbed(t, incoming)[k])
    ensures k in Absorbed(t, incoming) ==>
      && Key(Absorbed(t, incoming)[k]) == k
      && ((k in t && Absorbed(t, incoming)[k] == t[k]) || Absorbed(t, incoming)[k] in incoming)
    ensures forall n :: n in incoming && Key(n) == k ==>
      k in Absorbed(t, incoming) && Score(n) <= Score(Absorbed(t, incoming)[k])
  {
    if incoming != [] {
      var front, last := incoming[..|incoming| - 1], incoming[|incoming| - 1];
      assert incoming == front + [last];
      AbsorbedOrigin(t, front, k);
    }
  }

  lemma TableIsWellKeyed(existing: seq<Result>)
    ensures WellKeyed(TableOf(existing))
  {
    forall k | k in TableOf(existing)
      ensures Key(TableOf(existing)[k]) == k
    {
      TableKnowsKeys(existing, k);
    }
  }

  /** The merge keeps the most complete result of every key exactly if each existing result
      is matched by the last existing one of its key or by a newcomer. */
  lemma MergeKeepsBest(existing: seq<Result>, incoming: seq<Result>)
    ensures Tops(Absorbed(TableOf(existing), incoming), existing + incoming)
       <==> forall r :: r in existing ==> Matched(r, existing, incoming)
  {
    var t := TableOf(existing);
    var merged := Absorbed(t, incoming);
    TableIsWellKeyed(existing);
    forall k
      ensures k in merged ==> merged[k] in existing + incoming && Key(merged[k]) == k
    {
      AbsorbedOrigin(t, incoming, k);
      TableKnowsKeys(existing, k);
    }
    forall r | r in existing
      ensures Key(r) in merged
      ensures Score(r) <= Score(merged[Key(r)]) <==> Matched(r, existing, incoming)
    {
      AbsorbedOrigin(t, incoming, Key(r));
      TableKnowsKeys(existing, Key(r));
    }
    forall n | n in incoming
      ensures Key(n) in merged && Score(n) <= Score(merged[Key(n)])
    {
      AbsorbedOrigin(t, incoming, Key(n));
    }
    if forall r :: r in existing ==> Matched(r, existing, incoming) {
      assert Tops(merged, existing + incoming);
    }
    if Tops(merged, existing + incoming) {
      forall r | r in existing
        ensures Matched(r, existing, incoming)
      {
        assert r in existing + incoming;
      }
    }
  }

  /** With unique keys nothing is lost. */
  lemma UniqueKeysAreMatched(existing: seq<Result>, incoming: seq<Result>, r: Result)
    requires UniqueKeys(existing) && r in existing
    ensures Matched(r, existing, incoming)
  {
    TableKnowsKeys(existing, Key(r));
    var kept := TableOf(existing)[Key(r)];
    var i :| 0 <= i < |existing| && existing[i] == r;
    var j :| 0 <= j < |existing| && existing[j] == kept;
    assert i == j;
  }

  const FULL := Result("", "id", "", 0, "", "text", [], [])
  const POOR := Result("", "id", "", 0, "", "", [], [])

  /** Of two results with one key the later replaces the more complete earlier one. */
  lemma RepeatedKeyLosesInformation()
    ensures Key(FULL) == Key(POOR) && Score(FULL) > Score(POOR)
    ensures Absorbed(TableOf([FULL, POOR]), []) == map["id" := POOR]
    ensures !Tops(Absorbed(TableOf([FULL, POOR]), []), [FULL, POOR] + [])
  {
    var existing := [FULL, POOR];
    assert existing[..1] == [FULL] && existing[..1][..0] == [];
    assert TableOf([FULL]) == map["id" := FULL];
    assert TableOf(existing) == map["id" := FULL]["id" := POOR];
    assert FULL in existing + [];
  }
}
