/** The per-source summary of collecting one keyword. */
module Summary {
  import opened Text

  datatype Source = Source(key: string, kind: string)

  datatype Status = Success | SuccessEmpty | Failed

  datatype Ingested = Ingested(added: nat, duplicate: nat)

  /** What searching one source gives: some results, perhaps together with an error, and
      what storing them gives; None is a store that fails. */
  datatype Answer = Answer(results: nat, attempts: nat, searchFails: bool, stored: Option<Ingested>)

  datatype Entry = Entry(source: Source, attempts: nat, results: nat, status: Status, hasError: bool, added: nat,
      duplicate: nat)

  type Summary = map<string, Entry>

  // ----- a key for every source ---------------------------------------------

  function BaseKey(source: Source, index: nat): string {
    var key := TrimSpace(source.key);
    if key != "" then key
    else
      var kind := TrimSpace(source.kind);
      if kind != "" then kind else "source_" + Decimal(index + 1)
  }

  function Suffixed(base: string, suffix: nat): string {
    base + "_" + Decimal(suffix)
  }

  lemma SuffixedInjective(base: string, m: nat, n: nat)
    requires Suffixed(base, m) == Suffixed(base, n)
    ensures m == n
  {
    var lead := base + "_";
    assert (lead + Decimal(m))[|lead|..] == Decimal(m);
    assert (lead + Decimal(n))[|lead|..] == Decimal(n);
    DecimalInjective(m, n);
  }

  /** As many suffixes in a row can be taken as there are keys taken. */
  lemma {:induction false} SuffixesTaken(base: string, taken: set<string>, n: nat)
    requires forall m :: 2 <= m < n + 2 ==> Suffixed(base, m) in taken
    ensures n <= |taken|
  {
    if n > 0 {
      var last := Suffixed(base, n + 1);
      forall m | 2 <= m < n + 1
        ensures Suffixed(base, m) in taken - {last}
      {
        if Suffixed(base, m) == last {
          SuffixedInjective(base, m, n + 1);
        }
      }
      SuffixesTaken(base, taken - {last}, n - 1);
    }
  }

  /** The search for a free suffix; only finitely many keys are taken, so it ends. */
  method FreeSuffix(base: string, taken: set<string>) returns (suffix: nat)
    ensures 2 <= suffix <= |taken| + 2 && Suffixed(base, suffix) !in taken
    ensures forall m :: 2 <= m < suffix ==> Suffixed(base, m) in taken
  {
    suffix := 2;
    while Suffixed(base, suffix) in taken
      invariant 2 <= suffix <= |taken| + 2
      invariant forall m :: 2 <= m < suffix ==> Suffixed(base, m) in taken
      decreases |taken| + 2 - suffix
    {
      SuffixesTaken(base, taken, suffix - 1);
      suffix := suffix + 1;
    }
  }

  /** The key is the least free suffix of the base key. */
  predicate LeastFree(base: string, taken: set<string>, key: string, n: nat) {
    && n >= 2
    && key == Suffixed(base, n)
    && key !in taken
    && forall m :: 2 <= m < n ==> Suffixed(base, m) in taken
  }

  /** The key a source gets beside those taken: its base key if that is free, otherwise its least free suffix. */
  ghost predicate KeyFor(source: Source, index: nat, taken: set<string>, key: string) {
    var base := BaseKey(source, index);
    if base !in taken then key == base else exists n :: LeastFree(base, taken, key, n)
  }

  method SourceSummaryKey(source: Source, index: nat, taken: Option<set<string>>) returns (key: string)
    ensures taken.None? ==> key == BaseKey(source, index)
    ensures taken.Some? ==> key !in taken.value && KeyFor(source, index, taken.value, key)
  {
    key := BaseKey(source, index);
    if taken.None? || key !in taken.value {
      return;
    }
    var suffix := FreeSuffix(key, taken.value);
    assert LeastFree(key, taken.value, Suffixed(key, suffix), suffix);
    key := Suffixed(key, suffix);
  }

  // ----- one entry ---------------------------------------------------------------

  /** The entry a source deserves. */
  function EntryOf(source: Source, a: Answer): Entry {
    var failed := Entry(source, a.attempts, a.results, Failed, true, 0, 0);
    if a.results == 0 then
      if a.searchFails then failed else Entry(source, a.attempts, 0, SuccessEmpty, false, 0, 0)
    else if a.stored.None? then failed
    else Entry(source, a.attempts, a.results, Success, a.searchFails, a.stored.value.added, a.stored.value.duplicate)
  }

  function Added(entries: seq<Entry>): nat {
    if entries == [] then 0 else Added(entries[..|entries| - 1]) + entries[|entries| - 1].added
  }

  function Duplicates(entries: seq<Entry>): nat {
    if entries == [] then 0 else Duplicates(entries[..|entries| - 1]) + entries[|entries| - 1].duplicate
  }

  predicate AnyWith(entries: seq<Entry>, status: Status) {
    exists i :: 0 <= i < |entries| && entries[i].status == status
  }

  /** The item succeeds with data if a source brought data, empty if one at least answered. */
  function RunStatus(entries: seq<Entry>): Status {
    if AnyWith(entries, Success) then Success
    else if AnyWith(entries, SuccessEmpty) then SuccessEmpty
    else Failed
  }

  predicate DistinctKeys(keys: seq<string>) {
    forall i, j :: 0 <= i < j < |keys| ==> keys[i] != keys[j]
  }

  function KeySet(keys: seq<string>): set<string> {
    set k | k in keys
  }

  /** The summary holds exactly the listed entries, each under the key it gets beside those before it. */
  ghost predicate Holds(summary: Summary, keys: seq<string>, entries: seq<Entry>) {
    && |keys| == |entries|
    && DistinctKeys(keys)
    && (forall k :: k in summary <==> k in keys)
    && (forall i :: 0 <= i < |keys| ==> keys[i] in summary && summary[keys[i]] == entries[i])
    && (forall i :: 0 <= i < |keys| ==> KeyFor(entries[i].source, i, KeySet(keys[..i]), keys[i]))
  }

  lemma HoldsOneMore(summary: Summary, keys: seq<string>, entries: seq<Entry>, key: string, entry: Entry)
    requires Holds(summary, keys, entries) && key !in summary
    requires KeyFor(entry.source, |keys|, summary.Keys, key)
    ensures Holds(summary[key := entry], keys + [key], entries + [entry])
  {
    assert forall i :: 0 <= i < |keys| ==> keys[i] in keys;
    assert KeySet(keys) == summary.Keys;
    forall i | 0 <= i < |keys| + 1
      ensures KeyFor((entries + [entry])[i].source, i, KeySet((keys + [key])[..i]), (keys + [key])[i])
    {
      assert (keys + [key])[..i] == keys[..i];
      if i == |keys| {
        assert keys[..i] == keys;
      }
    }
  }

  lemma {:induction false} HoldsSize(summary: Summary, keys: seq<string>, entries: seq<Entry>)
    requires Holds(summary, keys, entries)
    ensures |summary| == |entries|
  {
    KeyCount(keys);
    assert summary.Keys == set k | k in keys;
  }

  lemma {:induction false} KeyCount(keys: seq<string>)
    requires DistinctKeys(keys)
    ensures |set k | k in keys| == |keys|
  {
    if keys != [] {
      var front := keys[..|keys| - 1];
      KeyCount(front);
      assert (set k | k in keys) == (set k | k in front) + {keys[|keys| - 1]};
    }
  }

  // ----- collecting a keyword -------------------------------------------------------

  datatype Completion = Completion(summary: Summary, added: nat, duplicate: nat, status: Status, failures: seq<string>)

  function Entries(sources: seq<Source>, answers: seq<Answer>): seq<Entry>
    requires |sources| == |answers|
  {
    seq(|sources|, i requires 0 <= i < |sources| => EntryOf(sources[i], answers[i]))
  }

  /** The keys of the failed sources, in order. */
  function FailedKeys(keys: seq<string>, entries: seq<Entry>): seq<string>
    requires |keys| == |entries|
  {
    if keys == [] then []
    else
      var n := |keys| - 1;
      FailedKeys(keys[..n], entries[..n]) + if entries[n].status == Failed then [keys[n]] else []
  }

  /** What the loop has accumulated over the first sources. */
  ghost predicate Accumulated(c: Completion, keys: seq<string>, entries: seq<Entry>, anyData: bool,
      anyCompleted: bool) {
    Holds(c.summary, keys, entries) && Tallied(c, keys, entries, anyData, anyCompleted)
  }

  ghost predicate Tallied(c: Completion, keys: seq<string>, entries: seq<Entry>, anyData: bool, anyCompleted: bool)
    requires |keys| == |entries|
  {
    && c.added == Added(entries)
    && c.duplicate == Duplicates(entries)
    && c.failures == FailedKeys(keys, entries)
    && (anyData <==> AnyWith(entries, Success))
    && (anyCompleted <==> AnyWith(entries, Success) || AnyWith(entries, SuccessEmpty))
  }

  function With(c: Completion, key: string, entry: Entry): Completion {
    c.(summary := c.summary[key := entry],
       added := c.added + entry.added,
       duplicate := c.duplicate + entry.duplicate,
       failures := c.failures + if entry.status == Failed then [key] else [])
  }

  lemma AccumulatesEntry(c: Completion, keys: seq<string>, entries: seq<Entry>, anyData: bool, anyCompleted: bool,
      key: string, entry: Entry)
    requires Accumulated(c, keys, entries, anyData, anyCompleted) && key !in c.summary
    requires KeyFor(entry.source, |keys|, c.summary.Keys, key)
    ensures Accumulated(With(c, key, entry), keys + [key], entries + [entry],
                        anyData || entry.status == Success, anyCompleted || entry.status != Failed)
  {
    HoldsOneMore(c.summary, keys, entries, key, entry);
    TalliesEntry(c, keys, entries, anyData, anyCompleted, key, entry);
  }

  lemma TalliesEntry(c: Completion, keys: seq<string>, entries: seq<Entry>, anyData: bool, anyCompleted: bool,
      key: string, entry: Entry)
    requires |keys| == |entries| && Tallied(c, keys, entries, anyData, anyCompleted)
    ensures Tallied(With(c, key, entry), keys + [key], entries + [entry],
                    anyData || entry.status == Success, anyCompleted || entry.status != Failed)
  {
    TotalsOneMore(keys, entries, key, entry);
    AnyWithOneMore(entries, entry, Success);
    AnyWithOneMore(entries, entry, SuccessEmpty);
  }

  lemma TotalsOneMore(keys: seq<string>, entries: seq<Entry>, key: string, entry: Entry)
    requires |keys| == |entries|
    ensures Added(entries + [entry]) == Added(entries) + entry.added
    ensures Duplicates(entries + [entry]) == Duplicates(entries) + entry.duplicate
    ensures FailedKeys(keys + [key], entries + [entry]) ==
            FailedKeys(keys, entries) + if entry.status == Failed then [key] else []
  {
    assert (entries + [entry])[..|entries|] == entries && (keys + [key])[..|keys|] == keys;
  }

  lemma AnyWithOneMore(entries: seq<Entry>, entry: Entry, status: Status)
    ensures AnyWith(entries + [entry], status) <==> AnyWith(entries, status) || entry.status == status
  {
    if AnyWith(entries, status) {
      var i :| 0 <= i < |entries| && entries[i].status == status;
      assert (entries + [entry])[i].status == status;
    }
    if entry.status == status {
      assert (entries + [entry])[|entries|].status == status;
    }
  }

  /** The body of the loop: one source is searched, stored and entered. */
  method CollectSource(c: Completion, source: Source, index: nat, a: Answer, anyData: bool, anyCompleted: bool)
    returns (r: Completion, key: string, data: bool, completed: bool)
    ensures key !in c.summary && KeyFor(source, index, c.summary.Keys, key)
    ensures r == With(c, key, EntryOf(source, a))
    ensures data == (anyData || EntryOf(source, a).status == Success)
    ensures completed == (anyCompleted || EntryOf(source, a).status != Failed)
  {
    r, data, completed := c, anyData, anyCompleted;
    key := SourceSummaryKey(source, index, Some(c.summary.Keys));
    var entry := Entry(source, a.attempts, a.results, Failed, false, 0, 0);
    if a.searchFails && entry.results == 0 {
      entry := entry.(status := Failed, hasError := true);
      r := r.(summary := r.summary[key := entry], failures := r.failures + [key]);
      return;
    }
    if a.searchFails {
      entry := entry.(hasError := true);
    }
    if entry.results == 0 {
      entry := entry.(status := SuccessEmpty);
      r := r.(summary := r.summary[key := entry], failures := r.failures + []);
      completed := true;
      return;
    }
    match a.stored {
      case None =>
        entry := entry.(status := Failed, hasError := true);
        r := r.(failures := r.failures + [key]);
      case Some(ingested) =>
        entry := entry.(status := Success, added := ingested.added, duplicate := ingested.duplicate);
        r := r.(added := r.added + ingested.added, duplicate := r.duplicate + ingested.duplicate);
        data, completed := true, true;
    }
    r := r.(summary := r.summary[key := entry]);
    assert r.failures + [] == r.failures;
  }

  lemma EntriesOneMore(list: seq<Source>, answers: seq<Answer>, index: nat)
    requires |list| == |answers| && index < |list|
    ensures Entries(list[..index + 1], answers[..index + 1]) ==
            Entries(list[..index], answers[..index]) + [EntryOf(list[index], answers[index])]
  {
  }

  lemma NothingAccumulated()
    ensures Accumulated(Completion(map[], 0, 0, Failed, []), [], [], false, false)
  {
    var c := Completion(map[], 0, 0, Failed, []);
    assert Holds(c.summary, [], []);
    assert !AnyWith([], Success) && !AnyWith([], SuccessEmpty);
    assert Tallied(c, [], [], false, false);
  }

  /** One turn of the loop, seen from what has been accumulated. */
  method AccumulateSource(c: Completion, ghost keys: seq<string>, ghost entries: seq<Entry>, source: Source,
      index: nat, a: Answer, anyData: bool, anyCompleted: bool)
    returns (r: Completion, key: string, data: bool, completed: bool)
    requires Accumulated(c, keys, entries, anyData, anyCompleted) && index == |keys|
    ensures Accumulated(r, keys + [key], entries + [EntryOf(source, a)], data, completed)
  {
    r, key, data, completed := CollectSource(c, source, index, a, anyData, anyCompleted);
    AccumulatesEntry(c, keys, entries, anyData, anyCompleted, key, EntryOf(source, a));
  }

  /** The loop over the sources. */
  method CollectSources(list: seq<Source>, answers: seq<Answer>)
      returns (r: Completion, ghost keys: seq<string>, anyData: bool, anyCompleted: bool)
    requires |list| == |answers|
    ensures Accumulated(r, keys, Entries(list, answers), anyData, anyCompleted)
  {
    r, keys, anyData, anyCompleted := Completion(map[], 0, 0, Failed, []), [], false, false;
    NothingAccumulated();
    for index := 0 to |list|
      invariant Accumulated(r, keys, Entries(list[..index], answers[..index]), anyData, anyCompleted)
    {
      EntriesOneMore(list, answers, index);
      var key;
      r, key, anyData, anyCompleted :=
        AccumulateSource(r, keys, Entries(list[..index], answers[..index]), list[index], index, answers[index],
            anyData, anyCompleted);
      keys := keys + [key];
    }
    assert list[..|list|] == list && answers[..|list|] == answers;
  }

  /** sources: None if they cannot be determined. The summary has exactly one entry for each source and the
      counts of the item are the sums over the entries. */
  method CollectKeyword(sources: Option<seq<Source>>, answers: seq<Answer>)
      returns (r: Completion, ghost keys: seq<string>)
    requires sources.Some? ==> |answers| == |sources.value|
    ensures sources.None? ==> r == Completion(map[], 0, 0, Failed, [])
    ensures sources.Some? ==>
      var entries := Entries(sources.value, answers);
      && Holds(r.summary, keys, entries)
      && |r.summary| == |sources.value|
      && r.added == Added(entries)
      && r.duplicate == Duplicates(entries)
      && r.status == RunStatus(entries)
      && r.failures == FailedKeys(keys, entries)
  {
    r, keys := Completion(map[], 0, 0, Failed, []), [];
    if sources.None? || |sources.value| == 0 {
      return;
    }
    var anyData, anyCompleted;
    r, keys, anyData, anyCompleted := CollectSources(sources.value, answers);
    HoldsSize(r.summary, keys, Entries(sources.value, answers));
    r := r.(status := if anyData then Success else if anyCompleted then SuccessEmpty else Failed);
  }

  // ----- the item told from the answers ------------------------------------------------

  /** Results came and were stored. */
  predicate Delivers(a: Answer) {
    a.results > 0 && a.stored.Some?
  }

  /** The source answered that there is nothing. */
  predicate AnswersEmpty(a: Answer) {
    a.results == 0 && !a.searchFails
  }

  /** What an entry tells of its source's answer. */
  lemma EntryTells(source: Source, a: Answer)
    ensures var e := EntryOf(source, a);
      && e.source == source && e.attempts == a.attempts && e.results == a.results
      && (e.status == Success <==> Delivers(a)) && (e.status == SuccessEmpty <==> AnswersEmpty(a))
      && (e.hasError <==> a.searchFails || (a.results > 0 && a.stored.None?))
      && (Delivers(a) ==> e.added == a.stored.value.added && e.duplicate == a.stored.value.duplicate)
      && (!Delivers(a) ==> e.added == 0 && e.duplicate == 0)
  {
  }

  /** An item has data exactly if one source delivered, is empty exactly if none did but one answered that there is
      nothing, and has failed exactly if every source did. */
  lemma StatusTold(sources: seq<Source>, answers: seq<Answer>)
    requires |sources| == |answers|
    ensures var status := RunStatus(Entries(sources, answers));
      && (status == Success <==> exists i :: 0 <= i < |answers| && Delivers(answers[i]))
      && (status == Failed <==> forall i :: 0 <= i < |answers| ==> !Delivers(answers[i]) && !AnswersEmpty(answers[i]))
  {
    var entries := Entries(sources, answers);
    forall i | 0 <= i < |answers|
      ensures entries[i].status == Success <==> Delivers(answers[i])
      ensures entries[i].status == SuccessEmpty <==> AnswersEmpty(answers[i])
    {
      EntryTells(sources[i], answers[i]);
    }
  }

  function Total(answers: seq<Answer>, of: Ingested -> nat): nat {
    if answers == [] then 0
    else
      var last := answers[|answers| - 1];
      Total(answers[..|answers| - 1], of) + if Delivers(last) then of(last.stored.value) else 0
  }

  /** The counts of an item are those of the answers that were stored. */
  lemma {:induction false} TotalsTold(sources: seq<Source>, answers: seq<Answer>)
    requires |sources| == |answers|
    ensures Added(Entries(sources, answers)) == Total(answers, (x: Ingested) => x.added)
    ensures Duplicates(Entries(sources, answers)) == Total(answers, (x: Ingested) => x.duplicate)
  {
    if answers != [] {
      var n := |answers| - 1;
      TotalsTold(sources[..n], answers[..n]);
      EntriesOneMore(sources, answers, n);
      assert sources[..n + 1] == sources && answers[..n + 1] == answers;
      var entries := Entries(sources, answers);
      assert entries[..n] == Entries(sources[..n], answers[..n]);
      EntryTells(sources[n], answers[n]);
    }
  }

  /** Exactly the keys of the failed sources are listed. */
  lemma {:induction false} FailedKeysTold(keys: seq<string>, entries: seq<Entry>, key: string)
    requires |keys| == |entries|
    ensures key in FailedKeys(keys, entries) <==>
            exists i :: 0 <= i < |keys| && keys[i] == key && entries[i].status == Failed
  {
    if keys != [] {
      var n := |keys| - 1;
      FailedKeysTold(keys[..n], entries[..n], key);
      if i :| 0 <= i < n && keys[i] == key && entries[i].status == Failed {
        assert keys[..n][i] == key && entries[..n][i].status == Failed;
      }
    }
  }

  /** Sources that name themselves get the name, and those that do not are told apart by their place. */
  lemma BaseKeyTold(a: Source, i: nat, b: Source, j: nat)
    ensures TrimSpace(a.key) != "" ==> BaseKey(a, i) == TrimSpace(a.key)
    ensures TrimSpace(a.key) == "" && TrimSpace(a.kind) != "" ==> BaseKey(a, i) == TrimSpace(a.kind)
    ensures TrimSpace(a.key) == TrimSpace(a.kind) == "" && TrimSpace(b.key) == TrimSpace(b.kind) == "" ==>
              (BaseKey(a, i) == BaseKey(b, j) <==> i == j)
    ensures BaseKey(a, i) != ""
  {
    if BaseKey(a, i) == BaseKey(b, j) == "source_" + Decimal(i + 1) == "source_" + Decimal(j + 1) {
      assert ("source_" + Decimal(i + 1))[7..] == Decimal(i + 1);
      assert ("source_" + Decimal(j + 1))[7..] == Decimal(j + 1);
      DecimalInjective(i + 1, j + 1);
    }
  }
}
