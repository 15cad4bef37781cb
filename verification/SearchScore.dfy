/** What makes a result more complete, which results are taken for the same one, and so what survives a merge. */
module SearchScore {
  import opened Collections
  import opened SearchMerge

  // ----- what completeness counts ----------------------------------------

  const NOTHING := Result("", "", "", 0, "", "", [], [])

  /** An empty result scores nothing; each thing it gains scores as much as the program gives for it,
      and its message id and date score nothing. */
  lemma ScoreGains(r: Result, text: string, id: string, at: int)
    requires text != ""
    ensures Score(NOTHING) == 0
    ensures r.uniqueId == "" ==> Score(r.(uniqueId := text)) == Score(r) + 10
    ensures r.content == "" ==> Score(r.(content := text)) == Score(r) + 3
    ensures r.channel == "" ==> Score(r.(channel := text)) == Score(r) + 2
    ensures r.links == [] ==> Score(r.(links := [text])) == Score(r) + 6
    ensures r.links != [] ==> Score(r.(links := r.links + [text])) == Score(r) + 1
    ensures Score(r.(tags := r.tags + [text])) == Score(r) + 1
    ensures r.title == "" ==> Score(r.(title := text)) == Score(r) + |text| / 10
    ensures |text| == 10 ==> Score(r.(title := r.title + text)) == Score(r) + 1
    ensures Score(r.(messageId := id, datetime := at)) == Score(r)
  {
    if |text| == 10 {
      assert (|r.title| + 10) / 10 == |r.title| / 10 + 1;
    }
  }

  /** The first has everything the second has, by what completeness looks at. */
  predicate HasAll(a: Result, b: Result) {
    && (b.uniqueId != "" ==> a.uniqueId != "")
    && (b.content != "" ==> a.content != "")
    && (b.channel != "" ==> a.channel != "")
    && |a.links| >= |b.links| && |a.tags| >= |b.tags| && |a.title| >= |b.title|
  }

  /** And something besides; titles count by full tens. */
  predicate HasMore(a: Result, b: Result) {
    || (a.uniqueId != "" && b.uniqueId == "")
    || (a.content != "" && b.content == "")
    || (a.channel != "" && b.channel == "")
    || |a.links| > |b.links| || |a.tags| > |b.tags| || |a.title| / 10 > |b.title| / 10
  }

  lemma TensGrow(m: nat, n: nat)
    requires m <= n
    ensures m / 10 <= n / 10
  {
  }

  /** A result with all that another has scores at least as much, and more exactly if it has more. */
  lemma RicherScoresMore(a: Result, b: Result)
    requires HasAll(a, b)
    ensures Score(a) >= Score(b)
    ensures Score(a) > Score(b) <==> HasMore(a, b)
  {
    TensGrow(|b.title|, |a.title|);
  }

  // ----- what survives a merge -------------------------------------------

  /** Merging into a list without repeated keys, wherever the two stand: no result is left in the merge
      if one with its key is strictly richer. */
  lemma PoorerIsReplaced(existing: seq<Result>, incoming: seq<Result>, rich: Result, poor: Result)
    requires rich in existing + incoming && Key(rich) == Key(poor) && HasAll(rich, poor) && HasMore(rich, poor)
    requires UniqueKeys(existing)
    ensures var merged := Absorbed(TableOf(existing), incoming);
      && Key(rich) in merged && merged[Key(rich)] != poor
      && Score(merged[Key(rich)]) >= Score(rich)
  {
    RicherScoresMore(rich, poor);
    forall r | r in existing ensures Matched(r, existing, incoming) {
      UniqueKeysAreMatched(existing, incoming, r);
    }
    MergeKeepsBest(existing, incoming);
  }

  /** Of two results with one key the strictly richer survives, whichever list it is in. */
  lemma RicherSurvives(rich: Result, poor: Result)
    requires Key(rich) == Key(poor) && HasAll(rich, poor) && HasMore(rich, poor)
    ensures Absorbed(TableOf([rich]), [poor]) == map[Key(rich) := rich]
    ensures Absorbed(TableOf([poor]), [rich]) == map[Key(rich) := rich]
    ensures Absorbed(map[], [rich, poor]) == map[Key(rich) := rich] == Absorbed(map[], [poor, rich])
  {
    RicherScoresMore(rich, poor);
    OneResult(TableOf([rich]), rich, poor);
    OneResult(TableOf([poor]), poor, rich);
    OneResult(map[], rich, poor);
    OneResult(map[], poor, rich);
  }

  /** Of two equally complete results with one key the one that was there first stays. */
  lemma TieKeepsFirst(a: Result, b: Result)
    requires Key(a) == Key(b) && Score(a) == Score(b)
    ensures Absorbed(TableOf([a]), [b]) == map[Key(a) := a] == Absorbed(map[], [a, b])
  {
    OneResult(TableOf([a]), a, b);
    OneResult(map[], a, b);
  }

  /** Lists of one or two results. */
  lemma OneResult(t: Table, a: Result, b: Result)
    ensures TableOf([a]) == map[Key(a) := a]
    ensures Absorbed(t, [b]) == Improved(t, b)
    ensures Absorbed(t, [a, b]) == Improved(Improved(t, a), b)
  {
    assert [a][..0] == [] && [b][..0] == [] && [a, b][..1] == [a];
    assert TableOf([]) == map[] && Absorbed(t, []) == t;
    assert Absorbed(t, [a]) == Improved(t, a);
  }

  // ----- which results are taken for the same --------------------------------

  /** A unique id decides alone; without one the message id does; without both, title and channel joined. */
  lemma KeyDecides(a: Result, b: Result)
    ensures a.uniqueId != "" && b.uniqueId != "" ==> (Key(a) == Key(b) <==> a.uniqueId == b.uniqueId)
    ensures a.uniqueId == b.uniqueId == "" && a.messageId != "" && b.messageId != "" ==>
              (Key(a) == Key(b) <==> a.messageId == b.messageId)
    ensures a.uniqueId == b.uniqueId == "" && a.messageId == b.messageId == "" ==>
              (Key(a) == Key(b) <==> a.title + "_" + a.channel == b.title + "_" + b.channel)
  {
    if a.uniqueId == b.uniqueId == "" && a.messageId == b.messageId == "" {
      Joined(a);
      Joined(b);
    }
  }

  lemma Joined(r: Result)
    requires r.uniqueId == "" && r.messageId == ""
    ensures Key(r)[..6] == "title_" && Key(r)[6..] == r.title + "_" + r.channel
    ensures Key(r) == "title_" + (r.title + "_" + r.channel)
  {
    Regroup("title_", r.title + "_", r.channel);
    Regroup("title_", r.title, "_");
  }

  /** Two different titles in two different channels can share a key, and the merge keeps one of the two. */
  lemma TitleKeysCollide()
    ensures var a, b := NOTHING.(title := "a_b", channel := "c"), NOTHING.(title := "a", channel := "b_c");
      && a != b && Key(a) == Key(b)
      && Absorbed(TableOf([a]), [b]) == map[Key(a) := a]
  {
    var a, b := NOTHING.(title := "a_b", channel := "c"), NOTHING.(title := "a", channel := "b_c");
    assert Key(a) == "title_a_b_c" == Key(b);
    OneResult(TableOf([a]), a, b);
  }

  /** Results without ids whose channels hold no underscore share a key exactly if title and channel are the same. */
  lemma PlainChannelsDecide(a: Result, b: Result)
    requires a.uniqueId == b.uniqueId == "" && a.messageId == b.messageId == ""
    requires '_' !in a.channel && '_' !in b.channel
    ensures Key(a) == Key(b) <==> a.title == b.title && a.channel == b.channel
  {
    KeyDecides(a, b);
    if Key(a) == Key(b) {
      if |a.channel| <= |b.channel| {
        SplitAtLast(b.title, b.channel, a.title, a.channel);
      } else {
        SplitAtLast(a.title, a.channel, b.title, b.channel);
      }
    }
  }

  lemma SplitAtLast(t: string, c: string, u: string, d: string)
    requires t + "_" + c == u + "_" + d && '_' !in c && |d| <= |c|
    ensures t == u && c == d
  {
    var s := t + "_" + c;
    assert (u + "_" + d)[|u|] == '_';
    assert |u| == |s| - |d| - 1;
    assert forall k :: |t| < k < |s| ==> s[k] == c[k - |t| - 1] && s[k] in c;
    assert s[..|t|] == t && s[..|u|] == u && s[|t| + 1..] == c && s[|u| + 1..] == d;
  }
}
