/** The cache of merged search results: it only gains. */
module SearchCache {
  import opened Text
  import opened SearchMerge

  datatype Envelope = Envelope(results: seq<Result>, complete: bool, freshUntil: Option<int>)

  // ----- the cache as the program runs it --------------------------------------

  /** What the store does during one call: loading and storing may fail, and a store that fails
      may have written the entry all the same, at one of its levels. */
  datatype Luck = Luck(loads: bool, stores: bool, written: bool)

  predicate Writes(luck: Luck) {
    luck.loads && (luck.stores || luck.written)
  }

  /** What matters of an entry: the table behind its list, and whether it is final. */
  datatype View = View(table: Table, complete: bool, freshUntil: Option<int>)

  function ViewOf(e: Envelope): View {
    View(TableOf(e.results), e.complete, e.freshUntil)
  }

  function NoView(): View {
    View(map[], false, None)
  }

  function MergedView(v: View, incoming: seq<Result>, complete: bool): View {
    View(Absorbed(v.table, incoming), v.complete || complete, v.freshUntil)
  }

  method MergeCachedSearch(existing: Envelope, incoming: seq<Result>, complete: bool) returns (r: Envelope)
    ensures ViewOf(r) == MergedView(ViewOf(existing), incoming, complete)
    ensures UniqueKeys(r.results)
  {
    var results := MergeSearchResults(existing.results, incoming);
    r := Envelope(results, existing.complete || complete, existing.freshUntil);
  }

  class Cache {
    var entries: map<string, Envelope>

    constructor ()
      ensures entries == map[]
    {
      entries := map[];
    }

    /** What the cache holds under a key; an empty view if nothing. */
    function At(key: string): View
      reads this
    {
      if key in entries then ViewOf(entries[key]) else NoView()
    }

    /** The section under the lock of the key: load, merge, store. */
    method MergeAndStore(key: string, incoming: seq<Result>, complete: bool, luck: Luck) returns (r: Option<Envelope>)
      modifies this
      ensures r.Some? <==> luck.loads && luck.stores
      ensures At(key) == if Writes(luck) then MergedView(old(At(key)), incoming, complete) else old(At(key))
      ensures Writes(luck) ==> key in entries && UniqueKeys(entries[key].results)
      ensures r.Some? ==> Writes(luck) && entries[key] == r.value
      ensures !Writes(luck) ==> entries == old(entries)
      ensures forall k :: k != key ==> (k in entries <==> k in old(entries))
      ensures forall k :: k != key && k in entries ==> entries[k] == old(entries[k])
    {
      if !luck.loads {
        return None;
      }
      var existing := if key in entries then entries[key] else Envelope([], false, None);
      var merged := MergeCachedSearch(existing, incoming, complete);
      if luck.stores || luck.written {
        entries := entries[key := merged];
      }
      return if luck.stores then Some(merged) else None;
    }

    /** The entry's time to live has passed. */
    method Expire(key: string)
      modifies this
      ensures entries == old(entries) - {key}
      ensures At(key) == NoView()
    {
      entries := entries - {key};
    }
  }

  // ----- histories of one key ------------------------------------------------------

  datatype Event = Merge(incoming: seq<Result>, complete: bool, luck: Luck) | Expiry

  function Next(v: View, e: Event): View {
    match e
    case Merge(incoming, complete, luck) => if Writes(luck) then MergedView(v, incoming, complete) else v
    case Expiry => NoView()
  }

  function After(v: View, events: seq<Event>): View {
    if events == [] then v else Next(After(v, events[..|events| - 1]), events[|events| - 1])
  }

  /** All results that merges since the last expiry brought into the cache. */
  function Seen(events: seq<Event>): seq<Result> {
    if events == [] then []
    else
      var front, last := events[..|events| - 1], events[|events| - 1];
      match last
      case Expiry => []
      case Merge(incoming, _, luck) => if Writes(luck) then Seen(front) + incoming else Seen(front)
  }

  /** Whether one of those merges was complete. */
  predicate SeenComplete(events: seq<Event>) {
    events != [] &&
    var front, last := events[..|events| - 1], events[|events| - 1];
    match last
    case Expiry => false
    case Merge(_, complete, luck) => SeenComplete(front) || (Writes(luck) && complete)
  }

  /** Starting empty, the cache holds exactly the keys of all results seen, each with a most
      complete result seen, and is complete exactly if one merge was. */
  lemma {:induction false} CacheTopsHistory(events: seq<Event>)
    ensures Tops(After(NoView(), events).table, Seen(events))
    ensures After(NoView(), events).complete == SeenComplete(events)
  {
    if events != [] {
      var front, last := events[..|events| - 1], events[|events| - 1];
      CacheTopsHistory(front);
      if last.Merge? && Writes(last.luck) {
        AbsorbedTops(After(NoView(), front).table, Seen(front), last.incoming);
      }
    }
  }

  /** Two histories that brought in the same results end with the same keys and scores, whatever
      their order and grouping. */
  lemma OrderDoesNotMatter(a: seq<Event>, b: seq<Event>, k: string)
    requires forall r :: r in Seen(a) <==> r in Seen(b)
    ensures var s, t := After(NoView(), a).table, After(NoView(), b).table;
      (k in s <==> k in t) && (k in s ==> Score(s[k]) == Score(t[k]))
  {
    CacheTopsHistory(a);
    CacheTopsHistory(b);
    SameSeenSameScores(After(NoView(), a).table, Seen(a), After(NoView(), b).table, Seen(b), k);
  }

  /** From any entry on, completeness and scores never go back while the entry lives, and no merge makes it fresher. */
  lemma {:induction false} NothingIsLost(v: View, events: seq<Event>, k: string)
    requires forall i :: 0 <= i < |events| ==> events[i].Merge?
    requires k in v.table && WellKeyed(v.table)
    ensures v.complete ==> After(v, events).complete
    ensures After(v, events).freshUntil == v.freshUntil
    ensures WellKeyed(After(v, events).table)
    ensures k in After(v, events).table && Score(v.table[k]) <= Score(After(v, events).table[k])
  {
    if events != [] {
      var front, last := events[..|events| - 1], events[|events| - 1];
      NothingIsLost(v, front, k);
      var before := After(v, front).table;
      AbsorbedOrigin(before, last.incoming, k);
      AbsorbedIsWellKeyed(before, last.incoming);
    }
  }

  lemma AbsorbedIsWellKeyed(t: Table, incoming: seq<Result>)
    requires WellKeyed(t)
    ensures WellKeyed(Absorbed(t, incoming))
  {
    forall k | k in Absorbed(t, incoming)
      ensures Key(Absorbed(t, incoming)[k]) == k
    {
      AbsorbedOrigin(t, incoming, k);
    }
  }
}
