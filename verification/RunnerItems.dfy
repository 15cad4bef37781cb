/** The life of an item: what moves it, that a finished one stays finished, and what recovery gives back. */
module RunnerItems {
  import opened Text
  import opened Runner
  import opened RunnerProof

  // ----- what moves an item -------------------------------------------------------

  /** The step starts work on item i: an executor claims it, a recording or a batch marks it. */
  predicate StartsWork(w: World, t: nat, e: Event, i: nat)
    requires t < |w.threads|
  {
    var p := w.threads[t];
    || (e.Claim? && e.taken == Some(i))
    || (e.Mark? && (e.ok || e.applied) && (p == ExternalMarks(i) || (p.BatchMarks? && p.todo != [] && p.todo[0] == i)))
  }

  /** The step completes item i, which the goroutine has in its hands. */
  predicate FinishesWork(w: World, t: nat, e: Event, i: nat)
    requires t < |w.threads|
  {
    var p := w.threads[t];
    e.Complete? && (e.ok || e.applied) && (p == ExternalCompletes(i) || p == Runs(i) || (p.BatchRuns? && p.item == i))
  }

  /** The step is a recovery that takes effect. */
  predicate TakesBack(w: World, e: Event) {
    e.Recover? && !w.recovered && (e.ok || e.applied)
  }

  /** An item is running exactly from when work on it starts, pending again when recovery takes it back, and terminal
      from when its work is finished; nothing else moves it. */
  lemma ItemMoves(w: World, t: nat, e: Event, i: nat)
    requires Enabled(w, t, e) && i < |w.items|
    ensures i < |Step(w, t, e).items|
    ensures Step(w, t, e).items[i].status ==
            if StartsWork(w, t, e, i) then Running
            else if FinishesWork(w, t, e, i) then Terminal
            else if TakesBack(w, e) && w.items[i].status == Running then Pending
            else w.items[i].status
  {
  }

  /** Items come in pending: one for a recording that is created, as many as asked for in a batch. */
  lemma ItemsAppear(w: World, t: nat, e: Event)
    requires Enabled(w, t, e)
    ensures |Step(w, t, e).items| == |w.items| +
            if e.Create? && (e.ok || e.applied) then 1 else if e.CreateBatch? && (e.ok || e.applied) then e.count else 0
    ensures forall i :: |w.items| <= i < |Step(w, t, e).items| ==>
              Step(w, t, e).items[i].status == Pending && Step(w, t, e).items[i].external == e.Create?
  {
  }

  // ----- a finished item stays finished -----------------------------------------------

  function TodoOf(p: Place): seq<nat> {
    match p
    case HandsBatch(todo) => todo
    case BatchMarks(todo) => todo
    case BatchRuns(_, todo) => todo
    case _ => []
  }

  /** All these items are pending, and different. */
  predicate AllPending(items: seq<Item>, todo: seq<nat>) {
    && (forall k :: 0 <= k < |todo| ==> ItemIn(items, todo[k], Pending))
    && (forall j, k :: 0 <= j < k < |todo| ==> todo[j] != todo[k])
  }

  /** What a batch still has to run is pending, and not what it is running. */
  predicate Ahead(w: World, p: Place) {
    AllPending(w.items, TodoOf(p)) && (p.BatchRuns? ==> p.item !in p.todo)
  }

  lemma AllButFirst(items: seq<Item>, todo: seq<nat>)
    requires AllPending(items, todo) && todo != []
    ensures AllPending(items, todo[1..]) && todo[0] !in todo[1..]
  {
    forall k | 0 <= k < |todo[1..]| ensures ItemIn(items, todo[1..][k], Pending) && todo[1..][k] != todo[0] {
      assert todo[1..][k] == todo[k + 1];
    }
  }

  ghost predicate AllAhead(w: World) {
    forall t :: 0 <= t < |w.threads| ==> Ahead(w, w.threads[t])
  }

  /** A step that works on nothing of a list leaves it pending. */
  lemma StaysAhead(w: World, t: nat, e: Event, p: Place)
    requires Enabled(w, t, e) && Ahead(w, p)
    requires forall k :: 0 <= k < |TodoOf(p)| ==>
               !StartsWork(w, t, e, TodoOf(p)[k]) && !FinishesWork(w, t, e, TodoOf(p)[k])
    ensures Ahead(Step(w, t, e), p)
  {
    forall k | 0 <= k < |TodoOf(p)| ensures ItemIn(Step(w, t, e).items, TodoOf(p)[k], Pending) {
      ItemMoves(w, t, e, TodoOf(p)[k]);
    }
  }

  /** Whoever has a batch executes, and its items are internal, so nobody else works on them. */
  lemma BystanderAhead(w: World, t: nat, e: Event, u: nat)
    requires Inv(w) && AllAhead(w) && Enabled(w, t, e) && u < |w.threads| && u != t
    ensures Ahead(Step(w, t, e), w.threads[u])
  {
    var p := w.threads[u];
    assert Ahead(w, p);
    if TodoOf(p) != [] {
      assert Executes(p) && !Executes(w.threads[t]);
      assert Knows(w, p) && Knows(w, w.threads[t]);
    }
    StaysAhead(w, t, e, p);
  }

  lemma BatchAhead(w: World, t: nat, count: nat, applied: bool)
    requires Enabled(w, t, CreateBatch(count, true, applied))
    ensures AllPending(Step(w, t, CreateBatch(count, true, applied)).items, Ids(|w.items|, count))
  {
    ItemsAppear(w, t, CreateBatch(count, true, applied));
  }

  lemma ActorAhead(w: World, t: nat, e: Event)
    requires Inv(w) && AllAhead(w) && Enabled(w, t, e)
    ensures Ahead(Step(w, t, e), PlaceAfter(w, w.threads[t], e))
  {
    var p := w.threads[t];
    assert Ahead(w, p);
    if e.CreateBatch? && e.ok {
      BatchAhead(w, t, e.count, e.applied);
    } else if e.Mark? && p.BatchMarks? {
      MarkAhead(w, t, e, p.todo);
    } else if e.Complete? && p.BatchRuns? {
      StaysAhead(w, t, e, p);
    }
  }

  lemma MarkAhead(w: World, t: nat, e: Event, todo: seq<nat>)
    requires Enabled(w, t, e) && e.Mark? && w.threads[t] == BatchMarks(todo) && AllPending(w.items, todo)
    ensures Ahead(Step(w, t, e), PlaceAfter(w, w.threads[t], e))
  {
    AllButFirst(w.items, todo);
    StaysAhead(w, t, e, BatchMarks(todo[1..]));
  }

  lemma SpawnedAhead(w: World, t: nat)
    requires AllAhead(w) && Enabled(w, t, HandOver)
    ensures Ahead(Step(w, t, HandOver), Spawned(w.threads[t], HandOver)[0])
  {
    assert Ahead(w, w.threads[t]);
    assert TodoOf(Spawned(w.threads[t], HandOver)[0]) == TodoOf(w.threads[t]);
  }

  lemma AheadStep(w: World, t: nat, e: Event)
    requires Inv(w) && AllAhead(w) && Enabled(w, t, e)
    ensures AllAhead(Step(w, t, e))
  {
    var v := Step(w, t, e);
    PlacesAdvance(w, t, e);
    forall u | 0 <= u < |v.threads| ensures Ahead(v, v.threads[u]) {
      if u == t {
        ActorAhead(w, t, e);
      } else if u < |w.threads| {
        BystanderAhead(w, t, e, u);
      } else {
        SpawnedAhead(w, t);
      }
    }
  }

  /** No step takes up an item that is finished. */
  lemma FinishedStep(w: World, t: nat, e: Event, i: nat)
    requires Inv(w) && AllAhead(w) && Enabled(w, t, e) && ItemIn(w.items, i, Terminal)
    ensures ItemIn(Step(w, t, e).items, i, Terminal)
  {
    assert Knows(w, w.threads[t]) && Ahead(w, w.threads[t]);
    ItemMoves(w, t, e, i);
  }

  lemma {:induction false} FinishedAlongRun(w: World, moves: seq<Move>, i: nat)
    requires Inv(w) && AllAhead(w) && Run(w, moves) && ItemIn(w.items, i, Terminal)
    ensures ItemIn(After(w, moves).items, i, Terminal)
    decreases moves
  {
    if moves != [] {
      InvStep(w, moves[0].thread, moves[0].event);
      AheadStep(w, moves[0].thread, moves[0].event);
      FinishedStep(w, moves[0].thread, moves[0].event, i);
      FinishedAlongRun(Step(w, moves[0].thread, moves[0].event), moves[1..], i);
    }
  }

  lemma {:induction false} AheadAlongRun(w: World, moves: seq<Move>)
    requires Inv(w) && AllAhead(w) && Run(w, moves)
    ensures Inv(After(w, moves)) && AllAhead(After(w, moves))
    decreases moves
  {
    if moves != [] {
      InvStep(w, moves[0].thread, moves[0].event);
      AheadStep(w, moves[0].thread, moves[0].event);
      AheadAlongRun(Step(w, moves[0].thread, moves[0].event), moves[1..]);
    }
  }

  /** In every run an item that is finished stays finished: nothing claims, marks or recovers it again. */
  lemma FinishedIsFinal(start: World, moves: seq<Move>, more: seq<Move>, i: nat)
    requires Initial(start) && Run(start, moves) && Run(After(start, moves), more)
    requires ItemIn(After(start, moves).items, i, Terminal)
    ensures ItemIn(After(After(start, moves), more).items, i, Terminal)
  {
    AheadAlongRun(start, moves);
    FinishedAlongRun(After(start, moves), more, i);
  }

  // ----- recovery -------------------------------------------------------------------------

  /** A call on which an executor gives up. */
  predicate CallFails(e: Event) {
    (e.Claim? || e.Mark? || e.Complete?) && !e.ok
  }

  /** It then claims and marks nothing more, and only has the flag to give back. */
  lemma FailureEndsExecutor(w: World, t: nat, e: Event)
    requires Enabled(w, t, e) && Executes(w.threads[t]) && CallFails(e)
    ensures Step(w, t, e).threads[t] == Releases
    ensures forall f :: Enabled(Step(w, t, e), t, f) <==> f == ReleaseActive
  {
  }

  predicate RecoversWell(move: Move) {
    move.event.Recover? && move.event.ok
  }

  lemma {:induction false} RecoveryStaysDue(w: World, moves: seq<Move>)
    requires Run(w, moves) && !w.recovered && forall k :: 0 <= k < |moves| ==> !RecoversWell(moves[k])
    ensures !After(w, moves).recovered
    decreases moves
  {
    if moves != [] {
      assert !RecoversWell(moves[0]);
      assert forall k :: 0 <= k < |moves[1..]| ==> moves[1..][k] == moves[k + 1];
      RecoveryStaysDue(Step(w, moves[0].thread, moves[0].event), moves[1..]);
    }
  }

  /** After a failed call, or a restart, the next recovery that succeeds makes every running item pending again,
      whatever happens before it; and one without such a cause since the last changes nothing. */
  lemma FailureIsRecovered(w: World, t: nat, e: Event, moves: seq<Move>, u: nat, applied: bool)
    requires Enabled(w, t, e) && (CallFails(e) || e.Restart?) && Run(Step(w, t, e), moves)
    requires forall k :: 0 <= k < |moves| ==> !RecoversWell(moves[k])
    requires Enabled(After(Step(w, t, e), moves), u, Recover(true, applied))
    ensures var v := After(Step(w, t, e), moves);
      var r := Step(v, u, Recover(true, applied));
      && r.recovered && |r.items| == |v.items|
      && forall i :: 0 <= i < |v.items| ==>
           r.items[i].status == if v.items[i].status == Running then Pending else v.items[i].status
  {
    RecoveryStaysDue(Step(w, t, e), moves);
  }

  lemma {:induction false} RecoveryIsDoneOnce(w: World, moves: seq<Move>, u: nat, ok: bool, applied: bool)
    requires Run(w, moves) && w.recovered
    requires forall k :: 0 <= k < |moves| ==> !CallFails(moves[k].event) && !moves[k].event.Restart?
    requires Enabled(After(w, moves), u, Recover(ok, applied))
    ensures Step(After(w, moves), u, Recover(ok, applied)).items == After(w, moves).items
    decreases moves
  {
    if moves != [] {
      assert !CallFails(moves[0].event) && !moves[0].event.Restart?;
      assert forall k :: 0 <= k < |moves[1..]| ==> moves[1..][k] == moves[k + 1];
      RecoveryIsDoneOnce(Step(w, moves[0].thread, moves[0].event), moves[1..], u, ok, applied);
    }
  }
}
