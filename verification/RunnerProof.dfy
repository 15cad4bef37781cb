/** In every interleaving an external item stays external, exactly as far as its recording went. */
module RunnerProof {
  import opened Text
  import opened Runner

  // ----- lock and flag -------------------------------------------------------

  /** Lock and flag are taken, kept and given back together with the places that stand for them. */
  lemma PlacesAdvance(w: World, t: nat, e: Event)
    requires Enabled(w, t, e)
    ensures var p := w.threads[t]; var q := PlaceAfter(w, p, e);
      && (HoldsLock(q) <==> e.Lock? || (HoldsLock(p) && !e.Unlock?))
      && (e.Lock? ==> w.persist.None?) && (e.Unlock? ==> HoldsLock(p))
      && (Executes(q) <==> e.StartPending? || e.StartBatch? || (Executes(p) && !e.HandOver? && !e.ReleaseActive?))
      && (e.StartPending? || e.StartBatch? ==> !w.active) && (e.HandOver? || e.ReleaseActive? ==> Executes(p))
      && (e.HandOver? ==> |Spawned(p, e)| == 1 && Executes(Spawned(p, e)[0]) && !HoldsLock(Spawned(p, e)[0]))
      && (!e.HandOver? ==> Spawned(p, e) == [])
  {
  }

  lemma LockStep(w: World, t: nat, e: Event)
    requires LockExclusive(w) && Enabled(w, t, e)
    ensures LockExclusive(Step(w, t, e))
  {
    PlacesAdvance(w, t, e);
  }

  /** Whoever answers for the flag afterwards did so before, took it, or was handed it. */
  lemma FlagStep(w: World, t: nat, e: Event)
    requires FlagExclusive(w) && Enabled(w, t, e)
    ensures FlagExclusive(Step(w, t, e))
  {
    PlacesAdvance(w, t, e);
    var v := Step(w, t, e);
    assert forall u :: 0 <= u < |w.threads| && u != t ==> v.threads[u] == w.threads[u];
    assert v.threads[t] == PlaceAfter(w, w.threads[t], e);
    if e.HandOver? {
      assert Executes(v.threads[|w.threads|]);
    } else if v.active && !Executes(v.threads[t]) {
      var u :| 0 <= u < |w.threads| && Executes(w.threads[u]);
      assert Executes(v.threads[u]);
    }
  }

  // ----- who may touch which item ----------------------------------------------

  /** The item is being recorded by the holder of the lock. */
  predicate InHand(w: World, i: nat) {
    w.persist.Some? && w.persist.value < |w.threads| && Records(w.threads[w.persist.value], i)
  }

  /** A recording only ever takes up a new item. */
  lemma HandsStep(w: World, t: nat, e: Event, i: nat)
    requires LockExclusive(w) && Enabled(w, t, e) && i < |w.items|
    ensures InHand(Step(w, t, e), i) ==> InHand(w, i)
    ensures InHand(w, i) && w.persist != Some(t) ==> InHand(Step(w, t, e), i)
  {
    PlacesAdvance(w, t, e);
  }

  lemma ItemsGrow(w: World, t: nat, e: Event, i: nat)
    requires Enabled(w, t, e) && i < |w.items|
    ensures i < |Step(w, t, e).items| && Step(w, t, e).items[i].external == w.items[i].external
    ensures !Records(w.threads[t], i) ==> Recorded(Step(w, t, e).items[i]) == Recorded(w.items[i])
  {
  }

  /** An external item that is being recorded, or was recorded, changes only by a step of its recorder. */
  lemma OnlyItsRecorderActs(w: World, t: nat, e: Event, i: nat)
    requires Inv(w) && Enabled(w, t, e) && i < |w.items| && w.items[i].external
    requires InHand(w, i) || Recorded(w.items[i])
    requires !Records(w.threads[t], i)
    ensures i < |Step(w, t, e).items| && Step(w, t, e).items[i] == w.items[i]
  {
    assert Guarded(w, i);
    assert Knows(w, w.threads[t]);
    if w.threads[t].BatchRuns? {
      assert [w.threads[t].item][0] == w.threads[t].item;
    }
  }

  /** The recorder's own steps, one call after the other. */
  lemma RecorderKnows(w: World, t: nat, e: Event, i: nat)
    requires Inv(w) && Enabled(w, t, e) && i < |w.items| && Records(w.threads[t], i)
    ensures var v := Step(w, t, e);
      && i < |v.items| && v.items[i].external
      && (Records(v.threads[t], i) ==> Knows(v, v.threads[t]))
      && (!Records(v.threads[t], i) ==> Recorded(v.items[i]) ==> v.items[i].status == Terminal)
  {
    assert Knows(w, w.threads[t]);
  }

  // ----- preservation ------------------------------------------------------------

  lemma GuardedStep(w: World, t: nat, e: Event, i: nat)
    requires Inv(w) && Enabled(w, t, e) && i < |Step(w, t, e).items|
    ensures Guarded(Step(w, t, e), i)
  {
    var v := Step(w, t, e);
    if i < |w.items| {
      assert Guarded(w, i);
      ItemsGrow(w, t, e, i);
      HandsStep(w, t, e, i);
      if Records(w.threads[t], i) {
        RecorderKnows(w, t, e, i);
        assert Records(v.threads[t], i) ==> v.persist == Some(t);
      } else if w.items[i].external && (InHand(w, i) || Recorded(w.items[i])) {
        OnlyItsRecorderActs(w, t, e, i);
      }
    } else {
      NewItemsUnrecorded(w, t, e, i);
    }
  }

  lemma NewItemsUnrecorded(w: World, t: nat, e: Event, i: nat)
    requires Enabled(w, t, e) && |w.items| <= i < |Step(w, t, e).items|
    ensures !Recorded(Step(w, t, e).items[i])
    ensures e.CreateBatch? ==> !Step(w, t, e).items[i].external
  {
    if e.CreateBatch? {
      assert Step(w, t, e).items[i] == NewItems(e.count)[i - |w.items|];
    }
  }

  lemma AbandonedStep(w: World, t: nat, e: Event, i: nat)
    requires Inv(w) && Enabled(w, t, e) && Abandoned(w, i)
    ensures Abandoned(Step(w, t, e), i)
  {
    ItemsGrow(w, t, e, i);
    HandsStep(w, t, e, i);
  }

  lemma InternalStep(w: World, t: nat, e: Event, todo: seq<nat>)
    requires Enabled(w, t, e) && AllInternal(w.items, todo)
    ensures AllInternal(Step(w, t, e).items, todo)
  {
    forall k | 0 <= k < |todo|
      ensures todo[k] < |Step(w, t, e).items| && !Step(w, t, e).items[todo[k]].external
    {
      ItemsGrow(w, t, e, todo[k]);
    }
  }

  /** What another goroutine knows stays true. */
  lemma BystanderKnows(w: World, t: nat, e: Event, u: nat)
    requires Inv(w) && Enabled(w, t, e) && u < |w.threads| && u != t
    ensures Knows(Step(w, t, e), w.threads[u])
  {
    var p := w.threads[u];
    assert Knows(w, p);
    match p
    case ExternalMarks(i) => BystanderRecords(w, t, e, u, i);
    case ExternalCompletes(i) => BystanderRecords(w, t, e, u, i);
    case ExternalLeaves(left) =>
      if left.Some? {
        BystanderRecords(w, t, e, u, left.value);
      }
    case HandsRun(i) => AbandonedStep(w, t, e, i);
    case Runs(i) => AbandonedStep(w, t, e, i);
    case HandsBatch(todo) => InternalStep(w, t, e, todo);
    case BatchMarks(todo) => InternalStep(w, t, e, todo);
    case BatchRuns(i, todo) =>
      InternalStep(w, t, e, [i]);
      InternalStep(w, t, e, todo);
    case _ =>
  }

  lemma BystanderRecords(w: World, t: nat, e: Event, u: nat, i: nat)
    requires Inv(w) && Enabled(w, t, e) && u < |w.threads| && u != t
    requires Records(w.threads[u], i)
    ensures i < |w.items| && i < |Step(w, t, e).items| && Step(w, t, e).items[i] == w.items[i]
  {
    assert Knows(w, w.threads[u]);
    assert w.persist == Some(u);
    OnlyItsRecorderActs(w, t, e, i);
  }

  lemma ClaimerKnows(w: World, t: nat, taken: Option<nat>, ok: bool)
    requires Inv(w) && Enabled(w, t, Claim(taken, ok))
    ensures Knows(Step(w, t, Claim(taken, ok)), PlaceAfter(w, w.threads[t], Claim(taken, ok)))
  {
    if taken.Some? {
      assert Guarded(w, taken.value);
      ItemsGrow(w, t, Claim(taken, ok), taken.value);
      HandsStep(w, t, Claim(taken, ok), taken.value);
    }
  }

  lemma BatchKnows(w: World, t: nat, e: Event)
    requires Inv(w) && Enabled(w, t, e) && (w.threads[t].BatchMarks? || w.threads[t].BatchRuns?)
    ensures Knows(Step(w, t, e), PlaceAfter(w, w.threads[t], e))
  {
    var p := w.threads[t];
    assert Knows(w, p);
    InternalStep(w, t, e, p.todo);
    if p.BatchMarks? && p.todo != [] {
      InternalStep(w, t, e, [p.todo[0]]);
      InternalStep(w, t, e, p.todo[1..]);
    }
  }

  /** A batch holds the items just created. */
  lemma BatchIsInternal(w: World, t: nat, count: nat, applied: bool)
    requires Enabled(w, t, CreateBatch(count, true, applied))
    ensures AllInternal(Step(w, t, CreateBatch(count, true, applied)).items, Ids(|w.items|, count))
  {
    var todo := Ids(|w.items|, count);
    forall k | 0 <= k < count
      ensures !Step(w, t, CreateBatch(count, true, applied)).items[todo[k]].external
    {
      NewItemsUnrecorded(w, t, CreateBatch(count, true, applied), todo[k]);
    }
  }

  lemma ExecutorKnows(w: World, t: nat, e: Event)
    requires Inv(w) && Enabled(w, t, e) && Executes(Step(w, t, e).threads[t])
    ensures Knows(Step(w, t, e), Step(w, t, e).threads[t])
  {
    var p := w.threads[t];
    if e.Claim? {
      ClaimerKnows(w, t, e.taken, e.ok);
    } else if p.BatchMarks? || p.BatchRuns? {
      BatchKnows(w, t, e);
    } else if e.CreateBatch? && e.ok {
      BatchIsInternal(w, t, e.count, e.applied);
    }
  }

  lemma ActorKnows(w: World, t: nat, e: Event)
    requires Inv(w) && Enabled(w, t, e)
    ensures Knows(Step(w, t, e), Step(w, t, e).threads[t])
  {
    var p, v := w.threads[t], Step(w, t, e);
    assert Knows(w, p);
    if Executes(v.threads[t]) {
      ExecutorKnows(w, t, e);
    } else if HoldsLock(v.threads[t]) && (p.ExternalMarks? || p.ExternalCompletes?) {
      RecorderKnows(w, t, e, p.item);
    }
  }

  /** The new goroutine knows what the one that starts it knew. */
  lemma SpawnedKnows(w: World, t: nat)
    requires Inv(w) && Enabled(w, t, HandOver)
    ensures var v := Step(w, t, HandOver); |v.threads| == |w.threads| + 1 && Knows(v, v.threads[|w.threads|])
  {
    var p := w.threads[t];
    assert Knows(w, p);
    if p.HandsRun? {
      AbandonedStep(w, t, HandOver, p.item);
    } else {
      InternalStep(w, t, HandOver, p.todo);
    }
  }

  lemma InvStep(w: World, t: nat, e: Event)
    requires Inv(w) && Enabled(w, t, e)
    ensures Inv(Step(w, t, e))
  {
    var v := Step(w, t, e);
    LockStep(w, t, e);
    FlagStep(w, t, e);
    PlacesAdvance(w, t, e);
    forall i | 0 <= i < |v.items|
      ensures Guarded(v, i)
    {
      GuardedStep(w, t, e, i);
    }
    forall u | 0 <= u < |v.threads|
      ensures Knows(v, v.threads[u])
    {
      if u == t {
        ActorKnows(w, t, e);
      } else if u < |w.threads| {
        BystanderKnows(w, t, e, u);
      } else {
        SpawnedKnows(w, t);
      }
    }
  }

  // ----- runs ------------------------------------------------------------------------

  datatype Move = Move(thread: nat, event: Event)

  /** Nothing is running yet; the store may hold items of earlier processes. */
  predicate Initial(w: World) {
    && (forall t :: 0 <= t < |w.threads| ==> w.threads[t] == Idle)
    && (forall i :: 0 <= i < |w.items| && w.items[i].external && Recorded(w.items[i]) ==> w.items[i].status == Terminal)
    && w.persist.None?
    && !w.active
    && !w.recovered
  }

  predicate Run(w: World, moves: seq<Move>)
    decreases moves
  {
    moves == [] || (
      && Enabled(w, moves[0].thread, moves[0].event)
      && Run(Step(w, moves[0].thread, moves[0].event), moves[1..]))
  }

  function After(w: World, moves: seq<Move>): World
    requires Run(w, moves)
    decreases moves
  {
    if moves == [] then w else After(Step(w, moves[0].thread, moves[0].event), moves[1..])
  }

  lemma {:induction false} InvRun(w: World, moves: seq<Move>)
    requires Inv(w) && Run(w, moves)
    ensures Inv(After(w, moves))
    decreases moves
  {
    if moves != [] {
      InvStep(w, moves[0].thread, moves[0].event);
      InvRun(Step(w, moves[0].thread, moves[0].event), moves[1..]);
    }
  }

  lemma ReachableInv(w: World, moves: seq<Move>)
    requires Initial(w) && Run(w, moves)
    ensures Inv(After(w, moves))
  {
    InvRun(w, moves);
  }

  /** No claim takes and no recovery resets an external item that is being recorded or was recorded;
      nobody but the holder of the lock changes it. */
  lemma ExternalItemsStayExternal(start: World, moves: seq<Move>, t: nat, e: Event, i: nat)
    requires Initial(start) && Run(start, moves)
    requires Enabled(After(start, moves), t, e) && i < |After(start, moves).items|
    requires After(start, moves).items[i].external
    requires InHand(After(start, moves), i) || Recorded(After(start, moves).items[i])
    ensures var w := After(start, moves); var v := Step(w, t, e);
      && (e.Claim? ==> e.taken != Some(i))
      && (e.Claim? || e.Recover? || w.persist != Some(t) ==> i < |v.items| && v.items[i] == w.items[i])
  {
    ReachableInv(start, moves);
    var w := After(start, moves);
    assert Guarded(w, i);
    if !Records(w.threads[t], i) {
      OnlyItsRecorderActs(w, t, e, i);
    }
  }

  /** When a recording releases the lock, the item it left in the store is terminal exactly if
      creating and marking it succeeded and completing it took effect. */
  lemma TerminalAtReleaseExactly(start: World, moves: seq<Move>, t: nat, i: nat)
    requires Initial(start) && Run(start, moves)
    requires Enabled(After(start, moves), t, Unlock)
    requires After(start, moves).threads[t] == ExternalLeaves(Some(i))
    ensures var w := After(start, moves);
      && i < |w.items| && w.items[i].external
      && (w.items[i].status == Terminal
          <==> w.items[i].create == Succeeded && w.items[i].mark == Succeeded && TookEffect(w.items[i].complete))
  {
    ReachableInv(start, moves);
    assert Knows(After(start, moves), After(start, moves).threads[t]);
  }

  /** Nobody holds the lock: all external items whose recording went well are terminal. */
  lemma TerminalWhenReleased(start: World, moves: seq<Move>, i: nat)
    requires Initial(start) && Run(start, moves)
    requires i < |After(start, moves).items|
    requires After(start, moves).items[i].external && Recorded(After(start, moves).items[i])
    requires After(start, moves).persist.None?
    ensures After(start, moves).items[i].status == Terminal
  {
    ReachableInv(start, moves);
    assert Guarded(After(start, moves), i);
  }

  /** Only the one executor, which holds the active flag, ever claims. */
  lemma ClaimsOnlyWhileActive(start: World, moves: seq<Move>, t: nat, taken: Option<nat>, ok: bool)
    requires Initial(start) && Run(start, moves)
    requires Enabled(After(start, moves), t, Claim(taken, ok))
    ensures After(start, moves).active
    ensures forall u :: 0 <= u < |After(start, moves).threads| && u != t ==> !Executes(After(start, moves).threads[u])
  {
    ReachableInv(start, moves);
  }

  /** The flag is never left behind: while it is set some goroutine is executing. */
  lemma ActiveMeansExecuting(start: World, moves: seq<Move>)
    requires Initial(start) && Run(start, moves)
    ensures After(start, moves).active
       <==> exists t :: 0 <= t < |After(start, moves).threads| && Executes(After(start, moves).threads[t])
  {
    ReachableInv(start, moves);
  }
}
