/** What a failed recording leaves in the store, and that it can be claimed. */
module RunnerClaims {
  import opened Text
  import opened Runner
  import opened RunnerProof
  import opened RunnerItems

  /** The run goes from one world to the other. */
  ghost predicate Path(w: World, moves: seq<Move>, v: World) {
    Run(w, moves) && After(w, moves) == v
  }

  lemma {:induction false} RunSnoc(w: World, moves: seq<Move>, t: nat, e: Event)
    requires Run(w, moves) && Enabled(After(w, moves), t, e)
    ensures Run(w, moves + [Move(t, e)])
    ensures After(w, moves + [Move(t, e)]) == Step(After(w, moves), t, e)
    decreases moves
  {
    if moves == [] {
      assert moves + [Move(t, e)] == [Move(t, e)] && [Move(t, e)][1..] == [];
      assert Run(Step(w, t, e), []);
    } else {
      RunSnoc(Step(w, moves[0].thread, moves[0].event), moves[1..], t, e);
      assert (moves + [Move(t, e)])[1..] == moves[1..] + [Move(t, e)];
    }
  }

  /** One more step of a run under construction. */
  lemma Continue(w: World, moves: seq<Move>, v: World, t: nat, e: Event, next: World) returns (longer: seq<Move>)
    requires Path(w, moves, v) && Enabled(v, t, e) && Step(v, t, e) == next
    ensures longer == moves + [Move(t, e)] && Path(w, longer, next)
  {
    RunSnoc(w, moves, t, e);
    longer := moves + [Move(t, e)];
  }

  // ----- an unfinished item can be claimed -------------------------------------

  /** In some continuation the item is claimed. */
  ghost predicate CanBeClaimed(w: World, i: nat) {
    exists moves, t :: Run(w, moves) && Enabled(After(w, moves), t, Claim(Some(i), true))
  }

  /** Nobody holds lock or flag, and this goroutine has nothing to do. */
  predicate Free(v: World, t: nat) {
    v.persist.None? && !v.active && t < |v.threads| && v.threads[t] == Idle
  }

  /** A goroutine that waits to record can fail to find its keyword. */
  lemma WaiterBecomesFree(w: World, t: nat) returns (moves: seq<Move>, v: World)
    requires w.persist.None? && !w.active && t < |w.threads| && w.threads[t].ExternalWaits?
    ensures Path(w, moves, v) && Free(v, t) && v.items == w.items
  {
    var a := Step(w, t, Lock);
    moves := Continue(w, [], w, t, Lock, a);
    var b := Step(a, t, FindFails);
    moves := Continue(w, moves, a, t, FindFails, b);
    v := Step(b, t, Unlock);
    moves := Continue(w, moves, b, t, Unlock, v);
  }

  /** An executor can be cancelled, and then gives the flag back. */
  lemma ExecutorBecomesFree(w: World, before: seq<Move>, u: World, t: nat) returns (moves: seq<Move>, v: World)
    requires Path(w, before, u) && u.persist.None? && t < |u.threads|
    requires Executes(u.threads[t]) && !HandsOver(u.threads[t])
    ensures Path(w, moves, v) && Free(v, t) && v.items == u.items
  {
    var a := u;
    moves := before;
    if !u.threads[t].Releases? {
      a := Step(u, t, Cancel);
      moves := Continue(w, moves, u, t, Cancel, a);
    }
    v := Step(a, t, ReleaseActive);
    moves := Continue(w, moves, a, t, ReleaseActive, v);
  }

  /** Whoever answers for the flag can give it back; a starter does so through the goroutine it starts. */
  lemma SomeoneBecomesFree(w: World) returns (moves: seq<Move>, v: World, t: nat)
    requires Inv(w) && w.persist.None? && |w.threads| > 0
    ensures Path(w, moves, v) && Free(v, t) && v.items == w.items
  {
    moves, v := [], w;
    if w.active {
      t :| 0 <= t < |w.threads| && Executes(w.threads[t]);
      if HandsOver(w.threads[t]) {
        v := Step(w, t, HandOver);
        moves := Continue(w, [], w, t, HandOver, v);
        t := |w.threads|;
      }
      moves, v := ExecutorBecomesFree(w, moves, v, t);
    } else {
      t := 0;
      assert !HoldsLock(w.threads[0]) && !Executes(w.threads[0]);
      if !w.threads[0].Idle? {
        moves, v := WaiterBecomesFree(w, 0);
      }
    }
  }

  /** A failed claim calls for recovery, which makes a running item pending. */
  lemma RunningBecomesPending(w: World, before: seq<Move>, v: World, t: nat, i: nat)
      returns (moves: seq<Move>, r: World)
    requires Path(w, before, v) && Free(v, t) && ItemIn(v.items, i, Running)
    ensures Path(w, moves, r) && Free(r, t) && ItemIn(r.items, i, Pending)
  {
    var a := Step(v, t, StartPending);
    moves := Continue(w, before, v, t, StartPending, a);
    var b := Step(a, t, Claim(None, false));
    moves := Continue(w, moves, a, t, Claim(None, false), b);
    var c := Step(b, t, ReleaseActive);
    moves := Continue(w, moves, b, t, ReleaseActive, c);
    assert !c.recovered && Free(c, t) && c.items == v.items;
    r := Step(c, t, Recover(true, false));
    moves := Continue(w, moves, c, t, Recover(true, false), r);
  }

  lemma UnfinishedCanBeClaimed(w: World, i: nat)
    requires Inv(w) && w.persist.None? && |w.threads| > 0 && i < |w.items| && w.items[i].status != Terminal
    ensures CanBeClaimed(w, i)
  {
    var moves, v, t := SomeoneBecomesFree(w);
    if v.items[i].status == Running {
      moves, v := RunningBecomesPending(w, moves, v, t, i);
    }
    var r := Step(v, t, StartPending);
    moves := Continue(w, moves, v, t, StartPending, r);
    assert Enabled(After(w, moves), t, Claim(Some(i), true));
  }

  // ----- a terminal one cannot ----------------------------------------------------

  lemma TerminalCannotBeClaimed(w: World, i: nat)
    requires Inv(w) && AllAhead(w) && ItemIn(w.items, i, Terminal)
    ensures !CanBeClaimed(w, i)
  {
    if CanBeClaimed(w, i) {
      var moves, t :| Run(w, moves) && Enabled(After(w, moves), t, Claim(Some(i), true));
      FinishedAlongRun(w, moves, i);
    }
  }

  /** Once the lock is free, an item can still be claimed, in some continuation, exactly if it is not terminal. */
  lemma ClaimableExactly(start: World, moves: seq<Move>, i: nat)
    requires Initial(start) && Run(start, moves) && |After(start, moves).threads| > 0
    requires After(start, moves).persist.None? && i < |After(start, moves).items|
    ensures CanBeClaimed(After(start, moves), i) <==> After(start, moves).items[i].status != Terminal
  {
    AheadAlongRun(start, moves);
    if After(start, moves).items[i].status == Terminal {
      TerminalCannotBeClaimed(After(start, moves), i);
    } else {
      UnfinishedCanBeClaimed(After(start, moves), i);
    }
  }

  /** So what a recording leaves behind when it releases the lock can be claimed exactly if creating or
      marking it failed or completing it had no effect. */
  lemma LeftBehindIsClaimableExactly(start: World, moves: seq<Move>, t: nat, i: nat)
    requires Initial(start) && Run(start, moves)
    requires Enabled(After(start, moves), t, Unlock)
    requires After(start, moves).threads[t] == ExternalLeaves(Some(i))
    ensures var w := After(start, moves);
      && i < |w.items|
      && (CanBeClaimed(Step(w, t, Unlock), i)
          <==> w.items[i].create != Succeeded || w.items[i].mark != Succeeded || !TookEffect(w.items[i].complete))
  {
    TerminalAtReleaseExactly(start, moves, t, i);
    var longer := Continue(start, moves, After(start, moves), t, Unlock, Step(After(start, moves), t, Unlock));
    ClaimableExactly(start, longer, i);
  }

  // ----- concrete runs ---------------------------------------------------------------

  function Fresh(): World {
    World([], [Idle, Idle], None, false, false)
  }

  /** A recording by goroutine 0 under the lock, while goroutine 1 is idle. */
  function Locked(items: seq<Item>, p: Place): World {
    World(items, [p, Idle], Some(0), false, false)
  }

  const CREATED := Item(true, Pending, Succeeded, NotMade, NotMade)

  lemma CreatesItem() returns (moves: seq<Move>)
    ensures Initial(Fresh()) && Path(Fresh(), moves, Locked([CREATED], ExternalMarks(0)))
  {
    var w := World([], [ExternalWaits, Idle], None, false, false);
    moves := Continue(Fresh(), [], Fresh(), 0, StartExternal, w);
    moves := Continue(Fresh(), moves, w, 0, Lock, Locked([], ExternalCreates));
    moves := Continue(Fresh(), moves, Locked([], ExternalCreates), 0, Create(true, false),
        Locked([CREATED], ExternalMarks(0)));
  }

  /** The lock is released with the item pending; goroutine 1 claims it and starts an executor for it. */
  lemma ClaimsPending(before: seq<Move>, item: Item, recovered: bool) returns (moves: seq<Move>)
    requires item.status == Pending && Path(Fresh(), before, World([item], [Idle, Idle], None, false, recovered))
    ensures Path(Fresh(), moves, World([item.(status := Running)], [Idle, Idle, Runs(0)], None, true, recovered))
  {
    var running := item.(status := Running);
    var v := World([item], [Idle, Claims(true)], None, true, recovered);
    var w := World([running], [Idle, HandsRun(0)], None, true, recovered);
    moves := Continue(Fresh(), before, World([item], [Idle, Idle], None, false, recovered), 1, StartPending, v);
    moves := Continue(Fresh(), moves, v, 1, Claim(Some(0), true), w);
    moves := Continue(Fresh(), moves, w, 1, HandOver, World([running], [Idle, Idle, Runs(0)], None, true, recovered));
  }

  /** Marking fails without effect: the item stays pending and an executor takes it as its own. */
  lemma FailedMarkIsClaimed() returns (moves: seq<Move>)
    ensures Initial(Fresh()) && Run(Fresh(), moves)
    ensures After(Fresh(), moves).threads == [Idle, Idle, Runs(0)]
    ensures After(Fresh(), moves).items == [CREATED.(status := Running, mark := Failed(false))]
  {
    moves := CreatesItem();
    var left := CREATED.(mark := Failed(false));
    moves := Continue(Fresh(), moves, Locked([CREATED], ExternalMarks(0)), 0, Mark(false, false),
                      Locked([left], ExternalLeaves(Some(0))));
    moves := Continue(Fresh(), moves, Locked([left], ExternalLeaves(Some(0))), 0, Unlock,
                      World([left], [Idle, Idle], None, false, false));
    moves := ClaimsPending(moves, left, false);
  }

  /** Completing fails without effect and the lock is released with the item running. */
  lemma FailedCompleteLeavesRunning() returns (moves: seq<Move>)
    ensures Initial(Fresh())
    ensures Path(Fresh(), moves, World([CREATED.(status := Running, mark := Succeeded, complete := Failed(false))],
                                       [Idle, Idle], None, false, false))
  {
    moves := CreatesItem();
    var marked := CREATED.(status := Running, mark := Succeeded);
    var left := marked.(complete := Failed(false));
    moves := Continue(Fresh(), moves, Locked([CREATED], ExternalMarks(0)), 0, Mark(true, false),
                      Locked([marked], ExternalCompletes(0)));
    moves := Continue(Fresh(), moves, Locked([marked], ExternalCompletes(0)), 0, Complete(false, false),
                      Locked([left], ExternalLeaves(Some(0))));
    moves := Continue(Fresh(), moves, Locked([left], ExternalLeaves(Some(0))), 0, Unlock,
                      World([left], [Idle, Idle], None, false, false));
  }

  /** Then recovery makes the item pending, and an executor takes it. */
  lemma FailedCompleteIsClaimed() returns (moves: seq<Move>)
    ensures Initial(Fresh()) && Run(Fresh(), moves)
    ensures After(Fresh(), moves).threads == [Idle, Idle, Runs(0)]
    ensures After(Fresh(), moves).items == [CREATED.(status := Running, mark := Succeeded, complete := Failed(false))]
  {
    moves := FailedCompleteLeavesRunning();
    var left := CREATED.(status := Running, mark := Succeeded, complete := Failed(false));
    var pending := left.(status := Pending);
    moves := Continue(Fresh(), moves, World([left], [Idle, Idle], None, false, false), 1, Recover(true, false),
                      World([pending], [Idle, Idle], None, false, true));
    moves := ClaimsPending(moves, pending, true);
  }
}
