/** What Manager.Close leaves behind: everything that was installed is closed in the end, exactly if no
    Publish swaps its candidate in after Close has taken the current snapshot out, or the one that is
    left current had been taken out or turned away before. */
module SnapshotClose {
  import opened Text
  import opened Snapshots
  import opened SnapshotRuns

  predicate PublishSwaps(w: World, l: Label) {
    l.Run? && l.thread < |w.threads| && w.threads[l.thread].PubSwap?
  }

  predicate TakesOut(w: World, l: Label) {
    l.Run? && l.thread < |w.threads| && w.threads[l.thread].MgrSwap?
  }

  /** Some Publish swaps in along the run. */
  predicate EverSwapsIn(w: World, run: seq<Label>)
    requires ValidRun(w, run)
    decreases run
  {
    run != [] && (PublishSwaps(w, run[0]) || EverSwapsIn(Step(w, run[0]), run[1..]))
  }

  /** Close takes the current snapshot out along the run. */
  predicate EverTakesOut(w: World, run: seq<Label>)
    requires ValidRun(w, run)
    decreases run
  {
    run != [] && (TakesOut(w, run[0]) || EverTakesOut(Step(w, run[0]), run[1..]))
  }

  /** Some Publish swaps in after Close has taken the current snapshot out. */
  predicate SwapsInLate(w: World, run: seq<Label>)
    requires ValidRun(w, run)
    decreases run
  {
    run != [] && (
      || (TakesOut(w, run[0]) && EverSwapsIn(Step(w, run[0]), run[1..]))
      || SwapsInLate(Step(w, run[0]), run[1..]))
  }

  // ----- Close takes out once ------------------------------------------------------

  ghost predicate OneCloser(w: World) {
    && (!w.managerClosed ==> forall t :: 0 <= t < |w.threads| ==> !w.threads[t].MgrSwap?)
    && (forall t, u :: 0 <= t < u < |w.threads| ==> !(w.threads[t].MgrSwap? && w.threads[u].MgrSwap?))
  }

  /** Close has taken out, and nobody will again. */
  ghost predicate TakenOut(w: World) {
    w.managerClosed && forall t :: 0 <= t < |w.threads| ==> !w.threads[t].MgrSwap?
  }

  lemma OneCloserStep(w: World, l: Label)
    requires OneCloser(w) && Enabled(w, l)
    ensures OneCloser(Step(w, l))
    ensures TakesOut(w, l) ==> TakenOut(Step(w, l))
    ensures TakenOut(w) ==> TakenOut(Step(w, l))
  {
    var r := Step(w, l);
    if l.Run? || l.Begin? || l.GiveUp? {
      assert forall u :: 0 <= u < |w.threads| && u != l.thread ==> r.threads[u] == w.threads[u];
    }
  }

  lemma CurrentStep(w: World, l: Label)
    requires TakenOut(w) && Enabled(w, l)
    ensures PublishSwaps(w, l) ==> Step(w, l).current.Some?
    ensures !PublishSwaps(w, l) ==> Step(w, l).current == w.current
  {
  }

  /** After Close has taken out, the current snapshot stays absent exactly if nobody swaps in. */
  lemma {:induction false} EmptyOnceTakenOut(w: World, run: seq<Label>)
    requires OneCloser(w) && TakenOut(w) && ValidRun(w, run)
    ensures After(w, run).current.None? <==> w.current.None? && !EverSwapsIn(w, run)
    ensures !SwapsInLate(w, run)
    decreases run
  {
    if run != [] {
      OneCloserStep(w, run[0]);
      CurrentStep(w, run[0]);
      EmptyOnceTakenOut(Step(w, run[0]), run[1..]);
      assert !TakesOut(w, run[0]);
    }
  }

  lemma {:induction false} EmptyAfterClose(w: World, run: seq<Label>)
    requires OneCloser(w) && ValidRun(w, run) && EverTakesOut(w, run)
    ensures After(w, run).current.None? <==> !SwapsInLate(w, run)
    decreases run
  {
    OneCloserStep(w, run[0]);
    if TakesOut(w, run[0]) {
      assert Step(w, run[0]).current.None?;
      EmptyOnceTakenOut(Step(w, run[0]), run[1..]);
    } else {
      EmptyAfterClose(Step(w, run[0]), run[1..]);
    }
  }

  // ----- everything installed is closed ------------------------------------------------

  /** What has been made current and is not current any more is closed in the end. */
  lemma PastOnesAreClosed(first: Option<bool>, threads: nat, run: seq<Label>, s: nat)
    requires ValidRun(Initial(first, threads), run)
    requires var w := After(Initial(first, threads), run);
      s < |w.snaps| && w.snaps[s].installed && w.current != Some(s) && Quiescent(w) && NoLeaseOn(w, s)
    ensures After(Initial(first, threads), run).snaps[s].closed
  {
    SwappedReachable(first, threads, run, s);
    QuiescentMeansClosed(first, threads, run, s);
  }

  /** Once Close has taken out, all calls have returned and all leases are released: everything that was
      ever installed is closed, exactly if no Publish swapped in after Close had taken out, or the snapshot
      left current was made current more than once, or was turned away. */
  lemma CloseLeavesNothingOpen(first: Option<bool>, threads: nat, run: seq<Label>)
    requires ValidRun(Initial(first, threads), run)
    requires EverTakesOut(Initial(first, threads), run)
    requires var w := After(Initial(first, threads), run);
             Quiescent(w) && forall i :: 0 <= i < |w.leases| ==> w.leases[i].released
    ensures var w := After(Initial(first, threads), run);
            && (w.current.None? <==> !SwapsInLate(Initial(first, threads), run))
            && (w.current.Some? ==> w.current.value < |w.snaps|)
            && ((forall s :: 0 <= s < |w.snaps| && w.snaps[s].installed ==> w.snaps[s].closed)
                <==> (w.current.Some? ==>
                        || TimesCurrent(first, threads, run, w.current.value) > 1
                        || w.snaps[w.current.value].rejected))
  {
    var w := After(Initial(first, threads), run);
    EmptyAfterClose(Initial(first, threads), run);
    forall s | 0 <= s < |w.snaps| && w.snaps[s].installed && w.current != Some(s)
      ensures w.snaps[s].closed
    {
      PastOnesAreClosed(first, threads, run, s);
    }
    if w.current.Some? {
      SwappedReachable(first, threads, run, w.current.value);
      CurrentIsOpenExactly(first, threads, run, w.current.value);
    }
  }
}
