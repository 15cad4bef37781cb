/** Candidates that are published once each, as BuildCandidate makes them: none is made current twice, and
    none is turned away after it was current, so the exceptions of the other theorems do not arise. */
module SnapshotOnce {
  import opened Text
  import opened Snapshots
  import opened SnapshotRuns
  import opened SnapshotWindows
  import opened SnapshotClose

  predicate Bringing(pc: Pc, s: nat) {
    pc == PubStart(s) || pc == PubSwap(s)
  }

  /** The snapshot a thread has counted on, or is about to. */
  predicate Uses(pc: Pc, s: nat) {
    pc == AcqAdd(s) || pc == AcqCheck(s)
  }

  /** What is used has been installed; what is being brought in has not, and has not been turned away. */
  ghost predicate UseOk(w: World, s: nat)
    requires s < |w.snaps|
  {
    var x := w.snaps[s];
    && (x.installed || x.rejected ==> x.offered)
    && !(x.installed && x.rejected)
    && (w.current == Some(s) ==> x.installed)
    && (forall i :: 0 <= i < |w.leases| && w.leases[i].snap == s ==> x.installed)
    && (forall t :: 0 <= t < |w.threads| && Uses(w.threads[t], s) ==> x.installed)
    && (forall t :: 0 <= t < |w.threads| && Bringing(w.threads[t], s) ==> x.offered && !x.installed && !x.rejected)
    && (forall t, u :: 0 <= t < u < |w.threads| ==> !(Bringing(w.threads[t], s) && Bringing(w.threads[u], s)))
  }

  ghost predicate UsesOk(w: World) {
    forall s :: 0 <= s < |w.snaps| ==> UseOk(w, s)
  }

  /** One access never makes a thread use or bring in anything new but the current snapshot. */
  lemma UseMoves(pc: Pc, x: Snap, current: Option<nat>, managerClosed: bool, s: nat)
    ensures var next := NextPc(pc, x, current, managerClosed);
      && (Bringing(next, s) ==> Bringing(pc, s))
      && (Uses(next, s) ==> Uses(pc, s) || current == Some(s))
      && (pc == PubSwap(s) || (pc == PubStart(s) && managerClosed) ==> !Bringing(next, s))
      && (NextCurrent(pc, current) == Some(s) ==> current == Some(s) || pc == PubSwap(s))
    ensures Effect(x, pc, managerClosed).offered == x.offered
    ensures Effect(x, pc, managerClosed).installed == (x.installed || pc.PubSwap?)
    ensures Effect(x, pc, managerClosed).rejected == (x.rejected || (pc.PubStart? && managerClosed))
  {
  }

  lemma UseRun(w: World, t: nat, s: nat)
    requires Inv(w) && Enabled(w, Run(t)) && s < |w.snaps| && UseOk(w, s)
    ensures UseOk(RunThread(w, t), s)
  {
    var pc, r := w.threads[t], RunThread(w, t);
    UseMoves(pc, SnapAt(w.snaps, Target(pc)), w.current, w.managerClosed, s);
    assert ThreadOk(w, t);
    var x, y := w.snaps[s], r.snaps[s];
    assert y.offered == x.offered && y.installed == (x.installed || pc == PubSwap(s));
    forall i | 0 <= i < |r.leases| && r.leases[i].snap == s
      ensures y.installed
    {
      if i >= |w.leases| {
        assert Uses(pc, s);
      }
    }
    forall u | 0 <= u < |r.threads| && Bringing(r.threads[u], s)
      ensures y.offered && !y.installed && !y.rejected
    {
      assert Bringing(w.threads[u], s);
      assert u != t ==> !Bringing(pc, s);
    }
  }

  lemma UseBegin(w: World, t: nat, op: Op, s: nat)
    requires Enabled(w, Begin(t, op)) && FreshLabel(w, Begin(t, op)) && s < |w.snaps| && UseOk(w, s)
    ensures UseOk(BeginOp(w, t, op), s)
  {
    var r := BeginOp(w, t, op);
    StepLeases(w, Begin(t, op));
    forall u | 0 <= u < |r.threads| && Bringing(r.threads[u], s)
      ensures r.snaps[s].offered && !r.snaps[s].installed && !r.snaps[s].rejected
    {
      assert u != t ==> Bringing(w.threads[u], s);
    }
  }

  lemma UsesStep(w: World, l: Label)
    requires Inv(w) && UsesOk(w) && Enabled(w, l) && FreshLabel(w, l)
    ensures UsesOk(Step(w, l))
  {
    var r := Step(w, l);
    forall s | 0 <= s < |r.snaps|
      ensures UseOk(r, s)
    {
      match l
      case Run(t) => UseRun(w, t, s);
      case Begin(t, op) => UseBegin(w, t, op, s);
      case Create(_) => UseCreate(w, l.hasManager, s);
      case GiveUp(t) => assert UseOk(w, s);
    }
  }

  lemma UseCreate(w: World, m: bool, s: nat)
    requires Inv(w) && UsesOk(w) && s <= |w.snaps|
    ensures UseOk(w.(snaps := w.snaps + [NewSnap(m)]), s)
  {
    if s < |w.snaps| {
      assert UseOk(w, s);
    } else {
      forall t | 0 <= t < |w.threads|
        ensures !Uses(w.threads[t], s) && !Bringing(w.threads[t], s)
      {
        assert ThreadOk(w, t);
      }
    }
  }

  /** A candidate that is published once is not leased when it is turned away. */
  lemma NotTurnedAwayUnder(w: World, l: Label, i: nat)
    requires Inv(w) && UsesOk(w) && Enabled(w, l)
    ensures !TurnsAwayUnder(w, l, i)
  {
    if TurnsAwayUnder(w, l, i) {
      assert UseOk(w, w.leases[i].snap) && Bringing(w.threads[l.thread], w.leases[i].snap);
    }
  }

  lemma {:induction false} OnceAlongRun(w: World, run: seq<Label>, s: nat, n: nat, i: nat)
    requires Inv(w) && UsesOk(w) && Swapped(w, s, n) && n <= 1 && ValidRun(w, run) && FreshRun(w, run)
    ensures UsesOk(After(w, run)) && n + SwapIns(w, run, s) <= 1 && !TurnedAwayUnder(w, run, i)
    decreases run
  {
    if run != [] {
      InvStep(w, run[0]);
      UsesStep(w, run[0]);
      SwappedStep(w, run[0], s, n);
      NotTurnedAwayUnder(w, run[0], i);
      if SwapsIn(w, run[0], s) {
        assert ThreadOk(w, run[0].thread) && UseOk(w, s) && Bringing(w.threads[run[0].thread], s);
      }
      OnceAlongRun(Step(w, run[0]), run[1..], s, n + One(SwapsIn(w, run[0], s)), i);
    }
  }

  lemma UsesInitial(first: Option<bool>, threads: nat)
    ensures UsesOk(Initial(first, threads))
  {
  }

  /** Each snapshot is made current at most once, and not if it is turned away, which happens under no lease. */
  lemma PublishedOnce(first: Option<bool>, threads: nat, run: seq<Label>, s: nat, i: nat)
    requires ValidRun(Initial(first, threads), run) && FreshRun(Initial(first, threads), run)
    ensures TimesCurrent(first, threads, run, s) <= 1
    ensures var w := After(Initial(first, threads), run);
      s < |w.snaps| ==> !(w.snaps[s].installed && w.snaps[s].rejected)
    ensures !TurnedAwayUnder(Initial(first, threads), run, i)
  {
    InvInitial(first, threads);
    UsesInitial(first, threads);
    SwappedInitial(first, threads, s);
    OnceAlongRun(Initial(first, threads), run, s, One(first.Some? && s == 0), i);
    var w := After(Initial(first, threads), run);
    assert s < |w.snaps| ==> UseOk(w, s);
  }

  /** The current snapshot is then neither retired nor closed, and Acquire goes round its loop again only after
      the snapshot it had loaded was swapped out. */
  lemma CurrentIsOpen(first: Option<bool>, threads: nat, run: seq<Label>, s: nat)
    requires ValidRun(Initial(first, threads), run) && FreshRun(Initial(first, threads), run)
    requires After(Initial(first, threads), run).current == Some(s)
    ensures var w := After(Initial(first, threads), run);
            && s < |w.snaps| && !w.snaps[s].closed && !Left(w, s)
            && (forall t :: 0 <= t < |w.threads| ==> w.threads[t] != AcqUndo(s))
  {
    CurrentIsOpenExactly(first, threads, run, s);
    SwappedReachable(first, threads, run, s);
    PublishedOnce(first, threads, run, s, 0);
  }

  /** And no snapshot is closed under a lease if, besides, no grant falls into a window. */
  lemma NeverClosedUnderLease(first: Option<bool>, threads: nat, run: seq<Label>, i: nat)
    requires ValidRun(Initial(first, threads), run) && FreshRun(Initial(first, threads), run)
    requires PromptRun(Initial(first, threads), run) && Out(After(Initial(first, threads), run), i)
    ensures !ClosedUnder(After(Initial(first, threads), run), i)
  {
    PromptGrantsCloseLeasedExactly(first, threads, run, i);
    PublishedOnce(first, threads, run, 0, i);
  }

  /** What Close leaves is closed exactly if no Publish swaps in after Close has taken out. */
  lemma NothingOpenExactly(first: Option<bool>, threads: nat, run: seq<Label>)
    requires ValidRun(Initial(first, threads), run) && FreshRun(Initial(first, threads), run)
    requires EverTakesOut(Initial(first, threads), run)
    requires var w := After(Initial(first, threads), run);
             Quiescent(w) && forall i :: 0 <= i < |w.leases| ==> w.leases[i].released
    ensures var w := After(Initial(first, threads), run);
            (forall s :: 0 <= s < |w.snaps| && w.snaps[s].installed ==> w.snaps[s].closed)
            <==> !SwapsInLate(Initial(first, threads), run)
  {
    CloseLeavesNothingOpen(first, threads, run);
    var w := After(Initial(first, threads), run);
    if w.current.Some? {
      SwappedReachable(first, threads, run, w.current.value);
      PublishedOnce(first, threads, run, w.current.value, 0);
    }
  }
}
