/** When a snapshot is closed although a lease on it is out: exactly if the lease was granted
    between a thread's reading of a zero count and its winning compare-and-swap, or the snapshot
    was turned away by a closed manager while it was leased. */
module SnapshotWindows {
  import opened Text
  import opened Snapshots
  import opened SnapshotRuns

  // ----- windows -------------------------------------------------------------

  /** The thread has seen that nothing is counted on s and has not tried to close it yet. */
  predicate InWindow(pc: Pc, s: nat) {
    pc == RelRecheck(s) || pc == AcqRecheck(s) || (pc.CloseCas? && pc.s == s)
  }

  /** The access that opens a window: it reads a count of zero. */
  predicate ReadsZero(pc: Pc, x: Snap) {
    ((pc.AcqUndo? || pc.RelSub?) && x.refs - 1 == 0) || (pc.RetLoad? && x.refs == 0)
  }

  /** Publish turns its candidate away, and goes on to close it without reading the count. */
  predicate TurnsAway(pc: Pc, managerClosed: bool) {
    pc.PubStart? && managerClosed
  }

  /** For each thread, how many leases had been granted when it last read a zero count;
      none when it turns its candidate away, since then it has read nothing. */
  function MarksAfter(w: World, marks: seq<nat>, l: Label): seq<nat> {
    if l.Run? && l.thread < |w.threads| && l.thread < |marks| then
      var pc := w.threads[l.thread];
      if ReadsZero(pc, SnapAt(w.snaps, Target(pc))) then marks[l.thread := |w.leases|]
      else if TurnsAway(pc, w.managerClosed) then marks[l.thread := 0]
      else marks
    else marks
  }

  /** What was out when the window opened has been released. */
  ghost predicate MarkOk(w: World, t: nat, mark: nat)
    requires t < |w.threads|
  {
    && mark <= |w.leases|
    && forall i :: 0 <= i < mark && InWindow(w.threads[t], w.leases[i].snap) ==> w.leases[i].released
  }

  ghost predicate MarksOk(w: World, marks: seq<nat>) {
    |marks| == |w.threads| && forall t :: 0 <= t < |marks| ==> MarkOk(w, t, marks[t])
  }

  /** Leases are only added and released. */
  ghost predicate LeasesGrow(a: seq<Lease>, b: seq<Lease>) {
    && |a| <= |b|
    && forall i :: 0 <= i < |a| ==> b[i].snap == a[i].snap && (a[i].released ==> b[i].released)
  }

  lemma StepLeases(w: World, l: Label)
    requires Enabled(w, l)
    ensures LeasesGrow(w.leases, Step(w, l).leases)
    ensures l.Run? ==> w.leases <= Step(w, l).leases
  {
  }

  lemma {:induction false} NothingUnreleased(ls: seq<Lease>, s: nat, i: nat)
    requires Unreleased(ls, s) == 0 && i < |ls| && ls[i].snap == s
    ensures ls[i].released
  {
    if !ls[i].released {
      UnreleasedPositive(ls, i, s);
    }
  }

  /** At a zero reading no lease on the snapshot is out. */
  lemma ZeroMeansReleased(w: World, t: nat, i: nat)
    requires Inv(w) && t < |w.threads| && i < |w.leases|
    requires ReadsZero(w.threads[t], SnapAt(w.snaps, Target(w.threads[t])))
    requires Target(w.threads[t]) == Some(w.leases[i].snap)
    ensures w.leases[i].released
  {
    var s := w.leases[i].snap;
    assert ThreadOk(w, t) && SnapOk(w.snaps[s], TallyOf(w, s));
    if w.threads[t].AcqUndo? || w.threads[t].RelSub? {
      CountPositive(w.threads, t, Pinning, s);
    }
    NothingUnreleased(w.leases, s, i);
  }

  /** Entering a window takes a zero reading or a candidate turned away. */
  lemma WindowOpens(pc: Pc, x: Snap, current: Option<nat>, managerClosed: bool, s: nat)
    requires InWindow(NextPc(pc, x, current, managerClosed), s)
    ensures Target(pc) == Some(s)
    ensures InWindow(pc, s) || ReadsZero(pc, x) || TurnsAway(pc, managerClosed)
  {
  }

  lemma MarkRun(w: World, marks: seq<nat>, t: nat)
    requires Inv(w) && MarksOk(w, marks) && Enabled(w, Run(t))
    ensures MarkOk(RunThread(w, t), t, MarksAfter(w, marks, Run(t))[t])
  {
    var pc := w.threads[t];
    var x := SnapAt(w.snaps, Target(pc));
    var r := RunThread(w, t);
    var mark := MarksAfter(w, marks, Run(t))[t];
    StepLeases(w, Run(t));
    assert MarkOk(w, t, marks[t]);
    forall i | 0 <= i < mark && InWindow(r.threads[t], r.leases[i].snap)
      ensures r.leases[i].released
    {
      WindowOpens(pc, x, w.current, w.managerClosed, r.leases[i].snap);
      assert r.leases[i] == w.leases[i];
      if ReadsZero(pc, x) {
        ZeroMeansReleased(w, t, i);
      }
    }
  }

  lemma MarksStep(w: World, marks: seq<nat>, l: Label)
    requires Inv(w) && MarksOk(w, marks) && Enabled(w, l)
    ensures MarksOk(Step(w, l), MarksAfter(w, marks, l))
  {
    var r := Step(w, l);
    StepLeases(w, l);
    forall t | 0 <= t < |marks|
      ensures MarkOk(r, t, MarksAfter(w, marks, l)[t])
    {
      assert MarkOk(w, t, marks[t]);
      if l == Run(t) {
        MarkRun(w, marks, t);
      } else {
        assert r.threads[t] == w.threads[t] || !exists s :: InWindow(r.threads[t], s);
      }
    }
  }

  // ----- the winning compare-and-swap ------------------------------------------

  /** This step is the compare-and-swap that closes s. */
  predicate Closes(w: World, l: Label, s: nat) {
    && l.Run? && l.thread < |w.threads| && s < |w.snaps| && !w.snaps[s].closed
    && w.threads[l.thread].CloseCas? && w.threads[l.thread].s == s
  }

  predicate LeasedOn(w: World, i: nat, s: nat) {
    i < |w.leases| && w.leases[i] == Lease(s, false)
  }

  /** A snapshot is closed while leased exactly if a lease on it that was granted since the
      closing thread read its zero is still out. */
  lemma ClosesLeasedExactly(w: World, marks: seq<nat>, l: Label, s: nat)
    requires Inv(w) && MarksOk(w, marks) && Closes(w, l, s)
    ensures (exists i: nat :: LeasedOn(w, i, s)) <==> (exists i: nat :: marks[l.thread] <= i && LeasedOn(w, i, s))
  {
    assert MarkOk(w, l.thread, marks[l.thread]);
    if i: nat :| LeasedOn(w, i, s) {
      assert InWindow(w.threads[l.thread], w.leases[i].snap);
      assert marks[l.thread] <= i;
    }
  }

  // ----- whole runs ----------------------------------------------------------------

  /** The step closes the snapshot of lease i, which was granted in the closing thread's window and is out. */
  predicate LateFor(w: World, marks: seq<nat>, l: Label, i: nat) {
    && i < |w.leases| && !w.leases[i].released
    && Closes(w, l, w.leases[i].snap)
    && l.thread < |marks| && marks[l.thread] <= i
  }

  predicate LateIn(w: World, marks: seq<nat>, run: seq<Label>, i: nat)
    requires ValidRun(w, run)
    decreases run
  {
    run != [] && (LateFor(w, marks, run[0], i) || LateIn(Step(w, run[0]), MarksAfter(w, marks, run[0]), run[1..], i))
  }

  predicate ClosedUnder(w: World, i: nat) {
    i < |w.leases| && w.leases[i].snap < |w.snaps| && w.snaps[w.leases[i].snap].closed
  }

  predicate Out(w: World, i: nat) {
    i < |w.leases| && !w.leases[i].released
  }

  lemma ClosedUnderStep(w: World, marks: seq<nat>, l: Label, i: nat)
    requires Inv(w) && MarksOk(w, marks) && Enabled(w, l) && Out(Step(w, l), i)
    ensures ClosedUnder(Step(w, l), i) <==> ClosedUnder(w, i) || LateFor(w, marks, l, i)
  {
    StepLeases(w, l);
    if l.Run? {
      ClosedUnderRun(w, marks, l.thread, i);
    } else if i < |w.leases| {
      assert w.leases[i].snap < |w.snaps|;
    }
  }

  lemma ClosedUnderRun(w: World, marks: seq<nat>, t: nat, i: nat)
    requires Inv(w) && MarksOk(w, marks) && Enabled(w, Run(t)) && Out(RunThread(w, t), i)
    ensures ClosedUnder(RunThread(w, t), i) <==> ClosedUnder(w, i) || LateFor(w, marks, Run(t), i)
  {
    var pc := w.threads[t];
    assert ThreadOk(w, t) && MarkOk(w, t, marks[t]);
    if i < |w.leases| {
      var s := w.leases[i].snap;
      assert s < |w.snaps| && RunThread(w, t).leases[i] == w.leases[i];
      if Closes(w, Run(t), s) {
        assert InWindow(pc, s);
      } else {
        assert RunThread(w, t).snaps[s].closed == w.snaps[s].closed;
      }
    } else {
      assert pc.AcqCheck? && i == |w.leases|;
    }
  }

  lemma {:induction false} OutBefore(w: World, run: seq<Label>, i: nat)
    requires ValidRun(w, run) && Out(After(w, run), i) && i < |w.leases|
    ensures Out(w, i)
    decreases run
  {
    if run != [] {
      StepLeases(w, run[0]);
      OutBefore(Step(w, run[0]), run[1..], i);
    }
  }

  lemma {:induction false} ClosedUnderAlongRun(w: World, marks: seq<nat>, run: seq<Label>, i: nat)
    requires Inv(w) && MarksOk(w, marks) && ValidRun(w, run) && Out(After(w, run), i)
    ensures ClosedUnder(After(w, run), i) <==> ClosedUnder(w, i) || LateIn(w, marks, run, i)
    decreases run
  {
    if run != [] {
      var l, r, after := run[0], Step(w, run[0]), MarksAfter(w, marks, run[0]);
      InvStep(w, l);
      MarksStep(w, marks, l);
      ClosedUnderAlongRun(r, after, run[1..], i);
      StepLeases(w, l);
      if i < |r.leases| {
        OutBefore(r, run[1..], i);
        ClosedUnderStep(w, marks, l, i);
      }
    }
  }

  function NoMarks(threads: nat): seq<nat> {
    seq(threads, _ => 0)
  }

  /** In every run, whatever overlaps: a lease that is out has its snapshot closed under it exactly if, somewhere
      in the run, a thread closed the snapshot that had read a zero count before the grant, or had read none
      because it turned the snapshot away. */
  lemma ClosedWhileLeasedExactly(first: Option<bool>, threads: nat, run: seq<Label>, i: nat)
    requires ValidRun(Initial(first, threads), run)
    requires Out(After(Initial(first, threads), run), i)
    ensures ClosedUnder(After(Initial(first, threads), run), i)
       <==> LateIn(Initial(first, threads), NoMarks(threads), run, i)
  {
    InvInitial(first, threads);
    ClosedUnderAlongRun(Initial(first, threads), NoMarks(threads), run, i);
  }

  // ----- runs in which no grant falls into a window --------------------------------------

  /** The step does not grant a lease on a snapshot that some thread has in its window. */
  predicate PromptGrant(w: World, l: Label) {
    l.Run? && l.thread < |w.threads| && w.threads[l.thread].AcqCheck? ==>
      forall t :: 0 <= t < |w.threads| ==> !InWindow(w.threads[t], w.threads[l.thread].s)
  }

  predicate PromptRun(w: World, run: seq<Label>)
    requires ValidRun(w, run)
    decreases run
  {
    run == [] || (PromptGrant(w, run[0]) && PromptRun(Step(w, run[0]), run[1..]))
  }

  /** The step turns away the snapshot of lease i, which is out. */
  predicate TurnsAwayUnder(w: World, l: Label, i: nat) {
    && Out(w, i) && l.Run? && l.thread < |w.threads|
    && TurnsAway(w.threads[l.thread], w.managerClosed) && w.threads[l.thread].s == w.leases[i].snap
  }

  predicate TurnedAwayUnder(w: World, run: seq<Label>, i: nat)
    requires ValidRun(w, run)
    decreases run
  {
    run != [] && (TurnsAwayUnder(w, run[0], i) || TurnedAwayUnder(Step(w, run[0]), run[1..], i))
  }

  /** Lease i is safe unless its snapshot was turned away under it; then that is closed, or about to be. */
  ghost predicate SafeUnless(w: World, i: nat, turnedAway: bool) {
    && (turnedAway ==> i < |w.leases|)
    && (Out(w, i) && !turnedAway ==>
          !ClosedUnder(w, i) && forall t :: 0 <= t < |w.threads| ==> !InWindow(w.threads[t], w.leases[i].snap))
    && (Out(w, i) && turnedAway ==>
          ClosedUnder(w, i)
          || exists t :: 0 <= t < |w.threads| && w.threads[t] == CloseCas(w.leases[i].snap, Return))
  }

  /** While the lease is out a window on its snapshot opens only by turning it away. */
  lemma SafeWindow(w: World, t: nat, i: nat)
    requires Inv(w) && Enabled(w, Run(t)) && Out(w, i) && !InWindow(w.threads[t], w.leases[i].snap)
    requires InWindow(RunThread(w, t).threads[t], w.leases[i].snap)
    ensures TurnsAwayUnder(w, Run(t), i) && RunThread(w, t).threads[t] == CloseCas(w.leases[i].snap, Return)
  {
    var pc := w.threads[t];
    var x := SnapAt(w.snaps, Target(pc));
    WindowOpens(pc, x, w.current, w.managerClosed, w.leases[i].snap);
    if ReadsZero(pc, x) {
      ZeroMeansReleased(w, t, i);
    }
  }

  lemma SafeGrant(w: World, t: nat, i: nat)
    requires Inv(w) && Enabled(w, Run(t)) && PromptGrant(w, Run(t)) && |w.leases| <= i
    ensures SafeUnless(RunThread(w, t), i, false)
  {
    var r := RunThread(w, t);
    assert ThreadOk(w, t);
    if Out(r, i) {
      assert w.threads[t].AcqCheck? && r.leases[i].snap == w.threads[t].s;
    }
  }

  lemma SafeRun(w: World, t: nat, i: nat, turnedAway: bool)
    requires Inv(w) && Enabled(w, Run(t)) && Out(w, i) && SafeUnless(w, i, turnedAway)
    ensures SafeUnless(RunThread(w, t), i, turnedAway || TurnsAwayUnder(w, Run(t), i))
  {
    var r, s := RunThread(w, t), w.leases[i].snap;
    assert r.leases[i] == w.leases[i] && s < |w.snaps| && ThreadOk(w, t);
    if !InWindow(w.threads[t], s) && InWindow(r.threads[t], s) {
      SafeWindow(w, t, i);
    }
    assert TurnsAwayUnder(w, Run(t), i) ==> r.threads[t] == CloseCas(s, Return);
    if turnedAway && !ClosedUnder(w, i) {
      var u :| 0 <= u < |w.threads| && w.threads[u] == CloseCas(s, Return);
      assert if u == t then r.snaps[s].closed else r.threads[u] == CloseCas(s, Return);
    }
  }

  lemma SafeStep(w: World, l: Label, i: nat, turnedAway: bool)
    requires Inv(w) && Enabled(w, l) && PromptGrant(w, l) && SafeUnless(w, i, turnedAway)
    ensures SafeUnless(Step(w, l), i, turnedAway || TurnsAwayUnder(w, l, i))
  {
    var r := Step(w, l);
    StepLeases(w, l);
    if l.Run? {
      if i >= |w.leases| {
        SafeGrant(w, l.thread, i);
      } else if Out(w, i) {
        SafeRun(w, l.thread, i, turnedAway);
      }
    } else if i < |w.leases| {
      assert w.leases[i].snap < |w.snaps|;
      if turnedAway && Out(r, i) && !ClosedUnder(w, i) {
        var u :| 0 <= u < |w.threads| && w.threads[u] == CloseCas(w.leases[i].snap, Return);
        assert r.threads[u] == CloseCas(w.leases[i].snap, Return);
      }
    }
  }

  lemma {:induction false} SafeAlongRun(w: World, run: seq<Label>, i: nat, turnedAway: bool)
    requires Inv(w) && ValidRun(w, run) && PromptRun(w, run) && SafeUnless(w, i, turnedAway)
    ensures SafeUnless(After(w, run), i, turnedAway || TurnedAwayUnder(w, run, i))
    decreases run
  {
    if run != [] {
      InvStep(w, run[0]);
      SafeStep(w, run[0], i, turnedAway);
      SafeAlongRun(Step(w, run[0]), run[1..], i, turnedAway || TurnsAwayUnder(w, run[0], i));
    }
  }

  /** If no grant falls into a window, however the calls overlap, a lease that is out has its snapshot closed under it
      only if a closed manager turned the snapshot away meanwhile, and always in the end if one did. */
  lemma PromptGrantsCloseLeasedExactly(first: Option<bool>, threads: nat, run: seq<Label>, i: nat)
    requires ValidRun(Initial(first, threads), run) && PromptRun(Initial(first, threads), run)
    requires Out(After(Initial(first, threads), run), i)
    ensures var w := After(Initial(first, threads), run);
            var turnedAway := TurnedAwayUnder(Initial(first, threads), run, i);
            && (ClosedUnder(w, i) ==> turnedAway)
            && (Quiescent(w) ==> (ClosedUnder(w, i) <==> turnedAway))
  {
    InvInitial(first, threads);
    SafeAlongRun(Initial(first, threads), run, i, false);
  }

  // ----- calls that do not overlap ---------------------------------------------------------

  /** A call begins only when no other call is in progress. */
  predicate SerialRun(w: World, run: seq<Label>)
    requires ValidRun(w, run)
    decreases run
  {
    run == [] || ((run[0].Begin? ==> Quiescent(w)) && SerialRun(Step(w, run[0]), run[1..]))
  }

  ghost predicate OneAtATime(w: World) {
    forall t, u :: 0 <= t < u < |w.threads| ==> Resting(w.threads[t]) || Resting(w.threads[u])
  }

  lemma SerialStep(w: World, l: Label)
    requires OneAtATime(w) && Enabled(w, l) && (l.Begin? ==> Quiescent(w))
    ensures OneAtATime(Step(w, l)) && PromptGrant(w, l)
  {
    var r := Step(w, l);
    if l.Run? || l.Begin? {
      assert forall u :: 0 <= u < |w.threads| && u != l.thread ==> r.threads[u] == w.threads[u];
    }
  }

  lemma {:induction false} SerialRunsArePrompt(w: World, run: seq<Label>)
    requires OneAtATime(w) && ValidRun(w, run) && SerialRun(w, run)
    ensures PromptRun(w, run)
    decreases run
  {
    if run != [] {
      SerialStep(w, run[0]);
      SerialRunsArePrompt(Step(w, run[0]), run[1..]);
    }
  }

  /** So the same holds if calls do not overlap. */
  lemma SerialCallsCloseLeasedExactly(first: Option<bool>, threads: nat, run: seq<Label>, i: nat)
    requires ValidRun(Initial(first, threads), run) && SerialRun(Initial(first, threads), run)
    requires Out(After(Initial(first, threads), run), i)
    ensures var w := After(Initial(first, threads), run);
            var turnedAway := TurnedAwayUnder(Initial(first, threads), run, i);
            && (ClosedUnder(w, i) ==> turnedAway)
            && (Quiescent(w) ==> (ClosedUnder(w, i) <==> turnedAway))
  {
    SerialRunsArePrompt(Initial(first, threads), run);
    PromptGrantsCloseLeasedExactly(first, threads, run, i);
  }
}
