/** What every run of the snapshot protocol guarantees. */
module SnapshotRuns {
  import opened Text
  import opened Snapshots

  predicate ValidRun(w: World, run: seq<Label>)
    decreases run
  {
    run == [] || (Enabled(w, run[0]) && ValidRun(Step(w, run[0]), run[1..]))
  }

  function After(w: World, run: seq<Label>): World
    requires ValidRun(w, run)
    decreases run
  {
    if run == [] then w else After(Step(w, run[0]), run[1..])
  }

  lemma InvInitial(first: Option<bool>, threads: nat)
    ensures Inv(Initial(first, threads))
  {
    var w := Initial(first, threads);
    forall role, s ensures Count(w.threads, role, s) == 0 {
      CountZero(w.threads, role, s);
    }
  }

  lemma {:induction false} InvAlongRun(w: World, run: seq<Label>)
    requires Inv(w) && ValidRun(w, run)
    ensures Inv(After(w, run))
    decreases run
  {
    if run != [] {
      InvStep(w, run[0]);
      InvAlongRun(Step(w, run[0]), run[1..]);
    }
  }

  // ----- leak freedom and closing once -----------------------------------

  /** No call in progress; waiting for done is the only thing a thread may be doing. */
  predicate Resting(pc: Pc) {
    pc.Idle? || pc.Waiting?
  }

  predicate Quiescent(w: World) {
    forall t :: 0 <= t < |w.threads| ==> Resting(w.threads[t])
  }

  /** In every reachable state a retired snapshot that is not closed is still counted or
      has a thread bound to look again; its manager and its done channel are closed at
      most once, and never before it was retired or turned away by a closed manager. */
  lemma RetiredNeverLeaked(first: Option<bool>, threads: nat, run: seq<Label>, s: nat)
    requires ValidRun(Initial(first, threads), run)
    requires s < |After(Initial(first, threads), run).snaps|
    ensures var w := After(Initial(first, threads), run);
            var x := w.snaps[s];
            && (x.retired && !x.closed ==> x.refs > 0 || Count(w.threads, Obliged, s) > 0)
            && x.refs == Unreleased(w.leases, s) + Count(w.threads, Pinning, s)
            && x.managerCloses <= One(x.hasManager) && x.doneCloses <= 1
            && (x.managerCloses > 0 || x.doneCloses > 0 || x.closed ==> x.retired || x.rejected)
  {
    InvInitial(first, threads);
    InvAlongRun(Initial(first, threads), run);
    var w := After(Initial(first, threads), run);
    assert SnapOk(w.snaps[s], TallyOf(w, s));
  }

  ghost predicate Settled(w: World, s: nat)
    requires s < |w.snaps|
  {
    var x := w.snaps[s];
    && x.refs == 0
    && (x.closed <==> x.retired || x.rejected)
    && (x.closed ==> x.managerCloses == One(x.hasManager) && x.doneCloses == 1)
  }

  predicate NoLeaseOn(w: World, s: nat) {
    forall i :: 0 <= i < |w.leases| && w.leases[i].snap == s ==> w.leases[i].released
  }

  lemma {:induction false} RestingPlaysNothing(ts: seq<Pc>, s: nat)
    requires forall t :: 0 <= t < |ts| ==> Resting(ts[t])
    ensures forall role :: Count(ts, role, s) == 0
  {
    if ts != [] {
      RestingPlaysNothing(ts[1..], s);
    }
  }

  lemma IdleTallySettles(x: Snap)
    requires SnapOk(x, Tally(0, 0, 0, 0, 0))
    ensures x.refs == 0 && (x.retired ==> x.closed) && (x.closed ==> x.retired || x.rejected)
    ensures x.closed ==> x.managerCloses == One(x.hasManager) && x.doneCloses == 1
  {
  }

  /** A snapshot turned away is closed, or its Publish is about to close it. */
  ghost predicate ClosesRejected(w: World, s: nat)
    requires s < |w.snaps|
  {
    w.snaps[s].rejected && !w.snaps[s].closed ==>
      exists t :: 0 <= t < |w.threads| && w.threads[t] == CloseCas(s, Return)
  }

  lemma RejectedRun(w: World, t: nat, s: nat)
    requires Enabled(w, Run(t)) && ThreadOk(w, t) && s < |w.snaps| && ClosesRejected(w, s)
    ensures ClosesRejected(RunThread(w, t), s)
  {
    var r := RunThread(w, t);
    if w.threads[t] == PubStart(s) {
      assert r.snaps[s].rejected && !r.snaps[s].closed && !w.snaps[s].rejected ==> r.threads[t] == CloseCas(s, Return);
    }
    if u :| 0 <= u < |w.threads| && w.threads[u] == CloseCas(s, Return) {
      assert u == t ==> r.snaps[s].closed;
      assert u != t ==> r.threads[u] == CloseCas(s, Return);
    }
  }

  lemma RejectedStep(w: World, l: Label, s: nat)
    requires Inv(w) && Enabled(w, l) && s < |w.snaps| && ClosesRejected(w, s)
    ensures ClosesRejected(Step(w, l), s)
  {
    if l.Run? {
      assert ThreadOk(w, l.thread);
      RejectedRun(w, l.thread, s);
    } else if u :| 0 <= u < |w.threads| && w.threads[u] == CloseCas(s, Return) {
      assert Step(w, l).threads[u] == CloseCas(s, Return);
    }
  }

  lemma {:induction false} RejectedAlongRun(w: World, run: seq<Label>, s: nat)
    requires Inv(w) && ValidRun(w, run) && s < |After(w, run).snaps| && (s < |w.snaps| ==> ClosesRejected(w, s))
    ensures ClosesRejected(After(w, run), s)
    decreases run
  {
    if run != [] {
      InvStep(w, run[0]);
      if s < |w.snaps| {
        RejectedStep(w, run[0], s);
      }
      RejectedAlongRun(Step(w, run[0]), run[1..], s);
    }
  }

  lemma RestSettles(w: World, s: nat)
    requires Inv(w) && s < |w.snaps| && Quiescent(w) && NoLeaseOn(w, s) && ClosesRejected(w, s)
    ensures Settled(w, s)
  {
    RestingPlaysNothing(w.threads, s);
    NoneUnreleased(w.leases, s);
    assert TallyOf(w, s) == Tally(0, 0, 0, 0, 0);
    IdleTallySettles(w.snaps[s]);
  }

  /** With no call in progress and no lease on it, a snapshot is closed exactly if it was retired or
      turned away, and then its manager was closed exactly once and its done channel too. */
  lemma QuiescentMeansClosed(first: Option<bool>, threads: nat, run: seq<Label>, s: nat)
    requires ValidRun(Initial(first, threads), run)
    requires var w := After(Initial(first, threads), run);
             s < |w.snaps| && Quiescent(w) && NoLeaseOn(w, s)
    ensures Settled(After(Initial(first, threads), run), s)
  {
    InvInitial(first, threads);
    InvAlongRun(Initial(first, threads), run);
    RejectedAlongRun(Initial(first, threads), run, s);
    RestSettles(After(Initial(first, threads), run), s);
  }

  /** A Manager.Close that waits then for its snapshot can return. */
  lemma CloseReturns(first: Option<bool>, threads: nat, run: seq<Label>, t: nat)
    requires ValidRun(Initial(first, threads), run)
    requires var w := After(Initial(first, threads), run);
             t < |w.threads| && w.threads[t].Waiting? && Quiescent(w) && NoLeaseOn(w, w.threads[t].s)
    ensures Enabled(After(Initial(first, threads), run), Run(t))
  {
    InvInitial(first, threads);
    InvAlongRun(Initial(first, threads), run);
    var w := After(Initial(first, threads), run);
    assert ThreadOk(w, t);
    QuiescentMeansClosed(first, threads, run, w.threads[t].s);
  }

  // ----- publishing each candidate once ----------------------------------

  /** The caller publishes a candidate that has not been offered before. */
  predicate FreshLabel(w: World, l: Label) {
    l.Begin? && l.op.Publish? && l.op.s < |w.snaps| ==> !w.snaps[l.op.s].offered
  }

  predicate FreshRun(w: World, run: seq<Label>)
    requires ValidRun(w, run)
    decreases run
  {
    run == [] || (FreshLabel(w, run[0]) && FreshRun(Step(w, run[0]), run[1..]))
  }

  // ----- how often a snapshot was swapped in -----------------------------

  predicate SwapsIn(w: World, l: Label, s: nat) {
    l.Run? && l.thread < |w.threads| && w.threads[l.thread] == PubSwap(s)
  }

  /** How often a Publish swaps s in along the run. */
  function SwapIns(w: World, run: seq<Label>, s: nat): nat
    requires ValidRun(w, run)
    decreases run
  {
    if run == [] then 0 else One(SwapsIn(w, run[0], s)) + SwapIns(Step(w, run[0]), run[1..], s)
  }

  /** How often s was made current: by NewManager or by a Publish. */
  function TimesCurrent(first: Option<bool>, threads: nat, run: seq<Label>, s: nat): nat
    requires ValidRun(Initial(first, threads), run)
  {
    One(first.Some? && s == 0) + SwapIns(Initial(first, threads), run, s)
  }

  predicate Retiring(pc: Pc, s: nat) {
    pc.RetStore? && pc.s == s
  }

  /** Retired, or taken out by a thread that retires it next. */
  ghost predicate Left(w: World, s: nat)
    requires s < |w.snaps|
  {
    w.snaps[s].retired || exists t :: 0 <= t < |w.threads| && Retiring(w.threads[t], s)
  }

  /** Of the n times s was made current it left all but the last, and that too unless it is current still. */
  ghost predicate Swapped(w: World, s: nat, n: nat) {
    if s < |w.snaps| then
      var now := One(w.current == Some(s));
      n >= now && (Left(w, s) <==> n > now) && (w.snaps[s].installed <==> n > 0)
    else n == 0
  }

  lemma SwappedRun(w: World, t: nat, s: nat, n: nat)
    requires Enabled(w, Run(t)) && ThreadOk(w, t) && s < |w.snaps| && Swapped(w, s, n)
    ensures Swapped(RunThread(w, t), s, n + One(SwapsIn(w, Run(t), s)))
  {
    var pc, r := w.threads[t], RunThread(w, t);
    if pc.PubSwap? || pc.MgrSwap? {
      assert w.current == Some(s) ==> Retiring(r.threads[t], s);
    }
    if u :| 0 <= u < |w.threads| && Retiring(w.threads[u], s) {
      assert u == t ==> r.snaps[s].retired;
      assert u != t ==> Retiring(r.threads[u], s);
    }
  }

  lemma SwappedStep(w: World, l: Label, s: nat, n: nat)
    requires Inv(w) && Enabled(w, l) && Swapped(w, s, n)
    ensures Swapped(Step(w, l), s, n + One(SwapsIn(w, l, s)))
  {
    if l.Run? {
      assert ThreadOk(w, l.thread);
      if s < |w.snaps| {
        SwappedRun(w, l.thread, s, n);
      }
    } else if s < |w.snaps| {
      if u :| 0 <= u < |w.threads| && Retiring(w.threads[u], s) {
        assert Retiring(Step(w, l).threads[u], s);
      }
    } else {
      forall t | 0 <= t < |w.threads| ensures !Retiring(w.threads[t], s) {
        assert ThreadOk(w, t);
      }
    }
  }

  lemma {:induction false} SwappedAlongRun(w: World, run: seq<Label>, s: nat, n: nat)
    requires Inv(w) && ValidRun(w, run) && Swapped(w, s, n)
    ensures Swapped(After(w, run), s, n + SwapIns(w, run, s))
    decreases run
  {
    if run != [] {
      InvStep(w, run[0]);
      SwappedStep(w, run[0], s, n);
      SwappedAlongRun(Step(w, run[0]), run[1..], s, n + One(SwapsIn(w, run[0], s)));
    }
  }

  lemma SwappedInitial(first: Option<bool>, threads: nat, s: nat)
    ensures Swapped(Initial(first, threads), s, One(first.Some? && s == 0))
  {
  }

  lemma SwappedReachable(first: Option<bool>, threads: nat, run: seq<Label>, s: nat)
    requires ValidRun(Initial(first, threads), run)
    ensures Inv(After(Initial(first, threads), run))
    ensures Swapped(After(Initial(first, threads), run), s, TimesCurrent(first, threads, run, s))
  {
    InvInitial(first, threads);
    InvAlongRun(Initial(first, threads), run);
    SwappedInitial(first, threads, s);
    SwappedAlongRun(Initial(first, threads), run, s, One(first.Some? && s == 0));
  }

  /** The current snapshot has been taken out before exactly if it was made current more than once. Only then, or
      after a closed manager turned it away, can it be closed and can Acquire go round its loop without a new one;
      and once nobody uses it any more, it is closed exactly then. */
  lemma CurrentIsOpenExactly(first: Option<bool>, threads: nat, run: seq<Label>, s: nat)
    requires ValidRun(Initial(first, threads), run) && After(Initial(first, threads), run).current == Some(s)
    ensures var w := After(Initial(first, threads), run);
            var again := TimesCurrent(first, threads, run, s) > 1;
            && s < |w.snaps|
            && (Left(w, s) <==> again)
            && (w.snaps[s].closed ==> again || w.snaps[s].rejected)
            && (forall t :: 0 <= t < |w.threads| && w.threads[t] == AcqUndo(s) ==> again || w.snaps[s].rejected)
            && (Quiescent(w) && NoLeaseOn(w, s) ==> (w.snaps[s].closed <==> again || w.snaps[s].rejected))
  {
    SwappedReachable(first, threads, run, s);
    var w := After(Initial(first, threads), run);
    assert SnapOk(w.snaps[s], TallyOf(w, s));
    forall t | 0 <= t < |w.threads| && w.threads[t] == AcqUndo(s) ensures w.snaps[s].closed {
      assert ThreadOk(w, t);
    }
    if Quiescent(w) && NoLeaseOn(w, s) {
      QuiescentMeansClosed(first, threads, run, s);
    }
  }
}
