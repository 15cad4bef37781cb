/** What single calls of the snapshot manager are for: a lone Acquire gets the current snapshot, a lone Publish
    installs its candidate and retires the old one, and a closed manager does neither any more. */
module SnapshotCalls {
  import opened Text
  import opened Snapshots
  import opened SnapshotRuns

  // ----- a call that runs alone from beginning to end -----------------------------

  /** Thread t takes n steps. */
  function Ran(w: World, t: nat, n: nat): World
    requires t < |w.threads|
    ensures |Ran(w, t, n).threads| == |w.threads| && |Ran(w, t, n).snaps| == |w.snaps|
    decreases n
  {
    if n == 0 then w else Ran(RunThread(w, t), t, n - 1)
  }

  /** An open manager with an open snapshot leases it to an Acquire that nobody disturbs, and counts the lease. */
  lemma LoneAcquireGrants(w: World, t: nat, s: nat)
    requires t < |w.threads| && w.threads[t].Idle? && !w.managerClosed
    requires w.current == Some(s) && s < |w.snaps| && !w.snaps[s].closed
    ensures Enabled(w, Begin(t, Acquire))
    ensures Ran(Step(w, Begin(t, Acquire)), t, 4) ==
            w.(leases := w.leases + [Lease(s, false)], snaps := w.snaps[s := w.snaps[s].(refs := w.snaps[s].refs + 1)])
  {
    var a := Goto(w, t, AcqStart);
    var b := RunThread(a, t);
    assert b == Goto(w, t, AcqLoad);
    var c := RunThread(b, t);
    assert c == Goto(w, t, AcqAdd(s));
    var held := w.(snaps := w.snaps[s := w.snaps[s].(refs := w.snaps[s].refs + 1)]);
    var d := RunThread(c, t);
    assert d == Goto(held, t, AcqCheck(s));
    var e := RunThread(d, t);
    assert e == Goto(held, t, Idle).(leases := w.leases + [Lease(s, false)]);
    assert w.threads[t := Idle] == w.threads;
    assert Ran(a, t, 4) == Ran(b, t, 3) == Ran(c, t, 2) == Ran(d, t, 1) == Ran(e, t, 0) == e;
  }

  /** A Publish that nobody disturbs makes its candidate current and goes on to retire what was. */
  lemma LonePublishInstalls(w: World, t: nat, s: nat)
    requires t < |w.threads| && w.threads[t].Idle? && !w.managerClosed && s < |w.snaps|
    ensures Enabled(w, Begin(t, Publish(s)))
    ensures Ran(Step(w, Begin(t, Publish(s))), t, 2) ==
            Goto(w.(snaps := w.snaps[s := w.snaps[s].(offered := true, installed := true)], current := Some(s)), t,
                 Retire(w.current, Return))
  {
    var offered := w.(snaps := w.snaps[s := w.snaps[s].(offered := true)]);
    var a := Goto(offered, t, PubStart(s));
    var b := RunThread(a, t);
    assert b == Goto(offered, t, PubSwap(s));
    var c := RunThread(b, t);
    assert Ran(a, t, 2) == Ran(b, t, 1) == Ran(c, t, 0) == c;
  }

  /** Retiring a snapshot nobody counts on closes it; one that is counted on is left to whoever counts on it last. */
  lemma RetireDecides(w: World, t: nat, s: nat, next: Then)
    requires t < |w.threads| && w.threads[t] == RetStore(s, next) && s < |w.snaps|
    ensures w.snaps[s].refs == 0 ==>
      var r := Ran(w, t, 3);
      && r.snaps == w.snaps[s := w.snaps[s].(retired := true, closed := true)]
      && r.threads[t] == if w.snaps[s].closed then Resume(s, next) else CloseManager(s, next)
    ensures w.snaps[s].refs != 0 ==>
      Ran(w, t, 2) == Goto(w.(snaps := w.snaps[s := w.snaps[s].(retired := true)]), t, Resume(s, next))
  {
    var a := RunThread(w, t);
    assert a == Goto(w.(snaps := w.snaps[s := w.snaps[s].(retired := true)]), t, RetLoad(s, next));
    var b := RunThread(a, t);
    assert Ran(w, t, 2) == Ran(a, t, 1) == Ran(b, t, 0) == b;
    if w.snaps[s].refs == 0 {
      assert b == Goto(a, t, CloseCas(s, next));
      var c := RunThread(b, t);
      assert Ran(w, t, 3) == Ran(a, t, 2) == Ran(b, t, 1) == Ran(c, t, 0) == c;
    }
  }

  /** The last one to count on a retired snapshot closes it. */
  lemma LastReleaseCloses(w: World, t: nat, i: nat, s: nat)
    requires t < |w.threads| && w.threads[t].Idle? && i < |w.leases| && w.leases[i] == Lease(s, false)
    requires s < |w.snaps| && w.snaps[s].refs == 1 && w.snaps[s].retired
    ensures Enabled(w, Begin(t, Release(i)))
    ensures Ran(Step(w, Begin(t, Release(i))), t, 3).snaps == w.snaps[s := w.snaps[s].(refs := 0, closed := true)]
  {
    var a := Step(w, Begin(t, Release(i)));
    var b := RunThread(a, t);
    assert b == Goto(a.(snaps := w.snaps[s := w.snaps[s].(refs := 0)]), t, RelRecheck(s));
    var c := RunThread(b, t);
    assert c == Goto(b, t, CloseCas(s, Return));
    var d := RunThread(c, t);
    assert Ran(a, t, 3) == Ran(b, t, 2) == Ran(c, t, 1) == Ran(d, t, 0) == d;
  }

  // ----- a closed manager -----------------------------------------------------------

  /** The thread can still grant or install something. */
  predicate Gives(pc: Pc) {
    || pc.AcqLoad? || pc.AcqAdd? || pc.AcqCheck? || pc.AcqUndo? || pc.AcqRecheck? || pc.PubSwap? || pc.MgrSwap?
    || ((pc.RetStore? || pc.RetLoad? || pc.CloseCas? || pc.CloseManager? || pc.CloseDone?) && pc.next.RetryAcquire?)
  }

  predicate NobodyGives(w: World) {
    w.managerClosed && forall t :: 0 <= t < |w.threads| ==> !Gives(w.threads[t])
  }

  lemma ClosedStep(w: World, l: Label)
    requires NobodyGives(w) && Enabled(w, l)
    ensures var r := Step(w, l);
      NobodyGives(r) && |r.leases| == |w.leases| && r.current == w.current
  {
    var r := Step(w, l);
    forall t | 0 <= t < |r.threads| ensures !Gives(r.threads[t]) {
      assert !Gives(w.threads[t]);
    }
  }

  /** Once the manager is closed and nobody was in the middle of an Acquire, a Publish or the Close, no call ever gets a
      lease or changes the current snapshot again. */
  lemma {:induction false} ClosedManagerGivesNothing(w: World, run: seq<Label>)
    requires NobodyGives(w) && ValidRun(w, run)
    ensures |After(w, run).leases| == |w.leases| && After(w, run).current == w.current
    decreases run
  {
    if run != [] {
      ClosedStep(w, run[0]);
      ClosedManagerGivesNothing(Step(w, run[0]), run[1..]);
    }
  }
}
