/** Concrete runs of the snapshot protocol that end where its promises do. */
module SnapshotWitnesses {
  import opened Text
  import opened Snapshots
  import opened SnapshotRuns
  import opened SnapshotWindows

  const LIVE := NewSnap(true).(offered := true, installed := true)

  /** One published snapshot, and two threads. */
  function Start(): World {
    Initial(Some(true), 2)
  }

  ghost predicate Reaches(run: seq<Label>, v: World) {
    ValidRun(Start(), run) && After(Start(), run) == v
  }

  /** And candidates are published once each. */
  ghost predicate Leads(run: seq<Label>, v: World) {
    Reaches(run, v) && FreshRun(Start(), run)
  }

  lemma {:induction false} Extend(w: World, run: seq<Label>, l: Label)
    requires ValidRun(w, run) && Enabled(After(w, run), l)
    ensures ValidRun(w, run + [l]) && After(w, run + [l]) == Step(After(w, run), l)
    ensures FreshRun(w, run) && FreshLabel(After(w, run), l) ==> FreshRun(w, run + [l])
    decreases run
  {
    if run == [] {
      assert run + [l] == [l] && [l][1..] == [];
      assert ValidRun(Step(w, l), []);
    } else {
      Extend(Step(w, run[0]), run[1..], l);
      assert (run + [l])[1..] == run[1..] + [l];
    }
  }

  lemma Proceed(run: seq<Label>, v: World, l: Label, next: World) returns (longer: seq<Label>)
    requires Reaches(run, v) && Enabled(v, l) && Step(v, l) == next
    ensures longer == run + [l] && Reaches(longer, next)
  {
    Extend(Start(), run, l);
    longer := run + [l];
  }

  /** One more step of a run under construction. */
  lemma Continue(run: seq<Label>, v: World, l: Label, next: World) returns (longer: seq<Label>)
    requires Leads(run, v) && Enabled(v, l) && FreshLabel(v, l) && Step(v, l) == next
    ensures longer == run + [l] && Leads(longer, next)
  {
    Extend(Start(), run, l);
    longer := run + [l];
  }

  const OFFERED := NewSnap(true).(offered := true)

  /** The published snapshot, the candidate beside it, and the two threads. */
  function Two(a: Snap, b: Snap, current: nat, leases: seq<Lease>, t0: Pc, t1: Pc): World {
    World([a, b], Some(current), false, leases, [t0, t1])
  }

  function Counted(x: Snap, refs: nat): Snap {
    x.(refs := refs)
  }

  lemma CandidateReady() returns (run: seq<Label>)
    ensures Leads(run, Two(LIVE, NewSnap(true), 0, [], Idle, Idle))
  {
    run := Continue([], World([LIVE], Some(0), false, [], [Idle, Idle]), Create(true),
        Two(LIVE, NewSnap(true), 0, [], Idle, Idle));
  }

  // ----- a grant between a publisher's reading and its compare-and-swap ------------

  /** The reader has loaded the pointer to snapshot 0. */
  lemma ReaderLoads() returns (run: seq<Label>)
    ensures Leads(run, Two(LIVE, NewSnap(true), 0, [], AcqAdd(0), Idle))
  {
    run := CandidateReady();
    var a, b := LIVE, NewSnap(true);
    run := Continue(run, Two(a, b, 0, [], Idle, Idle), Begin(0, Acquire), Two(a, b, 0, [], AcqStart, Idle));
    run := Continue(run, Two(a, b, 0, [], AcqStart, Idle), Run(0), Two(a, b, 0, [], AcqLoad, Idle));
    run := Continue(run, Two(a, b, 0, [], AcqLoad, Idle), Run(0), Two(a, b, 0, [], AcqAdd(0), Idle));
  }

  /** A Publish of the candidate, up to where it has swapped the pointer. */
  lemma SwapsPointer(run: seq<Label>, a: Snap, leases: seq<Lease>, pc: Pc) returns (longer: seq<Label>)
    requires Leads(run, Two(a, NewSnap(true), 0, leases, pc, Idle))
    ensures Leads(longer, Two(a, LIVE, 1, leases, pc, RetStore(0, Return)))
  {
    var b := OFFERED;
    longer := Continue(run, Two(a, NewSnap(true), 0, leases, pc, Idle), Begin(1, Publish(1)),
                       Two(a, b, 0, leases, pc, PubStart(1)));
    longer := Continue(longer, Two(a, b, 0, leases, pc, PubStart(1)), Run(1), Two(a, b, 0, leases, pc, PubSwap(1)));
    longer := Continue(longer, Two(a, b, 0, leases, pc, PubSwap(1)), Run(1),
                       Two(a, LIVE, 1, leases, pc, RetStore(0, Return)));
  }

  /** The publisher has retired the old snapshot and read a zero count. */
  lemma PublisherCounts() returns (run: seq<Label>)
    ensures Leads(run, Two(LIVE.(retired := true), LIVE, 1, [], AcqAdd(0), CloseCas(0, Return)))
  {
    run := ReaderLoads();
    run := SwapsPointer(run, LIVE, [], AcqAdd(0));
    var a, pc := LIVE.(retired := true), AcqAdd(0);
    run := Continue(run, Two(LIVE, LIVE, 1, [], pc, RetStore(0, Return)), Run(1),
        Two(a, LIVE, 1, [], pc, RetLoad(0, Return)));
    run := Continue(run, Two(a, LIVE, 1, [], pc, RetLoad(0, Return)), Run(1),
        Two(a, LIVE, 1, [], pc, CloseCas(0, Return)));
  }

  /** The reader counts itself and gets its lease between the publisher's reading of refs
      and its compare-and-swap, which closes the leased snapshot. */
  lemma PublisherClosesLeased() returns (run: seq<Label>)
    ensures ValidRun(Start(), run) && FreshRun(Start(), run)
    ensures Out(After(Start(), run), 0) && ClosedUnder(After(Start(), run), 0)
  {
    run := PublisherCounts();
    var a, b, cas := LIVE.(retired := true), LIVE, CloseCas(0, Return);
    var leases := [Lease(0, false)];
    run := Continue(run, Two(a, b, 1, [], AcqAdd(0), cas), Run(0), Two(Counted(a, 1), b, 1, [], AcqCheck(0), cas));
    run := Continue(run, Two(Counted(a, 1), b, 1, [], AcqCheck(0), cas), Run(0),
        Two(Counted(a, 1), b, 1, leases, Idle, cas));
    run := Continue(run, Two(Counted(a, 1), b, 1, leases, Idle, cas), Run(1),
                    Two(Counted(a, 1).(closed := true), b, 1, leases, Idle, CloseManager(0, Return)));
  }

  // ----- a grant and a whole Publish within a release --------------------------------

  /** Thread t acquires from loading to lease, the count going from n to n + 1. */
  lemma FirstLease() returns (run: seq<Label>)
    ensures Leads(run, Two(Counted(LIVE, 1), NewSnap(true), 0, [Lease(0, false)], Idle, Idle))
  {
    run := ReaderLoads();
    var a, b := Counted(LIVE, 1), NewSnap(true);
    run := Continue(run, Two(LIVE, b, 0, [], AcqAdd(0), Idle), Run(0), Two(a, b, 0, [], AcqCheck(0), Idle));
    run := Continue(run, Two(a, b, 0, [], AcqCheck(0), Idle), Run(0), Two(a, b, 0, [Lease(0, false)], Idle, Idle));
  }

  /** Its release has counted down to zero and pauses before it looks at retired. */
  lemma ReleasePauses() returns (run: seq<Label>)
    ensures Leads(run, Two(LIVE, NewSnap(true), 0, [Lease(0, true)], RelRecheck(0), Idle))
  {
    run := FirstLease();
    var a, b, leases := Counted(LIVE, 1), NewSnap(true), [Lease(0, true)];
    run := Continue(run, Two(a, b, 0, [Lease(0, false)], Idle, Idle), Begin(0, Release(0)),
        Two(a, b, 0, leases, RelSub(0), Idle));
    run := Continue(run, Two(a, b, 0, leases, RelSub(0), Idle), Run(0), Two(LIVE, b, 0, leases, RelRecheck(0), Idle));
  }

  /** Meanwhile another reader loads the pointer ... */
  lemma SecondReader() returns (run: seq<Label>)
    ensures Leads(run, Two(LIVE, NewSnap(true), 0, [Lease(0, true)], RelRecheck(0), AcqAdd(0)))
  {
    run := ReleasePauses();
    var a, b, pc, one := LIVE, NewSnap(true), RelRecheck(0), [Lease(0, true)];
    run := Continue(run, Two(a, b, 0, one, pc, Idle), Begin(1, Acquire), Two(a, b, 0, one, pc, AcqStart));
    run := Continue(run, Two(a, b, 0, one, pc, AcqStart), Run(1), Two(a, b, 0, one, pc, AcqLoad));
    run := Continue(run, Two(a, b, 0, one, pc, AcqLoad), Run(1), Two(a, b, 0, one, pc, AcqAdd(0)));
  }

  /** ... gets a lease ... */
  lemma SecondLease() returns (run: seq<Label>)
    ensures Leads(run, Two(Counted(LIVE, 1), NewSnap(true), 0, [Lease(0, true), Lease(0, false)], RelRecheck(0), Idle))
  {
    run := SecondReader();
    var a, b, pc, one := LIVE, NewSnap(true), RelRecheck(0), [Lease(0, true)];
    run := Continue(run, Two(a, b, 0, one, pc, AcqAdd(0)), Run(1), Two(Counted(a, 1), b, 0, one, pc, AcqCheck(0)));
    run := Continue(run, Two(Counted(a, 1), b, 0, one, pc, AcqCheck(0)), Run(1),
                    Two(Counted(a, 1), b, 0, one + [Lease(0, false)], pc, Idle));
  }

  /** ... and a Publish runs from beginning to end; it reads a count of one and closes nothing. */
  lemma WholePublish() returns (run: seq<Label>)
    ensures Leads(run, Two(Counted(LIVE, 1).(retired := true), LIVE, 1, [Lease(0, true), Lease(0, false)],
        RelRecheck(0), Idle))
  {
    run := SecondLease();
    var a, pc, two := Counted(LIVE, 1), RelRecheck(0), [Lease(0, true), Lease(0, false)];
    run := SwapsPointer(run, a, two, pc);
    var r := a.(retired := true);
    run := Continue(run, Two(a, LIVE, 1, two, pc, RetStore(0, Return)), Run(1),
        Two(r, LIVE, 1, two, pc, RetLoad(0, Return)));
    run := Continue(run, Two(r, LIVE, 1, two, pc, RetLoad(0, Return)), Run(1), Two(r, LIVE, 1, two, pc, Idle));
  }

  /** The release resumes, finds its snapshot retired and closes it under the second lease,
      although no Acquire overlapped the Publish. */
  lemma ReleaseClosesLeased() returns (run: seq<Label>)
    ensures ValidRun(Start(), run) && FreshRun(Start(), run)
    ensures Out(After(Start(), run), 1) && ClosedUnder(After(Start(), run), 1)
  {
    run := WholePublish();
    var a, b, two := Counted(LIVE, 1).(retired := true), LIVE, [Lease(0, true), Lease(0, false)];
    run := Continue(run, Two(a, b, 1, two, RelRecheck(0), Idle), Run(0), Two(a, b, 1, two, CloseCas(0, Return), Idle));
    run := Continue(run, Two(a, b, 1, two, CloseCas(0, Return), Idle), Run(0),
                    Two(a.(closed := true), b, 1, two, CloseManager(0, Return), Idle));
  }

  // ----- a Publish that swaps in after Close ---------------------------------------------

  function Shut(a: Snap, b: Snap, current: Option<nat>, t0: Pc, t1: Pc): World {
    World([a, b], current, true, [], [t0, t1])
  }

  /** Publish has seen an open manager. */
  lemma PublishLooks() returns (run: seq<Label>)
    ensures Leads(run, Two(LIVE, OFFERED, 0, [], PubSwap(1), Idle))
  {
    run := CandidateReady();
    var a, b := LIVE, OFFERED;
    run := Continue(run, Two(a, NewSnap(true), 0, [], Idle, Idle), Begin(0, Publish(1)),
        Two(a, b, 0, [], PubStart(1), Idle));
    run := Continue(run, Two(a, b, 0, [], PubStart(1), Idle), Run(0), Two(a, b, 0, [], PubSwap(1), Idle));
  }

  /** Then Close begins and takes the current snapshot out. */
  lemma CloseTakesOut() returns (run: seq<Label>)
    ensures Leads(run, Shut(LIVE, OFFERED, None, PubSwap(1), RetStore(0, AwaitDone)))
  {
    run := PublishLooks();
    var a, b := LIVE, OFFERED;
    run := Continue(run, Two(a, b, 0, [], PubSwap(1), Idle), Begin(1, CloseAll),
        Two(a, b, 0, [], PubSwap(1), MgrStart));
    run := Continue(run, Two(a, b, 0, [], PubSwap(1), MgrStart), Run(1), Shut(a, b, Some(0), PubSwap(1), MgrSwap));
    run := Continue(run, Shut(a, b, Some(0), PubSwap(1), MgrSwap), Run(1),
        Shut(a, b, None, PubSwap(1), RetStore(0, AwaitDone)));
  }

  /** Close reads a zero count ... */
  lemma CloseCounts() returns (run: seq<Label>)
    ensures Leads(run, Shut(LIVE.(retired := true), OFFERED, None, PubSwap(1), CloseCas(0, AwaitDone)))
  {
    run := CloseTakesOut();
    var b, pc, r := OFFERED, PubSwap(1), LIVE.(retired := true);
    run := Continue(run, Shut(LIVE, b, None, pc, RetStore(0, AwaitDone)), Run(1),
        Shut(r, b, None, pc, RetLoad(0, AwaitDone)));
    run := Continue(run, Shut(r, b, None, pc, RetLoad(0, AwaitDone)), Run(1),
        Shut(r, b, None, pc, CloseCas(0, AwaitDone)));
  }

  const SHUT := LIVE.(retired := true, closed := true)
  const GONE := SHUT.(managerCloses := 1, doneCloses := 1)

  /** ... closes snapshot 0 and its manager ... */
  lemma CloseWins() returns (run: seq<Label>)
    ensures Leads(run, Shut(SHUT.(managerCloses := 1), OFFERED, None, PubSwap(1), CloseDone(0, AwaitDone)))
  {
    run := CloseCounts();
    var b, pc, r := OFFERED, PubSwap(1), LIVE.(retired := true);
    run := Continue(run, Shut(r, b, None, pc, CloseCas(0, AwaitDone)), Run(1),
        Shut(SHUT, b, None, pc, CloseManager(0, AwaitDone)));
    run := Continue(run, Shut(SHUT, b, None, pc, CloseManager(0, AwaitDone)), Run(1),
        Shut(SHUT.(managerCloses := 1), b, None, pc, CloseDone(0, AwaitDone)));
  }

  /** ... and returns. */
  lemma CloseRuns() returns (run: seq<Label>)
    ensures Leads(run, Shut(GONE, OFFERED, None, PubSwap(1), Idle))
  {
    run := CloseWins();
    var b, pc := OFFERED, PubSwap(1);
    run := Continue(run, Shut(SHUT.(managerCloses := 1), b, None, pc, CloseDone(0, AwaitDone)), Run(1),
        Shut(GONE, b, None, pc, Waiting(0)));
    run := Continue(run, Shut(GONE, b, None, pc, Waiting(0)), Run(1), Shut(GONE, b, None, pc, Idle));
  }

  /** Then Publish swaps its candidate in: all calls have returned, nothing is leased, the manager is
      closed, and the installed snapshot stays open with nobody left to retire it. */
  lemma LatePublishLeaks() returns (run: seq<Label>)
    ensures ValidRun(Start(), run) && FreshRun(Start(), run)
    ensures var w := After(Start(), run);
      && Quiescent(w) && w.managerClosed && w.leases == [] && w.current == Some(1)
      && |w.snaps| == 2 && w.snaps[1].installed && !w.snaps[1].closed && !w.snaps[1].retired
  {
    run := CloseRuns();
    run := Continue(run, Shut(GONE, OFFERED, None, PubSwap(1), Idle), Run(0), Shut(GONE, LIVE, Some(1), Idle, Idle));
  }

  // ----- candidates that are published again -----------------------------------------------

  function Alone(a: Snap, managerClosed: bool, current: Option<nat>, leases: seq<Lease>, t0: Pc, t1: Pc): World {
    World([a], current, managerClosed, leases, [t0, t1])
  }

  /** Publishing the current snapshot retires it, and it stays current ... */
  lemma RepublishRetires() returns (run: seq<Label>)
    ensures Reaches(run, Alone(LIVE.(retired := true), false, Some(0), [], RetLoad(0, Return), Idle))
  {
    var a := LIVE;
    run := Proceed([], Start(), Begin(0, Publish(0)), Alone(a, false, Some(0), [], PubStart(0), Idle));
    run := Proceed(run, Alone(a, false, Some(0), [], PubStart(0), Idle), Run(0),
        Alone(a, false, Some(0), [], PubSwap(0), Idle));
    run := Proceed(run, Alone(a, false, Some(0), [], PubSwap(0), Idle), Run(0),
        Alone(a, false, Some(0), [], RetStore(0, Return), Idle));
    run := Proceed(run, Alone(a, false, Some(0), [], RetStore(0, Return), Idle), Run(0),
        Alone(a.(retired := true), false, Some(0), [], RetLoad(0, Return), Idle));
  }

  /** ... and is closed: Acquire will load it and find it closed for as long as nothing else is published. */
  lemma RepublishClosesCurrent() returns (run: seq<Label>)
    ensures ValidRun(Start(), run)
    ensures var w := After(Start(), run); w.current == Some(0) && |w.snaps| == 1 && w.snaps[0].closed
  {
    run := RepublishRetires();
    var r := LIVE.(retired := true);
    run := Proceed(run, Alone(r, false, Some(0), [], RetLoad(0, Return), Idle), Run(0),
        Alone(r, false, Some(0), [], CloseCas(0, Return), Idle));
    run := Proceed(run, Alone(r, false, Some(0), [], CloseCas(0, Return), Idle), Run(0),
        Alone(r.(closed := true), false, Some(0), [], CloseManager(0, Return), Idle));
  }

  const LEASED := Counted(LIVE, 1)

  /** Snapshot 0 is leased ... */
  lemma OnlyLease() returns (run: seq<Label>)
    ensures Reaches(run, Alone(LEASED, false, Some(0), [Lease(0, false)], Idle, Idle))
  {
    run := Proceed([], Start(), Begin(0, Acquire), Alone(LIVE, false, Some(0), [], AcqStart, Idle));
    run := Proceed(run, Alone(LIVE, false, Some(0), [], AcqStart, Idle), Run(0),
        Alone(LIVE, false, Some(0), [], AcqLoad, Idle));
    run := Proceed(run, Alone(LIVE, false, Some(0), [], AcqLoad, Idle), Run(0),
        Alone(LIVE, false, Some(0), [], AcqAdd(0), Idle));
    run := Proceed(run, Alone(LIVE, false, Some(0), [], AcqAdd(0), Idle), Run(0),
        Alone(LEASED, false, Some(0), [], AcqCheck(0), Idle));
    run := Proceed(run, Alone(LEASED, false, Some(0), [], AcqCheck(0), Idle), Run(0),
        Alone(LEASED, false, Some(0), [Lease(0, false)], Idle, Idle));
  }

  /** ... Close sets its flag, and the leased snapshot is published again: it is turned away and closed under the
      lease, although no thread has read a count. */
  lemma RepublishClosesLeased() returns (run: seq<Label>)
    ensures ValidRun(Start(), run)
    ensures Out(After(Start(), run), 0) && ClosedUnder(After(Start(), run), 0)
  {
    run := OnlyLease();
    var one := [Lease(0, false)];
    run := Proceed(run, Alone(LEASED, false, Some(0), one, Idle, Idle), Begin(1, CloseAll),
        Alone(LEASED, false, Some(0), one, Idle, MgrStart));
    run := Proceed(run, Alone(LEASED, false, Some(0), one, Idle, MgrStart), Run(1),
        Alone(LEASED, true, Some(0), one, Idle, MgrSwap));
    run := Proceed(run, Alone(LEASED, true, Some(0), one, Idle, MgrSwap), Begin(0, Publish(0)),
        Alone(LEASED, true, Some(0), one, PubStart(0), MgrSwap));
    var r := LEASED.(rejected := true);
    run := Proceed(run, Alone(LEASED, true, Some(0), one, PubStart(0), MgrSwap), Run(0),
        Alone(r, true, Some(0), one, CloseCas(0, Return), MgrSwap));
    run := Proceed(run, Alone(r, true, Some(0), one, CloseCas(0, Return), MgrSwap), Run(0),
        Alone(r.(closed := true), true, Some(0), one, CloseManager(0, Return), MgrSwap));
  }
}
