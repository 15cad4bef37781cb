/** Reference-counted source snapshots: Acquire, Release, Publish, retire and Close
    as threads that perform one atomic access per step. */
module Snapshots {
  import opened Text

  /** refs, retired and closed are the atomics of the source. managerCloses and doneCloses
      count the calls of PluginManager.Close and close(done); offered, installed and
      rejected record what has happened to the snapshot so far. */
  datatype Snap = Snap(
    hasManager: bool,
    refs: int,
    retired: bool,
    closed: bool,
    managerCloses: nat,
    doneCloses: nat,
    offered: bool,
    installed: bool,
    rejected: bool)

  function NewSnap(hasManager: bool): Snap {
    Snap(hasManager, 0, false, false, 0, 0, false, false, false)
  }

  datatype Lease = Lease(snap: nat, released: bool)

  /** Where control goes after a retire or a close. */
  datatype Then = Return | RetryAcquire | AwaitDone

  /** The next atomic access of a thread. */
  datatype Pc =
    | Idle
    | AcqStart            // m.closed.Load
    | AcqLoad             // m.current.Load
    | AcqAdd(s: nat)      // refs.Add(1)
    | AcqCheck(s: nat)    // closed.Load
    | AcqUndo(s: nat)     // refs.Add(-1)
    | AcqRecheck(s: nat)  // retired.Load, after the count reached zero
    | RelSub(s: nat)      // refs.Add(-1)
    | RelRecheck(s: nat)  // retired.Load, after the count reached zero
    | PubStart(s: nat)    // m.closed.Load
    | PubSwap(s: nat)     // m.current.Swap
    | MgrStart            // m.closed.CompareAndSwap
    | MgrSwap             // m.current.Swap(nil)
    | RetStore(s: nat, next: Then)      // retired.Store(true)
    | RetLoad(s: nat, next: Then)       // refs.Load
    | CloseCas(s: nat, next: Then)      // closed.CompareAndSwap
    | CloseManager(s: nat, next: Then)  // PluginManager.Close
    | CloseDone(s: nat, next: Then)     // close(done)
    | Waiting(s: nat)     // Manager.Close waits for done

  datatype World = World(
    snaps: seq<Snap>,
    current: Option<nat>,
    managerClosed: bool,
    leases: seq<Lease>,
    threads: seq<Pc>)

  datatype Op = Acquire | Release(lease: nat) | Publish(s: nat) | CloseAll

  datatype Label =
    | Create(hasManager: bool)
    | Begin(thread: nat, op: Op)
    | Run(thread: nat)
    | GiveUp(thread: nat)   // the context of Manager.Close ends

  /** NewManager with or without an initial snapshot. */
  function Initial(first: Option<bool>, threads: nat): World {
    World(if first.Some? then [NewSnap(first.value).(offered := true, installed := true)] else [],
          if first.Some? then Some(0) else None, false, [], seq(threads, _ => Idle))
  }

  /** The snapshot a thread is working on. */
  function Target(pc: Pc): Option<nat> {
    match pc
    case Idle => None case AcqStart => None case AcqLoad => None case MgrStart => None case MgrSwap => None
    case AcqAdd(s) => Some(s) case AcqCheck(s) => Some(s) case AcqUndo(s) => Some(s) case AcqRecheck(s) => Some(s)
    case RelSub(s) => Some(s) case RelRecheck(s) => Some(s) case PubStart(s) => Some(s) case PubSwap(s) => Some(s)
    case RetStore(s, _) => Some(s) case RetLoad(s, _) => Some(s) case CloseCas(s, _) => Some(s)
    case CloseManager(s, _) => Some(s) case CloseDone(s, _) => Some(s) case Waiting(s) => Some(s)
  }

  /** What the access does to the snapshot it touches. */
  function Effect(x: Snap, pc: Pc, managerClosed: bool): Snap {
    match pc
    case AcqAdd(_) => x.(refs := x.refs + 1)
    case AcqUndo(_) => x.(refs := x.refs - 1)
    case RelSub(_) => x.(refs := x.refs - 1)
    case PubStart(_) => if managerClosed then x.(rejected := true) else x
    case PubSwap(_) => x.(installed := true)
    case RetStore(_, _) => x.(retired := true)
    case CloseCas(_, _) => x.(closed := true)
    case CloseManager(_, _) => if x.hasManager then x.(managerCloses := x.managerCloses + 1) else x
    case CloseDone(_, _) => x.(doneCloses := x.doneCloses + 1)
    case _ => x
  }

  function Resume(s: nat, next: Then): Pc {
    match next
    case Return => Idle
    case RetryAcquire => AcqLoad
    case AwaitDone => Waiting(s)
  }

  /** After a swap, whatever was current before is retired. */
  function Retire(outgoing: Option<nat>, next: Then): Pc {
    if outgoing.Some? then RetStore(outgoing.value, next) else Idle
  }

  /** Where the thread goes; x is its snapshot before the access. */
  function NextPc(pc: Pc, x: Snap, current: Option<nat>, managerClosed: bool): Pc {
    match pc
    case Idle => Idle
    case AcqStart => if managerClosed then Idle else AcqLoad
    case AcqLoad => if current.Some? then AcqAdd(current.value) else Idle
    case AcqAdd(s) => AcqCheck(s)
    case AcqCheck(s) => if x.closed then AcqUndo(s) else Idle
    case AcqUndo(s) => if x.refs - 1 == 0 then AcqRecheck(s) else AcqLoad
    case AcqRecheck(s) => if x.retired then CloseCas(s, RetryAcquire) else AcqLoad
    case RelSub(s) => if x.refs - 1 == 0 then RelRecheck(s) else Idle
    case RelRecheck(s) => if x.retired then CloseCas(s, Return) else Idle
    case PubStart(s) => if managerClosed then CloseCas(s, Return) else PubSwap(s)
    case PubSwap(_) => Retire(current, Return)
    case MgrStart => if managerClosed then Idle else MgrSwap
    case MgrSwap => Retire(current, AwaitDone)
    case RetStore(s, next) => RetLoad(s, next)
    case RetLoad(s, next) => if x.refs == 0 then CloseCas(s, next) else Resume(s, next)
    case CloseCas(s, next) => if x.closed then Resume(s, next) else CloseManager(s, next)
    case CloseManager(s, next) => CloseDone(s, next)
    case CloseDone(s, next) => Resume(s, next)
    case Waiting(_) => Idle
  }

  function Grants(pc: Pc, x: Snap): seq<Lease> {
    if pc.AcqCheck? && !x.closed then [Lease(pc.s, false)] else []
  }

  function NextCurrent(pc: Pc, current: Option<nat>): Option<nat> {
    if pc.PubSwap? then Some(pc.s) else if pc.MgrSwap? then None else current
  }

  function SnapAt(snaps: seq<Snap>, s: Option<nat>): Snap {
    if s.Some? && s.value < |snaps| then snaps[s.value] else NewSnap(false)
  }

  function PutAt(snaps: seq<Snap>, s: Option<nat>, x: Snap): seq<Snap> {
    if s.Some? && s.value < |snaps| then snaps[s.value := x] else snaps
  }

  /** Thread t performs its next atomic access. */
  function RunThread(w: World, t: nat): World
    requires t < |w.threads|
  {
    var pc := w.threads[t];
    var x := SnapAt(w.snaps, Target(pc));
    World(PutAt(w.snaps, Target(pc), Effect(x, pc, w.managerClosed)),
          NextCurrent(pc, w.current),
          w.managerClosed || pc.MgrStart?,
          w.leases + Grants(pc, x),
          w.threads[t := NextPc(pc, x, w.current, w.managerClosed)])
  }

  predicate Enabled(w: World, l: Label) {
    match l
    case Create(_) => true
    case Begin(t, op) =>
      && t < |w.threads| && w.threads[t].Idle?
      && (op.Release? ==> op.lease < |w.leases|)
      && (op.Publish? ==> op.s < |w.snaps|)
    case Run(t) =>
      && t < |w.threads| && !w.threads[t].Idle?
      && (w.threads[t].Waiting? ==> SnapAt(w.snaps, Target(w.threads[t])).doneCloses > 0)
    case GiveUp(t) => t < |w.threads| && w.threads[t].Waiting?
  }

  function Goto(w: World, t: nat, pc: Pc): World
    requires t < |w.threads|
  {
    w.(threads := w.threads[t := pc])
  }

  function BeginOp(w: World, t: nat, op: Op): World
    requires Enabled(w, Begin(t, op))
  {
    match op
    case Acquire => Goto(w, t, AcqStart)
    case Release(i) =>
      // sync.Once: only the first Release of a lease runs its body.
      if w.leases[i].released then w
      else Goto(w.(leases := w.leases[i := w.leases[i].(released := true)]), t, RelSub(w.leases[i].snap))
    case Publish(s) => Goto(w.(snaps := w.snaps[s := w.snaps[s].(offered := true)]), t, PubStart(s))
    case CloseAll => Goto(w, t, MgrStart)
  }

  function Step(w: World, l: Label): World
    requires Enabled(w, l)
  {
    match l
    case Create(m) => w.(snaps := w.snaps + [NewSnap(m)])
    case Begin(t, op) => BeginOp(w, t, op)
    case Run(t) => RunThread(w, t)
    case GiveUp(t) => Goto(w, t, Idle)
  }

  // ----- counting --------------------------------------------------------

  datatype Role =
    | Pinning      // owns one unit of refs
    | Obliged      // will look at refs or at closed again
    | AtManager    // won the CAS, manager not closed yet
    | AtDone       // manager closed, done not closed yet

  predicate Plays(pc: Pc, role: Role, s: nat) {
    match role
    case Pinning => pc == AcqCheck(s) || pc == AcqUndo(s) || pc == RelSub(s)
    case Obliged =>
      || pc == RelRecheck(s) || pc == AcqRecheck(s)
      || (pc.RetLoad? && pc.s == s) || (pc.CloseCas? && pc.s == s)
    case AtManager => pc.CloseManager? && pc.s == s
    case AtDone => pc.CloseDone? && pc.s == s
  }

  function One(b: bool): nat {
    if b then 1 else 0
  }

  function Count(ts: seq<Pc>, role: Role, s: nat): nat {
    if ts == [] then 0 else One(Plays(ts[0], role, s)) + Count(ts[1..], role, s)
  }

  function Unreleased(ls: seq<Lease>, s: nat): nat {
    if ls == [] then 0 else One(ls[0] == Lease(s, false)) + Unreleased(ls[1..], s)
  }

  lemma {:induction false} CountUpdate(ts: seq<Pc>, t: nat, pc: Pc, role: Role, s: nat)
    requires t < |ts|
    ensures Count(ts[t := pc], role, s) + One(Plays(ts[t], role, s)) == Count(ts, role, s) + One(Plays(pc, role, s))
    ensures Count(ts, role, s) >= One(Plays(ts[t], role, s))
  {
    if t == 0 {
      assert ts[t := pc][1..] == ts[1..];
    } else {
      CountUpdate(ts[1..], t - 1, pc, role, s);
      assert ts[t := pc][1..] == ts[1..][t - 1 := pc];
    }
  }

  lemma {:induction false} UnreleasedUpdate(ls: seq<Lease>, i: nat, x: Lease, s: nat)
    requires i < |ls|
    ensures Unreleased(ls[i := x], s) + One(ls[i] == Lease(s, false)) == Unreleased(ls, s) + One(x == Lease(s, false))
  {
    if i == 0 {
      assert ls[i := x][1..] == ls[1..];
    } else {
      UnreleasedUpdate(ls[1..], i - 1, x, s);
      assert ls[i := x][1..] == ls[1..][i - 1 := x];
    }
  }

  lemma {:induction false} UnreleasedAppend(ls: seq<Lease>, x: Lease, s: nat)
    ensures Unreleased(ls + [x], s) == Unreleased(ls, s) + One(x == Lease(s, false))
  {
    if ls == [] {
      assert ls + [x] == [x];
    } else {
      UnreleasedAppend(ls[1..], x, s);
      assert (ls + [x])[1..] == ls[1..] + [x];
    }
  }

  lemma {:induction false} CountZero(ts: seq<Pc>, role: Role, s: nat)
    requires forall t :: 0 <= t < |ts| ==> !Plays(ts[t], role, s)
    ensures Count(ts, role, s) == 0
  {
    if ts != [] {
      CountZero(ts[1..], role, s);
    }
  }

  lemma {:induction false} CountPositive(ts: seq<Pc>, t: nat, role: Role, s: nat)
    requires t < |ts| && Plays(ts[t], role, s)
    ensures Count(ts, role, s) > 0
  {
    if t > 0 {
      CountPositive(ts[1..], t - 1, role, s);
    }
  }

  lemma {:induction false} UnreleasedPositive(ls: seq<Lease>, i: nat, s: nat)
    requires i < |ls| && ls[i] == Lease(s, false)
    ensures Unreleased(ls, s) > 0
  {
    if i > 0 {
      UnreleasedPositive(ls[1..], i - 1, s);
    }
  }

  // ----- invariant of every interleaving ---------------------------------

  datatype Tally = Tally(unreleased: int, pinning: int, obliged: int, atManager: int, atDone: int)

  function TallyOf(w: World, s: nat): Tally {
    Tally(Unreleased(w.leases, s), Count(w.threads, Pinning, s), Count(w.threads, Obliged, s),
          Count(w.threads, AtManager, s), Count(w.threads, AtDone, s))
  }

  /** What holds of one snapshot, given how many threads play each role for it. */
  ghost predicate SnapOk(x: Snap, y: Tally) {
    && x.refs == y.unreleased + y.pinning
    && (x.retired && !x.closed ==> x.refs > 0 || y.obliged > 0)
    && (x.closed ==> x.retired || x.rejected)
    && (!x.closed ==> y.atManager == 0 && y.atDone == 0 && x.managerCloses == 0 && x.doneCloses == 0)
    && (x.closed ==> x.doneCloses + y.atManager + y.atDone == 1)
    && (x.closed ==> x.managerCloses == if x.hasManager then 1 - y.atManager else 0)
  }

  /** A thread that may close a snapshot has seen it retired or turned away. */
  ghost predicate PcOk(pc: Pc, x: Snap) {
    match pc
    case AcqUndo(_) => x.closed
    case RetLoad(_, _) => x.retired
    case CloseCas(_, next) => (x.retired || x.rejected) && (next.AwaitDone? ==> x.retired)
    case CloseManager(_, next) => next.AwaitDone? ==> x.retired
    case CloseDone(_, next) => next.AwaitDone? ==> x.retired
    case Waiting(_) => x.retired
    case _ => true
  }

  ghost predicate ThreadOk(w: World, t: nat)
    requires t < |w.threads|
  {
    var s := Target(w.threads[t]);
    (s.Some? ==> s.value < |w.snaps|) && PcOk(w.threads[t], SnapAt(w.snaps, s))
  }

  ghost predicate Ranges(w: World) {
    && (forall i :: 0 <= i < |w.leases| ==> w.leases[i].snap < |w.snaps|)
    && (w.current.Some? ==> w.current.value < |w.snaps|)
  }

  ghost predicate Inv(w: World) {
    && Ranges(w)
    && (forall t :: 0 <= t < |w.threads| ==> ThreadOk(w, t))
    && (forall s :: 0 <= s < |w.snaps| ==> SnapOk(w.snaps[s], TallyOf(w, s)))
  }

  // ----- one access, seen by one snapshot --------------------------------

  /** The tally of s when a thread goes from pc to next and leases are granted. */
  function Moved(y: Tally, pc: Pc, next: Pc, granted: seq<Lease>, s: nat): Tally {
    Tally(y.unreleased + Unreleased(granted, s),
          y.pinning - One(Plays(pc, Pinning, s)) + One(Plays(next, Pinning, s)),
          y.obliged - One(Plays(pc, Obliged, s)) + One(Plays(next, Obliged, s)),
          y.atManager - One(Plays(pc, AtManager, s)) + One(Plays(next, AtManager, s)),
          y.atDone - One(Plays(pc, AtDone, s)) + One(Plays(next, AtDone, s)))
  }

  ghost predicate Counted(y: Tally, pc: Pc, s: nat) {
    && y.unreleased >= 0 && y.pinning >= One(Plays(pc, Pinning, s)) && y.obliged >= One(Plays(pc, Obliged, s))
    && y.atManager >= One(Plays(pc, AtManager, s)) && y.atDone >= One(Plays(pc, AtDone, s))
  }

  lemma UnreleasedOne(x: Lease, s: nat)
    ensures Unreleased([x], s) == One(x == Lease(s, false))
  {
    UnreleasedAppend([], x, s);
    assert [] + [x] == [x];
  }

  /** The accesses that count. */
  lemma CountingAccess(pc: Pc, x: Snap, y: Tally, current: Option<nat>, managerClosed: bool, s: nat)
    requires pc == AcqAdd(s) || pc == AcqCheck(s) || pc == AcqUndo(s) || pc == RelSub(s)
    requires PcOk(pc, x) && SnapOk(x, y) && Counted(y, pc, s)
    ensures var next := NextPc(pc, x, current, managerClosed);
            SnapOk(Effect(x, pc, managerClosed), Moved(y, pc, next, Grants(pc, x), s))
  {
    UnreleasedOne(Lease(s, false), s);
  }

  /** The accesses that decide about closing. */
  lemma ClosingAccess(pc: Pc, x: Snap, y: Tally, current: Option<nat>, managerClosed: bool, s: nat)
    requires pc.RetStore? || pc.RetLoad? || pc.CloseCas? || pc.CloseManager? || pc.CloseDone?
    requires pc.s == s && PcOk(pc, x) && SnapOk(x, y) && Counted(y, pc, s)
    ensures var next := NextPc(pc, x, current, managerClosed);
            SnapOk(Effect(x, pc, managerClosed), Moved(y, pc, next, Grants(pc, x), s))
  {
  }

  /** An access of the snapshot's own threads keeps its condition. */
  lemma OwnAccess(pc: Pc, x: Snap, y: Tally, current: Option<nat>, managerClosed: bool, s: nat)
    requires Target(pc) == Some(s) && PcOk(pc, x) && SnapOk(x, y) && Counted(y, pc, s)
    ensures var next := NextPc(pc, x, current, managerClosed);
            SnapOk(Effect(x, pc, managerClosed), Moved(y, pc, next, Grants(pc, x), s))
  {
    if pc.AcqAdd? || pc.AcqCheck? || pc.AcqUndo? || pc.RelSub? {
      CountingAccess(pc, x, y, current, managerClosed, s);
    } else if pc.RetStore? || pc.RetLoad? || pc.CloseCas? || pc.CloseManager? || pc.CloseDone? {
      ClosingAccess(pc, x, y, current, managerClosed, s);
    }
  }

  /** An access of another snapshot's thread does not concern s. */
  lemma OtherAccess(pc: Pc, x: Snap, y: Tally, current: Option<nat>, managerClosed: bool, s: nat)
    requires Target(pc) != Some(s)
    ensures var next := NextPc(pc, x, current, managerClosed);
            Moved(y, pc, next, Grants(pc, x), s) == y
  {
    if pc.AcqCheck? {
      UnreleasedOne(Lease(pc.s, false), s);
    }
  }

  lemma PcOkAfter(pc: Pc, x: Snap, current: Option<nat>, managerClosed: bool, s: nat)
    requires Target(pc) == Some(s) && PcOk(pc, x)
    ensures var next := NextPc(pc, x, current, managerClosed);
            Target(next) == Some(s) ==> PcOk(next, Effect(x, pc, managerClosed))
  {
  }

  lemma {:induction false} UnreleasedConcat(a: seq<Lease>, b: seq<Lease>, s: nat)
    ensures Unreleased(a + b, s) == Unreleased(a, s) + Unreleased(b, s)
  {
    if a == [] {
      assert a + b == b;
    } else {
      UnreleasedConcat(a[1..], b, s);
      assert (a + b)[1..] == a[1..] + b;
    }
  }

  lemma TallyMoves(w: World, t: nat, next: Pc, granted: seq<Lease>, s: nat)
    requires t < |w.threads|
    ensures TallyOf(Goto(w.(leases := w.leases + granted), t, next), s) ==
            Moved(TallyOf(w, s), w.threads[t], next, granted, s)
    ensures Counted(TallyOf(w, s), w.threads[t], s)
  {
    CountUpdate(w.threads, t, next, Pinning, s);
    CountUpdate(w.threads, t, next, Obliged, s);
    CountUpdate(w.threads, t, next, AtManager, s);
    CountUpdate(w.threads, t, next, AtDone, s);
    UnreleasedConcat(w.leases, granted, s);
  }

  lemma SnapRun(w: World, t: nat, s: nat)
    requires t < |w.threads| && s < |w.snaps| && ThreadOk(w, t) && SnapOk(w.snaps[s], TallyOf(w, s))
    ensures SnapOk(RunThread(w, t).snaps[s], TallyOf(RunThread(w, t), s))
  {
    var pc := w.threads[t];
    var x := SnapAt(w.snaps, Target(pc));
    var next := NextPc(pc, x, w.current, w.managerClosed);
    TallyMoves(w, t, next, Grants(pc, x), s);
    assert TallyOf(RunThread(w, t), s) == Moved(TallyOf(w, s), pc, next, Grants(pc, x), s);
    if Target(pc) == Some(s) {
      OwnAccess(pc, x, TallyOf(w, s), w.current, w.managerClosed, s);
    } else {
      OtherAccess(pc, x, TallyOf(w, s), w.current, w.managerClosed, s);
    }
  }

  /** A release is counted on from the moment its lease is marked released. */
  lemma SnapRelease(w: World, t: nat, i: nat, s: nat)
    requires t < |w.threads| && w.threads[t].Idle? && i < |w.leases| && !w.leases[i].released
    ensures var r := Goto(w.(leases := w.leases[i := w.leases[i].(released := true)]), t, RelSub(w.leases[i].snap));
      && TallyOf(r, s).unreleased + TallyOf(r, s).pinning == TallyOf(w, s).unreleased + TallyOf(w, s).pinning
      && TallyOf(r, s).(unreleased := 0, pinning := 0) == TallyOf(w, s).(unreleased := 0, pinning := 0)
  {
    var x := w.leases[i];
    UnreleasedUpdate(w.leases, i, x.(released := true), s);
    TallyMoves(w, t, RelSub(x.snap), [], s);
    assert w.leases + [] == w.leases;
  }

  lemma SnapBegin(w: World, t: nat, op: Op, s: nat)
    requires Enabled(w, Begin(t, op)) && s < |w.snaps| && SnapOk(w.snaps[s], TallyOf(w, s))
    ensures SnapOk(BeginOp(w, t, op).snaps[s], TallyOf(BeginOp(w, t, op), s))
  {
    match op
    case Release(i) =>
      if !w.leases[i].released {
        SnapRelease(w, t, i, s);
      }
    case Acquire => IdleMoves(w, t, AcqStart, s);
    case Publish(p) => IdleMoves(w, t, PubStart(p), s);
    case CloseAll => IdleMoves(w, t, MgrStart, s);
  }

  /** Going to where no role is played changes no tally. */
  lemma IdleMoves(w: World, t: nat, pc: Pc, s: nat)
    requires t < |w.threads| && (w.threads[t].Idle? || w.threads[t].Waiting?)
    requires pc.Idle? || pc.AcqStart? || pc.PubStart? || pc.MgrStart?
    ensures TallyOf(Goto(w, t, pc), s) == TallyOf(w, s)
  {
    TallyMoves(w, t, pc, [], s);
    assert w.leases + [] == w.leases;
  }

  // ----- every step keeps the invariant ----------------------------------

  /** Flags that are never taken back; PcOk depends on nothing else. */
  ghost predicate Latched(x: Snap, y: Snap) {
    (x.retired ==> y.retired) && (x.rejected ==> y.rejected) && (x.closed ==> y.closed)
  }

  lemma EffectLatches(x: Snap, pc: Pc, managerClosed: bool)
    ensures Latched(x, Effect(x, pc, managerClosed))
  {
  }

  lemma PcOkMonotone(pc: Pc, x: Snap, y: Snap)
    requires PcOk(pc, x) && Latched(x, y)
    ensures PcOk(pc, y)
  {
  }

  lemma ThreadRun(w: World, t: nat, u: nat)
    requires t < |w.threads| && u < |w.threads| && Ranges(w) && ThreadOk(w, t) && ThreadOk(w, u)
    ensures ThreadOk(RunThread(w, t), u)
  {
    var pc := w.threads[t];
    var s := Target(pc);
    var x := SnapAt(w.snaps, s);
    var r := RunThread(w, t);
    EffectLatches(x, pc, w.managerClosed);
    if u == t {
      var next := NextPc(pc, x, w.current, w.managerClosed);
      assert Target(next) == s || Target(next) == None || Target(next) == w.current;
      if s.Some? {
        PcOkAfter(pc, x, w.current, w.managerClosed, s.value);
      }
    } else {
      PcOkMonotone(w.threads[u], SnapAt(w.snaps, Target(w.threads[u])), SnapAt(r.snaps, Target(w.threads[u])));
    }
  }

  lemma RunKeepsInv(w: World, t: nat)
    requires Inv(w) && t < |w.threads|
    ensures Inv(RunThread(w, t))
  {
    var r := RunThread(w, t);
    assert ThreadOk(w, t);
    forall s | 0 <= s < |r.snaps| ensures SnapOk(r.snaps[s], TallyOf(r, s)) {
      SnapRun(w, t, s);
    }
    forall u | 0 <= u < |r.threads| ensures ThreadOk(r, u) {
      ThreadRun(w, t, u);
    }
  }

  lemma BeginKeepsInv(w: World, t: nat, op: Op)
    requires Inv(w) && Enabled(w, Begin(t, op))
    ensures Inv(BeginOp(w, t, op))
  {
    var r := BeginOp(w, t, op);
    forall s | 0 <= s < |r.snaps| ensures SnapOk(r.snaps[s], TallyOf(r, s)) {
      SnapBegin(w, t, op, s);
    }
    forall u | 0 <= u < |r.threads| ensures ThreadOk(r, u) {
      assert ThreadOk(w, u);
    }
  }

  lemma {:induction false} NoneUnreleased(ls: seq<Lease>, s: nat)
    requires forall i :: 0 <= i < |ls| ==> ls[i] != Lease(s, false)
    ensures Unreleased(ls, s) == 0
  {
    if ls != [] {
      NoneUnreleased(ls[1..], s);
    }
  }

  lemma UnknownSnapshot(w: World, s: nat)
    requires Inv(w) && s == |w.snaps|
    ensures TallyOf(w, s) == Tally(0, 0, 0, 0, 0)
  {
    forall role ensures Count(w.threads, role, s) == 0 {
      forall t | 0 <= t < |w.threads| ensures !Plays(w.threads[t], role, s) {
        assert ThreadOk(w, t);
      }
      CountZero(w.threads, role, s);
    }
    NoneUnreleased(w.leases, s);
  }

  lemma CreateKeepsInv(w: World, m: bool)
    requires Inv(w)
    ensures Inv(w.(snaps := w.snaps + [NewSnap(m)]))
  {
    var r := w.(snaps := w.snaps + [NewSnap(m)]);
    UnknownSnapshot(w, |w.snaps|);
    forall s | 0 <= s < |r.snaps| ensures SnapOk(r.snaps[s], TallyOf(r, s)) {
      assert TallyOf(r, s) == TallyOf(w, s);
    }
    forall u | 0 <= u < |r.threads| ensures ThreadOk(r, u) {
      assert ThreadOk(w, u);
    }
  }

  lemma GiveUpKeepsInv(w: World, t: nat)
    requires Inv(w) && Enabled(w, GiveUp(t))
    ensures Inv(Goto(w, t, Idle))
  {
    var r := Goto(w, t, Idle);
    forall s | 0 <= s < |r.snaps| ensures SnapOk(r.snaps[s], TallyOf(r, s)) {
      IdleMoves(w, t, Idle, s);
    }
    forall u | 0 <= u < |r.threads| ensures ThreadOk(r, u) {
      assert ThreadOk(w, u);
    }
  }

  lemma InvStep(w: World, l: Label)
    requires Inv(w) && Enabled(w, l)
    ensures Inv(Step(w, l))
  {
    match l
    case Create(m) => CreateKeepsInv(w, m);
    case Begin(t, op) => BeginKeepsInv(w, t, op);
    case Run(t) => RunKeepsInv(w, t);
    case GiveUp(t) => GiveUpKeepsInv(w, t);
  }
}
