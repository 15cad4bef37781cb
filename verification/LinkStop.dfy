/** After Stop: whatever the interleaving, only so much is left to do, and somebody can
    always do the next part of it until finishStop can. */
module LinkStop {
  import opened Text
  import opened LinkQueue
  import opened LinkProtocol
  import opened LinkProof
  import opened LinkRuns

  // ----- how much is left to do ------------------------------------------

  function Times(n: nat, unit: nat): nat {
    if n == 0 then 0 else unit + Times(n - 1, unit)
  }

  /** How many circuits stay open beyond time t. */
  function OpenBeyond(order: seq<string>, q: Queue, t: Time): nat {
    if order == [] then 0
    else
      var until := StateOf(q, order[0]).circuitUntil;
      (if until.Some? && until.value > t then 1 else 0) + OpenBeyond(order[1..], q, t)
  }

  /** Beyond now for a look at the queue, beyond the alarm for a worker that waits for one. */
  function Looks(q: Queue, t: Time): nat {
    2 * OpenBeyond(q.order, q, t)
  }

  /** The work a buffered token can cause: the look of one worker. */
  function Token(q: Queue): nat {
    2 * |q.order| + 3
  }

  /** The work until a worker has exited, in a crew of the given size: a release may open a
      circuit, for which every worker may set an alarm and look again. */
  function Rank(q: Queue, clock: Time, crew: nat, x: Worker): nat {
    var a := Token(q);
    match x
    case Exited => 0
    case Parked(timer) =>
      if timer.None? then 1 else Looks(q, if timer.value > clock then timer.value else clock) + 3
    case Scanning => Looks(q, clock) + 2
    case Sending(_) => 2 * a + 4
    case ReleaseDebt(_) => 3 * a + 5
    case Checked(_) => 3 * a + 6 + Times(crew, 2)
    case Checking(_) => 3 * a + 7 + Times(crew, 2)
    case ClaimDebt(_) => 4 * a + 8 + Times(crew, 2)
  }

  function Ranks(q: Queue, clock: Time, crew: nat, ws: seq<Worker>): nat {
    if ws == [] then 0 else Rank(q, clock, crew, ws[0]) + Ranks(q, clock, crew, ws[1..])
  }

  function Waiting(order: seq<string>, pending: map<string, seq<Candidate>>): nat {
    if order == [] then 0 else |Line(pending, order[0])| + Waiting(order[1..], pending)
  }

  function PhaseRank(phase: Phase): nat {
    match phase
    case Receiving => 2
    case Draining => 1
    case Finished => 0
  }

  /** The work in the channel and with the writer, where a is the work of a token. */
  function WriterWork(a: nat, results: nat, wr: Writer): nat {
    Times(results, a + 4) + Times(|wr.batch|, a + 3) + Times(|wr.inHand|, a + 2)
    + (if wr.owes then a + 1 else 0) + PhaseRank(wr.phase)
  }

  function SignalWork(a: nat, wake: bool, debts: nat): nat {
    (if wake then a else 0) + Times(debts, a + 1)
  }

  function LineWork(q: Queue, crew: nat): nat {
    Times(Waiting(q.order, q.pending), 4 * Token(q) + 8 + Times(crew, 2))
  }

  /** An upper bound on the steps that are left after Stop. */
  function Work(w: World): nat {
    LineWork(w.q, |w.workers|) + Ranks(w.q, w.clock, |w.workers|, w.workers)
    + WriterWork(Token(w.q), |w.results|, w.writer) + SignalWork(Token(w.q), w.wake, w.debts)
  }

  /** Not counted: time, a context cancelled again, a refused Enqueue and an empty flush. */
  predicate Productive(w: World, l: Label) {
    !l.Tick? && !l.CancelContext? && !l.Enqueue? && !(l.Flush? && w.writer.batch == [])
  }

  predicate Closing(w: World) {
    w.stopping && w.cancelled && !w.q.started
  }

  // ----- sums ------------------------------------------------------------

  lemma {:induction false} TimesLess(n: nat, unit: nat)
    ensures Times(n, unit + 1) == Times(n, unit) + n
  {
    if n > 0 {
      TimesLess(n - 1, unit);
    }
  }

  lemma {:induction false} RanksUpdate(q: Queue, clock: Time, crew: nat, ws: seq<Worker>, i: nat, x: Worker)
    requires i < |ws|
    ensures Ranks(q, clock, crew, ws[i := x]) + Rank(q, clock, crew, ws[i])
         == Ranks(q, clock, crew, ws) + Rank(q, clock, crew, x)
  {
    if i == 0 {
      assert ws[i := x][1..] == ws[1..];
    } else {
      RanksUpdate(q, clock, crew, ws[1..], i - 1, x);
      assert ws[i := x][1..] == ws[1..][i - 1 := x];
    }
  }

  lemma {:induction false} WaitingSame(order: seq<string>, pending: map<string, seq<Candidate>>, p: string,
      s: seq<Candidate>)
    requires p !in order
    ensures Waiting(order, pending[p := s]) == Waiting(order, pending)
  {
    if order != [] {
      WaitingSame(order[1..], pending, p, s);
    }
  }

  lemma {:induction false} WaitingFalls(order: seq<string>, pending: map<string, seq<Candidate>>, p: string)
    requires Distinct(order) && p in order && Line(pending, p) != []
    ensures Waiting(order, pending[p := Line(pending, p)[1..]]) + 1 == Waiting(order, pending)
  {
    if order[0] == p {
      assert p !in order[1..];
      WaitingSame(order[1..], pending, p, Line(pending, p)[1..]);
    } else {
      WaitingFalls(order[1..], pending, p);
    }
  }

  // ----- open circuits ---------------------------------------------------

  ghost predicate SameCircuits(q: Queue, r: Queue) {
    r.order == q.order && forall p :: StateOf(r, p).circuitUntil == StateOf(q, p).circuitUntil
  }

  lemma {:induction false} OpenBeyondSame(order: seq<string>, q: Queue, r: Queue, t: Time)
    requires SameCircuits(q, r)
    ensures OpenBeyond(order, r, t) == OpenBeyond(order, q, t)
  {
    if order != [] {
      OpenBeyondSame(order[1..], q, r, t);
    }
  }

  lemma {:induction false} OpenBeyondBounds(order: seq<string>, q: Queue, s: Time, t: Time)
    requires s <= t
    ensures OpenBeyond(order, q, t) <= OpenBeyond(order, q, s) <= |order|
  {
    if order != [] {
      OpenBeyondBounds(order[1..], q, s, t);
    }
  }

  /** A deadline is open until it has passed, and no longer. */
  lemma {:induction false} OpenBeyondFalls(order: seq<string>, q: Queue, s: Time, p: string)
    requires p in order && StateOf(q, p).circuitUntil.Some? && StateOf(q, p).circuitUntil.value > s
    ensures OpenBeyond(order, q, StateOf(q, p).circuitUntil.value) < OpenBeyond(order, q, s)
  {
    OpenBeyondBounds(order[1..], q, s, StateOf(q, p).circuitUntil.value);
    if order[0] != p {
      OpenBeyondFalls(order[1..], q, s, p);
    }
  }

  /** One platform's record changes: at most one more circuit is open. */
  lemma {:induction false} OpenBeyondGrows(order: seq<string>, q: Queue, r: Queue, p: string, t: Time)
    requires Distinct(order) && forall x :: x != p ==> StateOf(r, x) == StateOf(q, x)
    ensures OpenBeyond(order, r, t) <= OpenBeyond(order, q, t) + (if p in order then 1 else 0)
  {
    if order != [] {
      OpenBeyondGrows(order[1..], q, r, p, t);
      assert order[0] == p ==> p !in order[1..];
      assert p in order <==> order[0] == p || p in order[1..];
    }
  }

  lemma {:induction false} NextProbeIsDeadline(q: Queue, now: Time, k: nat) returns (p: string)
    requires k <= |q.order| && NextProbe(q, now, k).Some?
    ensures p in q.order && StateOf(q, p).circuitUntil == NextProbe(q, now, k) && NextProbe(q, now, k).value > now
  {
    if OpenUntil(q, At(q, k - 1), now) == NextProbe(q, now, k) {
      p := At(q, k - 1);
    } else {
      p := NextProbeIsDeadline(q, now, k - 1);
    }
  }

  // ----- a worker's steps ------------------------------------------------

  lemma SameRank(q: Queue, r: Queue, clock: Time, crew: nat, x: Worker)
    requires SameCircuits(q, r)
    ensures Rank(r, clock, crew, x) == Rank(q, clock, crew, x)
  {
    OpenBeyondSame(q.order, q, r, clock);
    if x.Parked? && x.timer.Some? {
      OpenBeyondSame(q.order, q, r, x.timer.value);
    }
  }

  lemma {:induction false} SameRanks(q: Queue, r: Queue, clock: Time, crew: nat, ws: seq<Worker>)
    requires SameCircuits(q, r)
    ensures Ranks(r, clock, crew, ws) == Ranks(q, clock, crew, ws)
  {
    if ws != [] {
      SameRank(q, r, clock, crew, ws[0]);
      SameRanks(q, r, clock, crew, ws[1..]);
    }
  }

  lemma ScanKeepsCircuits(cfg: Config, q: Queue, now: Time)
    ensures SameCircuits(q, Scan(cfg, q, now).queue)
  {
    forall p ensures StateOf(Scan(cfg, q, now).queue, p).circuitUntil == StateOf(q, p).circuitUntil {
      ScanState(cfg, q, now, p);
    }
  }

  /** A look that finds nothing ends without an alarm, or with one for a circuit that is open now. */
  lemma LookEnds(cfg: Config, q: Queue, now: Time, crew: nat)
    requires Scan(cfg, q, now).claim.None?
    ensures Rank(q, now, crew, Parked(Scan(cfg, q, now).nextProbe)) < Rank(q, now, crew, Scanning)
  {
    ScanFails(cfg, q, now);
    if NextProbe(q, now, |q.order|).Some? {
      var p := NextProbeIsDeadline(q, now, |q.order|);
      OpenBeyondFalls(q.order, q, now, p);
    }
  }

  lemma ClaimTakesOne(cfg: Config, q: Queue, now: Time)
    requires QueueShape(q) && Scan(cfg, q, now).claim.Some?
    ensures var r := Scan(cfg, q, now).queue;
      r.order == q.order && Waiting(r.order, r.pending) + 1 == Waiting(q.order, q.pending)
  {
    var k := ScanClaims(cfg, q, now);
    var p := At(q, k);
    assert Line(q.pending, p) == q.pending[p] && p in q.order;
    WaitingFalls(q.order, q.pending, p);
  }

  lemma LineShrinks(q: Queue, r: Queue, crew: nat, c: Candidate, clock: Time)
    requires r.order == q.order && Waiting(r.order, r.pending) + 1 == Waiting(q.order, q.pending)
    ensures LineWork(r, crew) + Rank(q, clock, crew, ClaimDebt(c)) == LineWork(q, crew)
  {
  }

  /** A look that claims: the candidate leaves its line for the worker. */
  lemma WorkOnClaim(cfg: Config, w: World, i: nat, r: Queue, c: Candidate)
    requires QueueShape(w.q) && i < |w.workers| && w.workers[i].Scanning?
    requires Scan(cfg, w.q, w.clock).claim == Some(c) && Scan(cfg, w.q, w.clock).queue == r
    ensures LineWork(r, |w.workers|) + Ranks(w.q, w.clock, |w.workers|, w.workers[i := ClaimDebt(c)])
          < LineWork(w.q, |w.workers|) + Ranks(w.q, w.clock, |w.workers|, w.workers)
  {
    ClaimTakesOne(cfg, w.q, w.clock);
    LineShrinks(w.q, r, |w.workers|, c, w.clock);
    RanksUpdate(w.q, w.clock, |w.workers|, w.workers, i, ClaimDebt(c));
  }

  lemma WorkOnLook(cfg: Config, w: World, i: nat, r: Queue, x: Worker)
    requires i < |w.workers| && w.workers[i].Scanning? && Scan(cfg, w.q, w.clock).claim.None?
    requires x == Parked(Scan(cfg, w.q, w.clock).nextProbe) && Scan(cfg, w.q, w.clock).queue == r
    ensures LineWork(r, |w.workers|) == LineWork(w.q, |w.workers|)
    ensures Ranks(w.q, w.clock, |w.workers|, w.workers[i := x]) < Ranks(w.q, w.clock, |w.workers|, w.workers)
  {
    ScanFails(cfg, w.q, w.clock);
    LookEnds(cfg, w.q, w.clock, |w.workers|);
    RanksUpdate(w.q, w.clock, |w.workers|, w.workers, i, x);
  }

  /** A step that leaves channel, writer and signals alone. */
  lemma WorkersWork(w: World, r: World)
    requires r == w.(q := r.q, workers := r.workers) && r.q.order == w.q.order && |r.workers| == |w.workers|
    requires LineWork(r.q, |w.workers|) + Ranks(r.q, w.clock, |w.workers|, r.workers)
           < LineWork(w.q, |w.workers|) + Ranks(w.q, w.clock, |w.workers|, w.workers)
    ensures Work(r) < Work(w)
  {
  }

  lemma WorkOnScan(cfg: Config, w: World, i: nat)
    requires Shape(cfg, w) && Enabled(cfg, w, ScanStep(i))
    ensures Work(AfterScan(cfg, w, i)) < Work(w)
  {
    var s, r := Scan(cfg, w.q, w.clock), AfterScan(cfg, w, i);
    ScanFrame(cfg, w, i);
    ScanKeepsCircuits(cfg, w.q, w.clock);
    SameRanks(w.q, s.queue, w.clock, |w.workers|, r.workers);
    if s.claim.Some? {
      WorkOnClaim(cfg, w, i, s.queue, s.claim.value);
    } else {
      WorkOnLook(cfg, w, i, s.queue, Parked(s.nextProbe));
    }
    WorkersWork(w, r);
  }

  /** A release opens at most one circuit more, for the alarm of each worker. */
  lemma ReleaseRank(cfg: Config, q: Queue, c: Candidate, failure: bool, clock: Time, crew: nat, x: Worker)
    requires QueueShape(q)
    ensures var r := Release(cfg, q, c.platform, failure, clock);
      Rank(r, clock, crew, x) <= Rank(q, clock, crew, x) + 2
  {
    var r := Release(cfg, q, c.platform, failure, clock);
    var p := NormalizePlatform(c.platform);
    OpenBeyondGrows(q.order, q, r, p, clock);
    if x.Parked? && x.timer.Some? {
      OpenBeyondGrows(q.order, q, r, p, x.timer.value);
    }
  }

  lemma {:induction false} RanksOnRelease(cfg: Config, q: Queue, c: Candidate, failure: bool, clock: Time, crew: nat,
      ws: seq<Worker>)
    requires QueueShape(q)
    ensures var r := Release(cfg, q, c.platform, failure, clock);
      Ranks(r, clock, crew, ws) <= Ranks(q, clock, crew, ws) + Times(|ws|, 2)
  {
    if ws != [] {
      ReleaseRank(cfg, q, c, failure, clock, crew, ws[0]);
      RanksOnRelease(cfg, q, c, failure, clock, crew, ws[1..]);
    }
  }

  /** The releasing worker pays for the circuit it may open. */
  lemma WorkAfterRelease(w: World, r: Queue, i: nat, done: Completion)
    requires i < |w.workers| && w.workers[i] == Checked(done) && r == w.q.(states := r.states, active := r.active)
    requires Ranks(r, w.clock, |w.workers|, w.workers[i := ReleaseDebt(done)])
          <= Ranks(w.q, w.clock, |w.workers|, w.workers[i := ReleaseDebt(done)]) + Times(|w.workers|, 2)
    ensures Work(w.(q := r, workers := w.workers[i := ReleaseDebt(done)])) < Work(w)
  {
    RanksUpdate(w.q, w.clock, |w.workers|, w.workers, i, ReleaseDebt(done));
    WorkersWork(w, w.(q := r, workers := w.workers[i := ReleaseDebt(done)]));
  }

  lemma WorkOnRelease(cfg: Config, w: World, i: nat)
    requires Shape(cfg, w) && Enabled(cfg, w, ReleaseStep(i))
    ensures Work(Step(cfg, w, ReleaseStep(i))) < Work(w)
  {
    var done := w.workers[i].done;
    var ws := w.workers[i := ReleaseDebt(done)];
    RanksOnRelease(cfg, w.q, done.candidate, done.circuitFailure, w.clock, |w.workers|, ws);
    WorkAfterRelease(w, Step(cfg, w, ReleaseStep(i)).q, i, done);
  }

  /** The other steps of a worker change neither lines nor circuits. */
  lemma WorkAfterHandover(w: World, i: nat, x: Worker, wake: bool)
    requires i < |w.workers|
    requires Rank(w.q, w.clock, |w.workers|, x) + (if wake then Token(w.q) else 0)
           < Rank(w.q, w.clock, |w.workers|, w.workers[i]) + (if w.wake then Token(w.q) else 0)
    ensures Work(w.(workers := w.workers[i := x], wake := wake)) < Work(w)
  {
    RanksUpdate(w.q, w.clock, |w.workers|, w.workers, i, x);
  }

  lemma WorkOnHandover(cfg: Config, w: World, l: Label)
    requires Handover(l) && !l.ReleaseStep? && Enabled(cfg, w, l)
    ensures Work(Step(cfg, w, l)) < Work(w)
  {
    var v := Step(cfg, w, l);
    OpenBeyondBounds(w.q.order, w.q, w.clock, w.clock);
    WorkAfterHandover(w, l.worker, v.workers[l.worker], v.wake);
  }

  lemma WorkOnSend(cfg: Config, w: World, i: nat)
    requires Enabled(cfg, w, Send(i))
    ensures Work(Step(cfg, w, Send(i))) < Work(w)
  {
    var a, v := Token(w.q), Step(cfg, w, Send(i));
    RanksUpdate(w.q, w.clock, |w.workers|, w.workers, i, Scanning);
    OpenBeyondBounds(w.q.order, w.q, w.clock, w.clock);
    assert WriterWork(a, |v.results|, v.writer) == WriterWork(a, |w.results|, w.writer) + a + 4;
  }

  // ----- the writer's steps, signals and time -----------------------------

  lemma WriterReceives(cfg: Config, a: nat, w: World)
    requires Enabled(cfg, w, Receive)
    ensures WriterWork(a, |AfterReceive(cfg, w).results|, AfterReceive(cfg, w).writer)
          < WriterWork(a, |w.results|, w.writer)
  {
    var n := |w.writer.batch|;
    TimesLess(n + 1, a + 2);
    assert Times(n + 1, a + 3) == a + 3 + Times(n, a + 3);
    assert Times(1, a + 2) == a + 2 + Times(0, a + 2);
  }

  lemma WriterFlushes(a: nat, results: nat, wr: Writer)
    requires WriterReady(wr)
    ensures WriterWork(a, results, Flushed(wr)) + |wr.batch| == WriterWork(a, results, wr)
  {
    TimesLess(|wr.batch|, a + 2);
  }

  lemma WriterSettles(a: nat, results: nat, wr: Writer)
    requires wr.inHand != [] && !wr.owes
    ensures WriterWork(a, results, wr.(inHand := wr.inHand[1..], owes := true)) < WriterWork(a, results, wr)
  {
  }

  lemma WorkOnMove(cfg: Config, w: World, l: Label)
    requires Moves(l) && Enabled(cfg, w, l)
    ensures Work(Step(cfg, w, l)) + (if Productive(w, l) then 1 else 0) <= Work(w)
  {
    var v, a := Step(cfg, w, l), Token(w.q);
    WriterFrame(cfg, w, l);
    SameRanks(w.q, v.q, w.clock, |w.workers|, w.workers);
    assert LineWork(v.q, |w.workers|) == LineWork(w.q, |w.workers|);
    assert SignalWork(a, v.wake, v.debts) == SignalWork(a, w.wake, w.debts);
    if l.Receive? {
      WriterReceives(cfg, a, w);
    } else if l.Flush? {
      WriterFlushes(a, |w.results|, w.writer);
    } else {
      WriterSettles(a, |w.results|, w.writer);
    }
  }

  lemma WorkOnSignal(cfg: Config, w: World, l: Label)
    requires (l.PayEnqueue? || l.WorkersDone? || l.PaySettle? || l.WriterExit?) && Enabled(cfg, w, l)
    ensures Work(Step(cfg, w, l)) < Work(w)
  {
  }

  /** Time only closes circuits. */
  lemma {:induction false} RanksOnTick(q: Queue, clock: Time, now: Time, crew: nat, ws: seq<Worker>)
    requires clock <= now
    ensures Ranks(q, now, crew, ws) <= Ranks(q, clock, crew, ws)
  {
    if ws != [] {
      RanksOnTick(q, clock, now, crew, ws[1..]);
      OpenBeyondBounds(q.order, q, clock, now);
      if ws[0].Parked? && ws[0].timer.Some? {
        var t := ws[0].timer.value;
        OpenBeyondBounds(q.order, q, if t > clock then t else clock, if t > now then t else now);
      }
    }
  }

  lemma WorkOnTick(cfg: Config, w: World, elapsed: nat)
    ensures Work(Step(cfg, w, Tick(elapsed))) <= Work(w)
  {
    RanksOnTick(w.q, w.clock, w.clock + elapsed, |w.workers|, w.workers);
  }

  /** After Stop each productive step, whoever takes it, uses up work, and no step adds any. */
  lemma WorkFalls(cfg: Config, w: World, l: Label)
    requires Shape(cfg, w) && Closing(w) && Enabled(cfg, w, l) && !l.FinishStop?
    ensures Closing(Step(cfg, w, l))
    ensures Work(Step(cfg, w, l)) + (if Productive(w, l) then 1 else 0) <= Work(w)
  {
    if l.ScanStep? {
      ScanFrame(cfg, w, l.worker);
      WorkOnScan(cfg, w, l.worker);
    } else if l.ReleaseStep? {
      WorkOnRelease(cfg, w, l.worker);
    } else if Handover(l) {
      HandoverHolds(cfg, w, l);
      WorkOnHandover(cfg, w, l);
    } else if l.Send? {
      WorkOnSend(cfg, w, l.worker);
    } else if Moves(l) {
      WriterFrame(cfg, w, l);
      WorkOnMove(cfg, w, l);
    } else if l.Tick? {
      WorkOnTick(cfg, w, l.elapsed);
    } else if !l.CancelContext? && !l.Enqueue? {
      WorkOnSignal(cfg, w, l);
    }
  }

  // ----- whole runs ------------------------------------------------------

  /** The steps of a run that count, up to the end of the stop. */
  function ProductiveSteps(cfg: Config, w: World, run: seq<Label>): nat
    requires ValidRun(cfg, w, run)
    decreases run
  {
    if run == [] then 0
    else (if Productive(w, run[0]) then 1 else 0) + ProductiveSteps(cfg, Step(cfg, w, run[0]), run[1..])
  }

  lemma {:induction false} StepsAreBounded(cfg: Config, w: World, run: seq<Label>)
    requires Inv(cfg, w) && Closing(w) && ValidRun(cfg, w, run) && FinishStop !in run
    ensures Closing(After(cfg, w, run))
    ensures ProductiveSteps(cfg, w, run) + Work(After(cfg, w, run)) <= Work(w)
    decreases run
  {
    if run != [] {
      assert run[0] in run;
      WorkFalls(cfg, w, run[0]);
      InvStep(cfg, w, run[0]);
      StepsAreBounded(cfg, Step(cfg, w, run[0]), run[1..]);
    }
  }

  lemma {:induction false} StoppingIsCancelled(cfg: Config, w: World, run: seq<Label>)
    requires ValidRun(cfg, w, run) && (w.stopping ==> w.cancelled)
    ensures After(cfg, w, run).stopping ==> After(cfg, w, run).cancelled
    decreases run
  {
    if run != [] {
      if run[0].ScanStep? {
        ScanFrame(cfg, w, run[0].worker);
      }
      StoppingIsCancelled(cfg, Step(cfg, w, run[0]), run[1..]);
    }
  }

  lemma StoppingIsClosing(cfg: Config, run: seq<Label>)
    requires cfg.Valid() && ValidRun(cfg, Initial(cfg), run) && After(cfg, Initial(cfg), run).stopping
    ensures Inv(cfg, After(cfg, Initial(cfg), run)) && Closing(After(cfg, Initial(cfg), run))
  {
    ReachableInv(cfg, run);
    StoppingIsCancelled(cfg, Initial(cfg), run);
  }

  /** From every reachable stopping state, no interleaving takes more productive steps than its work. */
  lemma ShutdownIsBounded(cfg: Config, run: seq<Label>, more: seq<Label>)
    requires cfg.Valid() && ValidRun(cfg, Initial(cfg), run) && After(cfg, Initial(cfg), run).stopping
    requires ValidRun(cfg, After(cfg, Initial(cfg), run), more) && FinishStop !in more
    ensures ProductiveSteps(cfg, After(cfg, Initial(cfg), run), more) <= Work(After(cfg, Initial(cfg), run))
  {
    StoppingIsClosing(cfg, run);
    StepsAreBounded(cfg, After(cfg, Initial(cfg), run), more);
  }

  // ----- somebody can always move ----------------------------------------

  /** What a worker that has not exited can do next. */
  lemma WorkerMoves(cfg: Config, w: World, i: nat) returns (l: Label)
    requires Inv(cfg, w) && Closing(w) && i < |w.workers| && !w.workers[i].Exited?
    ensures Enabled(cfg, w, l) && Productive(w, l) && !l.FinishStop?
  {
    match w.workers[i]
    case Scanning => l := ScanStep(i);
    case Parked(_) => l := LeaveOnCancel(i);
    case ClaimDebt(_) => l := PayClaim(i);
    case Checking(_) => l := CheckStep(i, Canceled);
    case Checked(_) => l := ReleaseStep(i);
    case ReleaseDebt(_) => l := PayRelease(i);
    case Sending(_) =>
      SendNeverBlocks(cfg, w, i);
      l := Send(i);
  }

  /** What the writer can do once the workers have exited. */
  lemma WriterMoves(cfg: Config, w: World) returns (l: Label)
    requires AllExited(w.workers) && !w.writer.phase.Finished?
    ensures Enabled(cfg, w, l) && Productive(w, l) && !l.FinishStop?
  {
    if w.writer.owes {
      l := PaySettle;
    } else if w.writer.inHand != [] {
      l := Settle;
    } else if w.writer.phase.Receiving? {
      l := WorkersDone;
    } else if w.results != [] {
      l := Receive;
    } else if w.writer.batch != [] {
      l := Flush;
    } else {
      l := WriterExit;
    }
  }

  /** A stop that cannot be finished yet is not stuck. */
  lemma SomeoneMoves(cfg: Config, w: World) returns (l: Label)
    requires Inv(cfg, w) && Closing(w) && !Enabled(cfg, w, FinishStop)
    ensures Enabled(cfg, w, l) && Productive(w, l) && !l.FinishStop?
  {
    if AllExited(w.workers) {
      l := WriterMoves(cfg, w);
    } else {
      var i :| 0 <= i < |w.workers| && !w.workers[i].Exited?;
      l := WorkerMoves(cfg, w, i);
    }
  }

  lemma {:induction false} CanFinish(cfg: Config, w: World) returns (more: seq<Label>)
    requires Inv(cfg, w) && Closing(w)
    ensures ValidRun(cfg, w, more) && Enabled(cfg, After(cfg, w, more), FinishStop)
    decreases Work(w)
  {
    more := [];
    if !Enabled(cfg, w, FinishStop) {
      var l := SomeoneMoves(cfg, w);
      WorkFalls(cfg, w, l);
      InvStep(cfg, w, l);
      var rest := CanFinish(cfg, Step(cfg, w, l));
      more := [l] + rest;
      assert more[1..] == rest;
    }
  }

  /** Nothing is in flight, and what is queued is exactly what waits in the lines. */
  ghost predicate Stopped(w: World) {
    && AllExited(w.workers) && w.results == [] && w.writer == Writer(Finished, [], [], false)
    && w.q.active == 0 && (forall p :: StateOf(w.q, p).inUse == 0)
    && forall id :: WaitingCount(w.q.order, w.q.pending, id) == if id in w.q.queued then 1 else 0
  }

  lemma FinishedMeansStopped(cfg: Config, w: World)
    requires Inv(cfg, w) && Enabled(cfg, w, FinishStop)
    ensures Stopped(Step(cfg, w, FinishStop))
  {
    forall id ensures WaitingCount(w.q.order, w.q.pending, id) == if id in w.q.queued then 1 else 0 {
      NobodyBusy(w.workers, "", id);
      assert Copies(w, id) == if id in w.q.queued then 1 else 0;
    }
    forall p ensures BusyOn(w.workers, p) == 0 && Busy(w.workers) == 0 {
      NobodyBusy(w.workers, p, 0);
    }
    NobodyBusy(w.workers, "", 0);
  }

  /** Whenever a stop finishes, in any run, nothing is queued beyond the waiting lines. */
  lemma StopFinishesClean(cfg: Config, run: seq<Label>)
    requires cfg.Valid() && ValidRun(cfg, Initial(cfg), run) && Enabled(cfg, After(cfg, Initial(cfg), run), FinishStop)
    ensures Stopped(Step(cfg, After(cfg, Initial(cfg), run), FinishStop))
  {
    ReachableInv(cfg, run);
    FinishedMeansStopped(cfg, After(cfg, Initial(cfg), run));
  }

  /** From every reachable stopping state the stop can be finished; and every continuation that
      can take no productive step any more has come to that point. */
  lemma StopCanAlwaysFinish(cfg: Config, run: seq<Label>, other: seq<Label>) returns (more: seq<Label>)
    requires cfg.Valid() && ValidRun(cfg, Initial(cfg), run) && After(cfg, Initial(cfg), run).stopping
    requires ValidRun(cfg, After(cfg, Initial(cfg), run), other) && FinishStop !in other
    ensures var w := After(cfg, Initial(cfg), run);
      && ValidRun(cfg, w, more) && Enabled(cfg, After(cfg, w, more), FinishStop)
      && Stopped(Step(cfg, After(cfg, w, more), FinishStop))
    ensures var v := After(cfg, After(cfg, Initial(cfg), run), other);
      (forall l :: Enabled(cfg, v, l) && Productive(v, l) ==> l.FinishStop?) ==> Enabled(cfg, v, FinishStop)
  {
    StoppingIsClosing(cfg, run);
    var w := After(cfg, Initial(cfg), run);
    more := CanFinish(cfg, w);
    InvAlongRun(cfg, w, more);
    FinishedMeansStopped(cfg, After(cfg, w, more));
    InvAlongRun(cfg, w, other);
    StepsAreBounded(cfg, w, other);
    if !Enabled(cfg, After(cfg, w, other), FinishStop) {
      var l := SomeoneMoves(cfg, After(cfg, w, other));
    }
  }
}
