/** Every step of the link-check protocol keeps the invariant. */
module LinkProof {
  import opened Collections
  import opened LinkQueue
  import opened LinkProtocol

  // ----- sums over workers, completions and platforms --------------------

  lemma {:induction false} HeldUpdate(ws: seq<Worker>, i: nat, x: Worker, id: int)
    requires i < |ws|
    ensures HeldCount(ws[i := x], id) + HoldsId(ws[i], id) == HeldCount(ws, id) + HoldsId(x, id)
  {
    if i == 0 {
      assert ws[i := x][1..] == ws[1..];
    } else {
      HeldUpdate(ws[1..], i - 1, x, id);
      assert ws[i := x][1..] == ws[1..][i - 1 := x];
    }
  }

  lemma {:induction false} BusyUpdate(ws: seq<Worker>, i: nat, x: Worker)
    requires i < |ws|
    ensures Busy(ws[i := x]) + (if Engaged(ws[i]) then 1 else 0) == Busy(ws) + (if Engaged(x) then 1 else 0)
  {
    if i == 0 {
      assert ws[i := x][1..] == ws[1..];
    } else {
      BusyUpdate(ws[1..], i - 1, x);
      assert ws[i := x][1..] == ws[1..][i - 1 := x];
    }
  }

  lemma {:induction false} BusyOnUpdate(ws: seq<Worker>, i: nat, x: Worker, p: string)
    requires i < |ws|
    ensures BusyOn(ws[i := x], p) + (if EngagedOn(ws[i], p) then 1 else 0)
         == BusyOn(ws, p) + (if EngagedOn(x, p) then 1 else 0)
  {
    if i == 0 {
      assert ws[i := x][1..] == ws[1..];
    } else {
      BusyOnUpdate(ws[1..], i - 1, x, p);
      assert ws[i := x][1..] == ws[1..][i - 1 := x];
    }
  }

  lemma {:induction false} NobodyBusy(ws: seq<Worker>, p: string, id: int)
    requires forall i :: 0 <= i < |ws| ==> Holding(ws[i]).None?
    ensures HeldCount(ws, id) == 0 && Busy(ws) == 0 && BusyOn(ws, p) == 0
  {
    if ws != [] {
      NobodyBusy(ws[1..], p, id);
    }
  }

  lemma {:induction false} BusyBound(ws: seq<Worker>)
    ensures Busy(ws) <= |ws|
  {
    if ws != [] {
      BusyBound(ws[1..]);
    }
  }

  lemma {:induction false} DoneCountSnoc(s: seq<Completion>, c: Completion, id: int)
    ensures DoneCount(s + [c], id) == DoneCount(s, id) + (if c.candidate.id == id then 1 else 0)
  {
    if s == [] {
      assert s + [c] == [c];
    } else {
      DoneCountSnoc(s[1..], c, id);
      assert (s + [c])[1..] == s[1..] + [c];
    }
  }

  lemma {:induction false} WaitCountSnoc(s: seq<Candidate>, c: Candidate, id: int)
    ensures WaitCount(s + [c], id) == WaitCount(s, id) + (if c.id == id then 1 else 0)
  {
    if s == [] {
      assert s + [c] == [c];
    } else {
      WaitCountSnoc(s[1..], c, id);
      assert (s + [c])[1..] == s[1..] + [c];
    }
  }

  lemma {:induction false} WaitingFrame(order: seq<string>, pending: map<string, seq<Candidate>>, p: string,
      s: seq<Candidate>, id: int)
    requires p !in order
    ensures WaitingCount(order, pending[p := s], id) == WaitingCount(order, pending, id)
  {
    if order != [] {
      WaitingFrame(order[1..], pending, p, s, id);
    }
  }

  lemma {:induction false} WaitingUpdate(order: seq<string>, pending: map<string, seq<Candidate>>, p: string,
      s: seq<Candidate>, id: int)
    requires Distinct(order) && p in order
    ensures WaitingCount(order, pending[p := s], id) + WaitCount(Line(pending, p), id)
         == WaitingCount(order, pending, id) + WaitCount(s, id)
  {
    if order[0] == p {
      assert p !in order[1..];
      WaitingFrame(order[1..], pending, p, s, id);
    } else {
      WaitingUpdate(order[1..], pending, p, s, id);
    }
  }

  lemma {:induction false} WaitingSnoc(order: seq<string>, pending: map<string, seq<Candidate>>, p: string, id: int)
    ensures WaitingCount(order + [p], pending, id) == WaitingCount(order, pending, id) + WaitCount(Line(pending, p), id)
  {
    if order == [] {
      assert order + [p] == [p];
    } else {
      WaitingSnoc(order[1..], pending, p, id);
      assert (order + [p])[1..] == order[1..] + [p];
    }
  }

  // ----- one locked section at a time ------------------------------------

  lemma AcceptKeepsShape(q: Queue, c: Candidate)
    requires QueueShape(q) && NormalizePlatform(c.platform) == c.platform
    ensures QueueShape(Accept(q, c))
    ensures forall p :: p in q.pending ==> p in Accept(q, c).pending
  {
  }

  lemma AcceptAddsWaiting(q: Queue, c: Candidate, id: int)
    requires QueueShape(q)
    ensures var r := Accept(q, c);
            WaitingCount(r.order, r.pending, id) == WaitingCount(q.order, q.pending, id) + (if c.id == id then 1 else 0)
  {
    var p := c.platform;
    var line := Line(q.pending, p) + [c];
    WaitCountSnoc(Line(q.pending, p), c, id);
    if p in q.pending {
      WaitingUpdate(q.order, q.pending, p, line, id);
    } else {
      WaitingFrame(q.order, q.pending, p, line, id);
      WaitingSnoc(q.order, q.pending[p := line], p, id);
    }
  }

  /** What a successful scan does, apart from the cursor and the platform records. */
  lemma ScanClaims(cfg: Config, q: Queue, now: Time) returns (k: nat)
    requires Scan(cfg, q, now).claim.Some?
    ensures k == FirstClaimable(cfg, q, now, 0) < |q.order|
    ensures Claimable(cfg, q, At(q, k), now) && At(q, k) in q.pending && q.pending[At(q, k)] != []
    ensures var r := Scan(cfg, q, now);
            var p := At(q, k);
            && r.claim.value == q.pending[p][0]
            && r.queue == q.(pending := q.pending[p := q.pending[p][1..]],
                             states := r.queue.states,
                             active := q.active + 1,
                             cursor := r.queue.cursor)
            && r.queue.cursor < |q.order|
  {
    k := FirstClaimable(cfg, q, now, 0);
    var v := Visit(q, k + 1);
    var p := At(q, k);
    assert At(v, k) == p;
  }

  /** What a scan does to the record of platform x. */
  lemma ScanState(cfg: Config, q: Queue, now: Time, x: string)
    ensures var r := Scan(cfg, q, now);
            var k := FirstClaimable(cfg, q, now, 0);
            StateOf(r.queue, x) == if r.claim.Some? && x == At(q, k) then Claimed(StateOf(q, x)) else StateOf(q, x)
  {
    var k := FirstClaimable(cfg, q, now, 0);
    if k < |q.order| {
      var v := Visit(q, k + 1);
      assert At(v, k) == At(q, k);
      VisitKeeps(q, k + 1, x);
    } else {
      VisitKeeps(q, k, x);
    }
  }

  lemma ScanFails(cfg: Config, q: Queue, now: Time)
    requires Scan(cfg, q, now).claim.None?
    ensures var r := Scan(cfg, q, now);
            && r.queue == q.(states := r.queue.states)
            && r.nextProbe == NextProbe(q, now, |q.order|)
  {
  }

  lemma ScanFailsEverywhere(cfg: Config, q: Queue, now: Time, k: nat)
    requires Scan(cfg, q, now).claim.None? && k < |q.order|
    ensures !Claimable(cfg, q, At(q, k), now)
  {
    if Claimable(cfg, q, At(q, k), now) {
      FirstClaimableSkips(cfg, q, now, 0, k);
    }
  }

  lemma WrapOnce(x: nat, n: nat)
    requires 0 < n && x < 2 * n
    ensures x % n == if x < n then x else x - n
  {
    if x >= n {
      assert x == n * 1 + (x - n);
    }
  }

  /** The offset at which the scan meets a platform of the order. */
  lemma OffsetOf(q: Queue, p: string) returns (k: nat)
    requires OrderOk(q.order, q.cursor) && p in q.order
    ensures k < |q.order| && At(q, k) == p
  {
    var n := |q.order|;
    var i :| 0 <= i < n && q.order[i] == p;
    k := if i >= q.cursor then i - q.cursor else i - q.cursor + n;
    WrapOnce(q.cursor + k, n);
  }

  // ----- what most steps leave alone ---------------------------------------

  /** Steps that touch neither the lines, the workers nor any completion. */
  predicate Quiet(l: Label) {
    || l.Tick? || l.CancelContext? || l.Stop? || l.FinishStop?
    || l.PayEnqueue? || l.WorkersDone? || l.PaySettle? || l.WriterExit?
  }

  ghost predicate QuietlyAfter(w: World, r: World) {
    && r.q == w.q.(started := r.q.started)
    && r.workers == w.workers && r.results == w.results
    && r.writer == w.writer.(phase := r.writer.phase, owes := r.writer.owes)
    && r.clock >= w.clock
  }

  lemma LifeFrame(cfg: Config, w: World, l: Label)
    requires (l.Tick? || l.CancelContext? || l.Stop? || l.FinishStop?) && Enabled(cfg, w, l)
    ensures QuietlyAfter(w, Step(cfg, w, l))
  {
  }

  lemma SignalFrame(cfg: Config, w: World, l: Label)
    requires (l.PayEnqueue? || l.WorkersDone? || l.PaySettle? || l.WriterExit?) && Enabled(cfg, w, l)
    ensures QuietlyAfter(w, Step(cfg, w, l))
  {
  }

  lemma QuietFrame(cfg: Config, w: World, l: Label)
    requires Quiet(l) && Enabled(cfg, w, l)
    ensures QuietlyAfter(w, Step(cfg, w, l))
  {
    if l.Tick? || l.CancelContext? || l.Stop? || l.FinishStop? {
      LifeFrame(cfg, w, l);
    } else {
      SignalFrame(cfg, w, l);
    }
  }

  /** Steps of one worker that leave the candidate in its hands. */
  predicate Handover(l: Label) {
    || l.PayClaim? || l.CheckStep? || l.ReleaseStep? || l.PayRelease?
    || l.TakeToken? || l.TimerFires? || l.LeaveOnCancel?
  }

  ghost predicate HandedOver(w: World, r: World, i: nat) {
    && i < |w.workers| == |r.workers|
    && Holding(r.workers[i]) == Holding(w.workers[i])
    && (Engaged(r.workers[i]) ==> Engaged(w.workers[i]))
    && r == w.(workers := w.workers[i := r.workers[i]], wake := r.wake, q := r.q)
    && r.q == w.q.(states := r.q.states, active := r.q.active)
  }

  lemma PayHolds(cfg: Config, w: World, l: Label)
    requires (l.PayClaim? || l.PayRelease?) && Enabled(cfg, w, l)
    ensures HandedOver(w, Step(cfg, w, l), l.worker) && Step(cfg, w, l).q == w.q
  {
  }

  lemma WorkHolds(cfg: Config, w: World, l: Label)
    requires (l.CheckStep? || l.ReleaseStep?) && Enabled(cfg, w, l)
    ensures HandedOver(w, Step(cfg, w, l), l.worker) && (l.CheckStep? ==> Step(cfg, w, l).q == w.q)
  {
  }

  lemma WakeHolds(cfg: Config, w: World, l: Label)
    requires (l.TakeToken? || l.TimerFires? || l.LeaveOnCancel?) && Enabled(cfg, w, l)
    ensures HandedOver(w, Step(cfg, w, l), l.worker) && Step(cfg, w, l).q == w.q
  {
  }

  lemma HandoverHolds(cfg: Config, w: World, l: Label)
    requires Handover(l) && Enabled(cfg, w, l)
    ensures HandedOver(w, Step(cfg, w, l), l.worker)
    ensures !l.ReleaseStep? ==> Step(cfg, w, l).q == w.q
  {
    if l.PayClaim? || l.PayRelease? {
      PayHolds(cfg, w, l);
    } else if l.CheckStep? || l.ReleaseStep? {
      WorkHolds(cfg, w, l);
    } else {
      WakeHolds(cfg, w, l);
    }
  }

  /** Steps of the writer that move completions. */
  predicate Moves(l: Label) {
    l.Receive? || l.Flush? || l.Settle?
  }

  lemma WriterFrame(cfg: Config, w: World, l: Label)
    requires Moves(l) && Enabled(cfg, w, l)
    ensures var r := Step(cfg, w, l);
      && r.q == w.q.(queued := r.q.queued) && r.q.queued <= w.q.queued
      && r.workers == w.workers && r.clock == w.clock
  {
  }

  lemma SendFrame(cfg: Config, w: World, i: nat)
    requires Enabled(cfg, w, Send(i))
    ensures var r := Step(cfg, w, Send(i));
      r.q == w.q && r.workers == w.workers[i := Scanning] && r.clock == w.clock
  {
  }

  // ----- Shape -----------------------------------------------------------

  lemma ClaimKeepsLines(order: seq<string>, pending: map<string, seq<Candidate>>, p: string)
    requires LinesOk(order, pending) && p in pending && pending[p] != []
    ensures LinesOk(order, pending[p := pending[p][1..]])
  {
  }

  lemma ShapeOnScan(cfg: Config, w: World, i: nat)
    requires Enabled(cfg, w, ScanStep(i)) && Shape(cfg, w)
    ensures Shape(cfg, AfterScan(cfg, w, i))
  {
    var r := Scan(cfg, w.q, w.clock);
    if r.claim.Some? {
      var k := ScanClaims(cfg, w.q, w.clock);
      ClaimKeepsLines(w.q.order, w.q.pending, At(w.q, k));
    } else {
      ScanFails(cfg, w.q, w.clock);
    }
  }

  lemma ShapeOnEntry(cfg: Config, w: World, l: Label)
    requires (l.Start? || l.Enqueue?) && Enabled(cfg, w, l) && cfg.Valid() && Shape(cfg, w)
    ensures Shape(cfg, Step(cfg, w, l))
  {
    if l.Enqueue? {
      NormalizePlatformIdempotent(l.candidate.platform);
      AcceptKeepsShape(w.q, Normalized(l.candidate));
    }
  }

  /** A worker that engages in nothing new keeps the shape. */
  lemma ShapeOnWorker(cfg: Config, w: World, r: World, i: nat)
    requires Shape(cfg, w) && i < |w.workers| == |r.workers|
    requires r.workers == w.workers[i := r.workers[i]]
    requires Engaged(r.workers[i]) ==> Engaged(w.workers[i]) && Holding(r.workers[i]) == Holding(w.workers[i])
    requires r.q.order == w.q.order && r.q.cursor == w.q.cursor && r.q.pending == w.q.pending
    ensures Shape(cfg, r)
  {
  }

  lemma ShapeStep(cfg: Config, w: World, l: Label)
    requires Enabled(cfg, w, l) && cfg.Valid() && Shape(cfg, w)
    ensures Shape(cfg, Step(cfg, w, l))
  {
    if Quiet(l) {
      QuietFrame(cfg, w, l);
    } else if Handover(l) {
      HandoverHolds(cfg, w, l);
      ShapeOnWorker(cfg, w, Step(cfg, w, l), l.worker);
    } else if Moves(l) {
      WriterFrame(cfg, w, l);
    } else if l.Send? {
      SendFrame(cfg, w, l.worker);
      ShapeOnWorker(cfg, w, Step(cfg, w, l), l.worker);
    } else if l.ScanStep? {
      ShapeOnScan(cfg, w, l.worker);
    } else {
      ShapeOnEntry(cfg, w, l);
    }
  }

  // ----- Partition -------------------------------------------------------

  ghost predicate Once(w: World, id: int) {
    Copies(w, id) == if id in w.q.queued then 1 else 0
  }

  /** The claimed head moves from its line into the worker's hands. */
  lemma ClaimMoves(w: World, r: World, i: nat, p: string, id: int)
    requires i < |w.workers| && Holding(w.workers[i]).None?
    requires Distinct(w.q.order) && p in w.q.order && Line(w.q.pending, p) != []
    requires r.q.order == w.q.order && r.q.pending == w.q.pending[p := Line(w.q.pending, p)[1..]]
    requires r.workers == w.workers[i := ClaimDebt(Line(w.q.pending, p)[0])]
    requires r.results == w.results && r.writer == w.writer
    ensures Copies(r, id) == Copies(w, id)
  {
    WaitingUpdate(w.q.order, w.q.pending, p, Line(w.q.pending, p)[1..], id);
    HeldUpdate(w.workers, i, ClaimDebt(Line(w.q.pending, p)[0]), id);
  }

  lemma OnceOnScan(cfg: Config, w: World, i: nat, id: int)
    requires Enabled(cfg, w, ScanStep(i)) && Shape(cfg, w) && Once(w, id)
    ensures Once(AfterScan(cfg, w, i), id)
  {
    var s := Scan(cfg, w.q, w.clock);
    if s.claim.Some? {
      var k := ScanClaims(cfg, w.q, w.clock);
      var p := At(w.q, k);
      assert Line(w.q.pending, p) == w.q.pending[p] && p in w.q.order;
      ClaimMoves(w, AfterScan(cfg, w, i), i, p, id);
    } else {
      ScanFails(cfg, w.q, w.clock);
      HeldUpdate(w.workers, i, Parked(s.nextProbe), id);
    }
  }

  lemma OnceOnReceive(cfg: Config, w: World, id: int)
    requires w.results != [] && w.writer.inHand == [] && Once(w, id)
    ensures Once(AfterReceive(cfg, w), id)
  {
    var c := w.results[0];
    DoneCountSnoc(w.writer.batch, c, id);
    DoneCountSnoc([], c, id);
    assert [] + [c] == [c];
  }

  lemma OnceOnWriter(cfg: Config, w: World, l: Label, id: int)
    requires l.Receive? || l.Flush? || l.Settle?
    requires Enabled(cfg, w, l) && Once(w, id)
    ensures Once(Step(cfg, w, l), id)
  {
    if l.Receive? {
      OnceOnReceive(cfg, w, id);
    }
  }

  lemma OnceOnWorker(cfg: Config, w: World, l: Label, id: int)
    requires Handover(l) && Enabled(cfg, w, l) && Once(w, id)
    ensures Once(Step(cfg, w, l), id)
  {
    var i := l.worker;
    HandoverHolds(cfg, w, l);
    HeldUpdate(w.workers, i, Step(cfg, w, l).workers[i], id);
  }

  lemma OnceOnSend(cfg: Config, w: World, i: nat, id: int)
    requires Enabled(cfg, w, Send(i)) && Once(w, id)
    ensures Once(Step(cfg, w, Send(i)), id)
  {
    HeldUpdate(w.workers, i, Scanning, id);
    DoneCountSnoc(w.results, w.workers[i].done, id);
  }

  lemma OnceOnQuiet(cfg: Config, w: World, l: Label, id: int)
    requires Quiet(l) && Enabled(cfg, w, l) && Once(w, id)
    ensures Once(Step(cfg, w, l), id)
  {
    QuietFrame(cfg, w, l);
  }

  lemma OnceOnEntry(cfg: Config, w: World, l: Label, id: int)
    requires l.Start? || l.Enqueue?
    requires Enabled(cfg, w, l) && Shape(cfg, w) && Lifecycle(w) && Once(w, id)
    ensures Once(Step(cfg, w, l), id)
  {
    if l.Start? {
      NobodyBusy(Step(cfg, w, l).workers, "", id);
    } else {
      AcceptAddsWaiting(w.q, Normalized(l.candidate), id);
    }
  }

  lemma OnceStep(cfg: Config, w: World, l: Label, id: int)
    requires Enabled(cfg, w, l) && Shape(cfg, w) && Lifecycle(w) && Once(w, id)
    ensures Once(Step(cfg, w, l), id)
  {
    if Quiet(l) {
      OnceOnQuiet(cfg, w, l, id);
    } else if Handover(l) {
      OnceOnWorker(cfg, w, l, id);
    } else {
      match l
      case ScanStep(i) => OnceOnScan(cfg, w, i, id);
      case Send(i) => OnceOnSend(cfg, w, i, id);
      case Start => OnceOnEntry(cfg, w, l, id);
      case Enqueue(_) => OnceOnEntry(cfg, w, l, id);
      case _ => OnceOnWriter(cfg, w, l, id);
    }
  }

  lemma PartitionStep(cfg: Config, w: World, l: Label)
    requires Enabled(cfg, w, l) && Shape(cfg, w) && Lifecycle(w) && Partition(w)
    ensures Partition(Step(cfg, w, l))
  {
    forall id ensures Copies(Step(cfg, w, l), id) == if id in Step(cfg, w, l).q.queued then 1 else 0 {
      assert Once(w, id);
      OnceStep(cfg, w, l, id);
    }
  }

  // ----- Accounting ------------------------------------------------------

  ghost predicate Even(w: World, p: string) {
    w.q.active == Busy(w.workers) && StateOf(w.q, p).inUse == BusyOn(w.workers, p)
  }

  lemma EvenOnClaim(w: World, r: World, i: nat, c: Candidate, p: string)
    requires i < |w.workers| && !Engaged(w.workers[i]) && Even(w, p)
    requires r.workers == w.workers[i := ClaimDebt(c)] && r.q.active == w.q.active + 1
    requires StateOf(r.q, p).inUse == StateOf(w.q, p).inUse + (if p == c.platform then 1 else 0)
    ensures Even(r, p)
  {
    BusyUpdate(w.workers, i, ClaimDebt(c));
    BusyOnUpdate(w.workers, i, ClaimDebt(c), p);
  }

  lemma EvenOnScan(cfg: Config, w: World, i: nat, p: string)
    requires Enabled(cfg, w, ScanStep(i)) && Shape(cfg, w) && Even(w, p)
    ensures Even(AfterScan(cfg, w, i), p)
  {
    var s := Scan(cfg, w.q, w.clock);
    ScanState(cfg, w.q, w.clock, p);
    if s.claim.Some? {
      var k := ScanClaims(cfg, w.q, w.clock);
      assert s.claim.value.platform == At(w.q, k);
      EvenOnClaim(w, AfterScan(cfg, w, i), i, s.claim.value, p);
    } else {
      ScanFails(cfg, w.q, w.clock);
      BusyUpdate(w.workers, i, Parked(s.nextProbe));
      BusyOnUpdate(w.workers, i, Parked(s.nextProbe), p);
    }
  }

  lemma ReleaseInUse(cfg: Config, q: Queue, platform: string, failure: bool, now: Time, p: string)
    ensures var r := Release(cfg, q, platform, failure, now);
      && r.active == Pred(q.active)
      && (p == NormalizePlatform(platform) ==> StateOf(r, p).inUse == Pred(StateOf(q, p).inUse))
      && (p != NormalizePlatform(platform) ==> StateOf(r, p).inUse == StateOf(q, p).inUse)
  {
  }

  lemma EvenOnRelease(cfg: Config, w: World, i: nat, p: string)
    requires Enabled(cfg, w, ReleaseStep(i)) && Shape(cfg, w) && Even(w, p)
    ensures Even(Step(cfg, w, ReleaseStep(i)), p)
  {
    var done := w.workers[i].done;
    var c := done.candidate;
    assert NormalizePlatform(c.platform) == c.platform;
    ReleaseInUse(cfg, w.q, c.platform, done.circuitFailure, w.clock, p);
    BusyUpdate(w.workers, i, ReleaseDebt(done));
    BusyOnUpdate(w.workers, i, ReleaseDebt(done), p);
  }

  lemma EvenOnWorker(cfg: Config, w: World, l: Label, p: string)
    requires (Handover(l) || l.Send?) && !l.ReleaseStep? && Enabled(cfg, w, l) && Even(w, p)
    ensures Even(Step(cfg, w, l), p)
  {
    if l.Send? {
      SendFrame(cfg, w, l.worker);
    } else {
      HandoverHolds(cfg, w, l);
    }
    var x := Step(cfg, w, l).workers[l.worker];
    BusyUpdate(w.workers, l.worker, x);
    BusyOnUpdate(w.workers, l.worker, x, p);
  }

  lemma EvenOnRest(cfg: Config, w: World, l: Label, p: string)
    requires Quiet(l) || l.Start? || l.Enqueue? || l.Receive? || l.Flush? || l.Settle?
    requires Enabled(cfg, w, l) && Even(w, p)
    ensures Even(Step(cfg, w, l), p)
  {
    if l.Start? {
      NobodyBusy(Step(cfg, w, l).workers, p, 0);
    } else if Quiet(l) {
      QuietFrame(cfg, w, l);
    }
  }

  lemma EvenStep(cfg: Config, w: World, l: Label, p: string)
    requires Enabled(cfg, w, l) && Shape(cfg, w) && Even(w, p)
    ensures Even(Step(cfg, w, l), p)
  {
    if l.ScanStep? {
      EvenOnScan(cfg, w, l.worker, p);
    } else if l.ReleaseStep? {
      EvenOnRelease(cfg, w, l.worker, p);
    } else if Handover(l) || l.Send? {
      EvenOnWorker(cfg, w, l, p);
    } else {
      EvenOnRest(cfg, w, l, p);
    }
  }

  lemma AccountingStep(cfg: Config, w: World, l: Label)
    requires Enabled(cfg, w, l) && Shape(cfg, w) && Accounting(w)
    ensures Accounting(Step(cfg, w, l))
  {
    var r := Step(cfg, w, l);
    forall p
      ensures r.q.active == Busy(r.workers) && StateOf(r.q, p).inUse == BusyOn(r.workers, p)
    {
      EvenStep(cfg, w, l, p);
    }
    EvenStep(cfg, w, l, "");
  }

  // ----- Circuits --------------------------------------------------------

  lemma ReleaseKeepsCircuit(cfg: Config, st: PlatformState, failure: bool, clock: Time)
    requires cfg.Valid() && CircuitOk(cfg, st, clock)
    ensures CircuitOk(cfg, Released(cfg, st, failure, clock), clock)
  {
  }

  lemma CircuitOnScan(cfg: Config, w: World, i: nat, p: string)
    requires Enabled(cfg, w, ScanStep(i)) && cfg.Valid() && CircuitOk(cfg, StateOf(w.q, p), w.clock)
    ensures CircuitOk(cfg, StateOf(AfterScan(cfg, w, i).q, p), w.clock) && AfterScan(cfg, w, i).clock == w.clock
  {
    ScanState(cfg, w.q, w.clock, p);
    if Scan(cfg, w.q, w.clock).claim.Some? {
      var k := ScanClaims(cfg, w.q, w.clock);
    }
  }

  lemma CircuitOnRelease(cfg: Config, w: World, i: nat, p: string)
    requires Enabled(cfg, w, ReleaseStep(i)) && cfg.Valid() && CircuitOk(cfg, StateOf(w.q, p), w.clock)
    ensures CircuitOk(cfg, StateOf(Step(cfg, w, ReleaseStep(i)).q, p), w.clock)
    ensures Step(cfg, w, ReleaseStep(i)).clock == w.clock
  {
    ReleaseKeepsCircuit(cfg, StateOf(w.q, p), w.workers[i].done.circuitFailure, w.clock);
  }

  lemma CircuitOnEntry(cfg: Config, w: World, l: Label, p: string)
    requires (l.Start? || l.Enqueue?) && Enabled(cfg, w, l) && cfg.Valid() && CircuitOk(cfg, StateOf(w.q, p), w.clock)
    ensures CircuitOk(cfg, StateOf(Step(cfg, w, l).q, p), Step(cfg, w, l).clock)
  {
  }

  lemma CircuitStep(cfg: Config, w: World, l: Label, p: string)
    requires Enabled(cfg, w, l) && cfg.Valid() && CircuitOk(cfg, StateOf(w.q, p), w.clock)
    ensures CircuitOk(cfg, StateOf(Step(cfg, w, l).q, p), Step(cfg, w, l).clock)
  {
    if Quiet(l) {
      QuietFrame(cfg, w, l);
    } else if l.ReleaseStep? {
      CircuitOnRelease(cfg, w, l.worker, p);
    } else if Handover(l) {
      HandoverHolds(cfg, w, l);
    } else if Moves(l) {
      WriterFrame(cfg, w, l);
    } else if l.Send? {
      SendFrame(cfg, w, l.worker);
    } else if l.ScanStep? {
      CircuitOnScan(cfg, w, l.worker, p);
    } else {
      CircuitOnEntry(cfg, w, l, p);
    }
  }

  lemma CircuitsStep(cfg: Config, w: World, l: Label)
    requires Enabled(cfg, w, l) && cfg.Valid() && Circuits(cfg, w)
    ensures Circuits(cfg, Step(cfg, w, l))
  {
    forall p ensures CircuitOk(cfg, StateOf(Step(cfg, w, l).q, p), Step(cfg, w, l).clock) {
      CircuitStep(cfg, w, l, p);
    }
  }

  // ----- Bounded and Lifecycle -------------------------------------------

  /** A scan touches neither the queued ids nor the writer. */
  lemma ScanFrame(cfg: Config, w: World, i: nat)
    requires Enabled(cfg, w, ScanStep(i))
    ensures var r := AfterScan(cfg, w, i);
      && r.q.queued == w.q.queued && r.q.started == w.q.started
      && r == w.(q := r.q, workers := w.workers[i := r.workers[i]])
      && !r.workers[i].Exited?
  {
    if Scan(cfg, w.q, w.clock).claim.Some? {
      var k := ScanClaims(cfg, w.q, w.clock);
    } else {
      ScanFails(cfg, w.q, w.clock);
    }
  }

  lemma BoundedOnEntry(cfg: Config, w: World, l: Label)
    requires (l.Start? || l.Enqueue?) && Enabled(cfg, w, l) && cfg.Valid()
    requires w.q.active <= cfg.workers && Bounded(cfg, w)
    ensures Bounded(cfg, Step(cfg, w, l))
  {
  }

  lemma BoundedStep(cfg: Config, w: World, l: Label)
    requires Enabled(cfg, w, l) && cfg.Valid() && |w.workers| == cfg.workers && w.q.active == Busy(w.workers)
    requires Bounded(cfg, w)
    ensures Bounded(cfg, Step(cfg, w, l))
  {
    BusyBound(w.workers);
    if Quiet(l) {
      QuietFrame(cfg, w, l);
    } else if Handover(l) {
      HandoverHolds(cfg, w, l);
    } else if Moves(l) {
      WriterFrame(cfg, w, l);
      SubsetSize(Step(cfg, w, l).q.queued, w.q.queued);
    } else if l.Send? {
      SendFrame(cfg, w, l.worker);
    } else if l.ScanStep? {
      ScanFrame(cfg, w, l.worker);
    } else {
      BoundedOnEntry(cfg, w, l);
    }
  }

  /** Workers that have not exited keep the writer receiving. */
  lemma LifecycleOnWorker(cfg: Config, w: World, r: World, i: nat)
    requires Lifecycle(w) && i < |w.workers| == |r.workers| && !w.workers[i].Exited?
    requires r.q.started == w.q.started && r.stopping == w.stopping && r.writer == w.writer
    ensures Lifecycle(r)
  {
    assert w.writer.phase.Receiving?;
  }

  lemma LifecycleOnEntry(cfg: Config, w: World, l: Label)
    requires (l.Start? || l.Enqueue?) && Enabled(cfg, w, l) && Lifecycle(w)
    ensures Lifecycle(Step(cfg, w, l))
  {
  }

  lemma LifecycleOnMove(cfg: Config, w: World, l: Label)
    requires Moves(l) && Enabled(cfg, w, l) && Lifecycle(w)
    ensures Lifecycle(Step(cfg, w, l))
  {
    WriterFrame(cfg, w, l);
  }

  lemma LifecycleOnQuiet(cfg: Config, w: World, l: Label)
    requires Quiet(l) && Enabled(cfg, w, l) && Lifecycle(w)
    ensures Lifecycle(Step(cfg, w, l))
  {
    QuietFrame(cfg, w, l);
  }

  lemma LifecycleStep(cfg: Config, w: World, l: Label)
    requires Enabled(cfg, w, l) && Lifecycle(w)
    ensures Lifecycle(Step(cfg, w, l))
  {
    if Quiet(l) {
      LifecycleOnQuiet(cfg, w, l);
    } else if Handover(l) {
      HandoverHolds(cfg, w, l);
      LifecycleOnWorker(cfg, w, Step(cfg, w, l), l.worker);
    } else if l.Send? {
      SendFrame(cfg, w, l.worker);
      LifecycleOnWorker(cfg, w, Step(cfg, w, l), l.worker);
    } else if l.ScanStep? {
      ScanFrame(cfg, w, l.worker);
      LifecycleOnWorker(cfg, w, Step(cfg, w, l), l.worker);
    } else if Moves(l) {
      LifecycleOnMove(cfg, w, l);
    } else {
      LifecycleOnEntry(cfg, w, l);
    }
  }

  // ----- Awake -----------------------------------------------------------

  /** Steps after which somebody is bound to look at the queue again. */
  predicate Rouses(l: Label) {
    || l.Start? || l.PayEnqueue? || l.PayClaim? || l.ReleaseStep? || l.PayRelease? || l.Send?
    || l.TakeToken? || l.TimerFires? || l.Settle? || l.PaySettle?
  }

  lemma RousedIsAttentive(cfg: Config, w: World, l: Label)
    requires Rouses(l) && Enabled(cfg, w, l)
    ensures Attentive(Step(cfg, w, l))
  {
    if l.ReleaseStep? || l.Send? || l.TakeToken? || l.TimerFires? {
      assert Watchful(Step(cfg, w, l).workers[l.worker]);
    }
  }

  /** Steps that leave the lines, the records and the watchers alone. */
  lemma AwakeFrame(cfg: Config, w: World, r: World)
    requires Awake(cfg, w)
    requires r.q.pending == w.q.pending && r.q.states == w.q.states
    requires r.wake == w.wake && r.debts == w.debts && r.writer.owes == w.writer.owes
    requires |r.workers| == |w.workers|
    requires forall i :: 0 <= i < |w.workers| ==> Watchful(w.workers[i]) ==> Watchful(r.workers[i])
    requires forall i :: 0 <= i < |w.workers| && r.workers[i].Parked? ==> r.workers[i] == w.workers[i]
    requires !r.cancelled ==> !w.cancelled
    requires !r.cancelled ==> forall i :: 0 <= i < |w.workers| && w.workers[i].Parked? ==> r.workers[i] == w.workers[i]
    ensures Awake(cfg, r)
  {
    assert Attentive(w) ==> Attentive(r);
    forall d | !r.cancelled && SomeAlarm(w, d) ensures SomeAlarm(r, d) {
      var j :| 0 <= j < |w.workers| && Alarm(w.workers[j], d);
      assert Alarm(r.workers[j], d);
    }
    forall i | 0 <= i < |r.workers| && r.workers[i].Parked?
      ensures forall p :: ReadyClosed(cfg, r.q, p) ==> Attentive(r)
      ensures forall p :: ReadyProbe(r.q, p) && !r.cancelled ==>
                Attentive(r) || SomeAlarm(r, StateOf(r.q, p).circuitUntil.value)
    {
      assert w.workers[i].Parked?;
      forall p | ReadyClosed(cfg, r.q, p) ensures Attentive(r) {
        assert ReadyClosed(cfg, w.q, p);
      }
      forall p | ReadyProbe(r.q, p) && !r.cancelled
        ensures Attentive(r) || SomeAlarm(r, StateOf(r.q, p).circuitUntil.value)
      {
        assert ReadyProbe(w.q, p);
      }
    }
  }

  /** A failed scan saw nothing ready, and set an alarm for every open circuit. */
  lemma FailedScanCovers(cfg: Config, w: World, p: string)
    requires Shape(cfg, w) && Scan(cfg, w.q, w.clock).claim.None?
    requires CircuitOk(cfg, StateOf(w.q, p), w.clock)
    ensures !ReadyClosed(cfg, w.q, p)
    ensures ReadyProbe(w.q, p) ==>
              Alarm(Parked(Scan(cfg, w.q, w.clock).nextProbe), StateOf(w.q, p).circuitUntil.value)
  {
    if PendingOn(w.q, p) != [] {
      var k := OffsetOf(w.q, p);
      ScanFailsEverywhere(cfg, w.q, w.clock, k);
      NextProbeCovers(w.q, w.clock, |w.q.order|);
      ScanFails(cfg, w.q, w.clock);
    }
  }

  lemma AwakeOnScan(cfg: Config, w: World, i: nat)
    requires Enabled(cfg, w, ScanStep(i)) && Shape(cfg, w) && Circuits(cfg, w)
    ensures Awake(cfg, AfterScan(cfg, w, i))
  {
    var s := Scan(cfg, w.q, w.clock);
    var r := AfterScan(cfg, w, i);
    if s.claim.Some? {
      assert Watchful(r.workers[i]);
    } else {
      ScanFails(cfg, w.q, w.clock);
      forall p
        ensures !ReadyClosed(cfg, r.q, p)
        ensures ReadyProbe(r.q, p) ==> SomeAlarm(r, StateOf(r.q, p).circuitUntil.value)
      {
        ScanState(cfg, w.q, w.clock, p);
        FailedScanCovers(cfg, w, p);
        if ReadyProbe(r.q, p) {
          assert Alarm(r.workers[i], StateOf(r.q, p).circuitUntil.value);
        }
      }
    }
  }

  /** Steps of the context and the writer that change nothing a parked worker waits for. */
  lemma AwakeOnQuiet(cfg: Config, w: World, l: Label)
    requires Quiet(l) && !Rouses(l) && Enabled(cfg, w, l) && Awake(cfg, w)
    ensures Awake(cfg, Step(cfg, w, l))
  {
    QuietFrame(cfg, w, l);
    AwakeFrame(cfg, w, Step(cfg, w, l));
  }

  lemma AwakeOnWork(cfg: Config, w: World, l: Label)
    requires (l.CheckStep? || l.LeaveOnCancel?) && Enabled(cfg, w, l) && Awake(cfg, w)
    ensures Awake(cfg, Step(cfg, w, l))
  {
    HandoverHolds(cfg, w, l);
    AwakeFrame(cfg, w, Step(cfg, w, l));
  }

  lemma AwakeOnWriter(cfg: Config, w: World, l: Label)
    requires (l.Receive? || l.Flush?) && Enabled(cfg, w, l) && Awake(cfg, w)
    ensures Awake(cfg, Step(cfg, w, l))
  {
    WriterFrame(cfg, w, l);
    AwakeFrame(cfg, w, Step(cfg, w, l));
  }

  lemma AwakeOnEnqueue(cfg: Config, w: World, c: Candidate)
    requires Awake(cfg, w)
    ensures Awake(cfg, Step(cfg, w, Enqueue(c)))
  {
    if EnqueueOutcome(cfg, w.q, c).Accepted? {
      assert Attentive(Step(cfg, w, Enqueue(c)));
    }
  }

  lemma AwakeStep(cfg: Config, w: World, l: Label)
    requires Enabled(cfg, w, l) && Shape(cfg, w) && Circuits(cfg, w) && Awake(cfg, w)
    ensures Awake(cfg, Step(cfg, w, l))
  {
    if l.ScanStep? {
      AwakeOnScan(cfg, w, l.worker);
    } else if Rouses(l) {
      RousedIsAttentive(cfg, w, l);
    } else if l.Enqueue? {
      AwakeOnEnqueue(cfg, w, l.candidate);
    } else if Quiet(l) {
      AwakeOnQuiet(cfg, w, l);
    } else if l.CheckStep? || l.LeaveOnCancel? {
      AwakeOnWork(cfg, w, l);
    } else {
      AwakeOnWriter(cfg, w, l);
    }
  }
}
