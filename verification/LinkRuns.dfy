/** Theorems about whole runs of the link-check queue. */
module LinkRuns {
  import opened LinkQueue
  import opened LinkProtocol
  import opened LinkProof

  predicate ValidRun(cfg: Config, w: World, run: seq<Label>)
    decreases run
  {
    run == [] || (Enabled(cfg, w, run[0]) && ValidRun(cfg, Step(cfg, w, run[0]), run[1..]))
  }

  function After(cfg: Config, w: World, run: seq<Label>): World
    requires ValidRun(cfg, w, run)
    decreases run
  {
    if run == [] then w else After(cfg, Step(cfg, w, run[0]), run[1..])
  }

  lemma InvInitial(cfg: Config)
    requires cfg.Valid()
    ensures Inv(cfg, Initial(cfg))
  {
    var w := Initial(cfg);
    forall id ensures Copies(w, id) == 0 {
      NobodyBusy(w.workers, "", id);
    }
    forall p ensures BusyOn(w.workers, p) == 0 && Busy(w.workers) == 0 {
      NobodyBusy(w.workers, p, 0);
    }
    NobodyBusy(w.workers, "", 0);
  }

  lemma InvStep(cfg: Config, w: World, l: Label)
    requires Inv(cfg, w) && Enabled(cfg, w, l)
    ensures Inv(cfg, Step(cfg, w, l))
  {
    ShapeStep(cfg, w, l);
    PartitionStep(cfg, w, l);
    AccountingStep(cfg, w, l);
    CircuitsStep(cfg, w, l);
    BoundedStep(cfg, w, l);
    LifecycleStep(cfg, w, l);
    AwakeStep(cfg, w, l);
  }

  lemma {:induction false} InvAlongRun(cfg: Config, w: World, run: seq<Label>)
    requires Inv(cfg, w) && ValidRun(cfg, w, run)
    ensures Inv(cfg, After(cfg, w, run))
    decreases run
  {
    if run != [] {
      InvStep(cfg, w, run[0]);
      InvAlongRun(cfg, Step(cfg, w, run[0]), run[1..]);
    }
  }

  /** The invariant holds in every state any interleaving can reach. */
  lemma ReachableInv(cfg: Config, run: seq<Label>)
    requires cfg.Valid() && ValidRun(cfg, Initial(cfg), run)
    ensures Inv(cfg, After(cfg, Initial(cfg), run))
  {
    InvInitial(cfg);
    InvAlongRun(cfg, Initial(cfg), run);
  }

  // ----- consequences of the partition -----------------------------------

  lemma {:induction false} HolderCounts(ws: seq<Worker>, i: nat, id: int)
    requires i < |ws| && HoldsId(ws[i], id) == 1
    ensures HeldCount(ws, id) >= 1
    ensures forall j :: 0 <= j < |ws| && j != i && HoldsId(ws[j], id) == 1 ==> HeldCount(ws, id) >= 2
  {
    HeldUpdate(ws, i, Exited, id);
    var rest := ws[i := Exited];
    forall j | 0 <= j < |ws| && j != i && HoldsId(ws[j], id) == 1
      ensures HeldCount(ws, id) >= 2
    {
      HeldUpdate(rest, j, Exited, id);
    }
  }

  lemma {:induction false} DoneMembers(s: seq<Completion>, i: nat)
    requires i < |s|
    ensures DoneCount(s, s[i].candidate.id) >= 1
  {
    if i > 0 {
      DoneMembers(s[1..], i - 1);
    }
  }

  /** No resource is with two workers at once, and one being checked is not waiting,
      sent or being settled as well. */
  lemma NeverCheckedTwice(cfg: Config, w: World, i: nat, j: nat, id: int)
    requires Inv(cfg, w) && i < |w.workers| && j < |w.workers|
    requires HoldsId(w.workers[i], id) == 1 && HoldsId(w.workers[j], id) == 1
    ensures i == j && id in w.q.queued
    ensures WaitingCount(w.q.order, w.q.pending, id) == 0
    ensures forall k :: 0 <= k < |w.results| ==> w.results[k].candidate.id != id
    ensures forall k :: 0 <= k < |w.writer.batch| ==> w.writer.batch[k].candidate.id != id
    ensures forall k :: 0 <= k < |w.writer.inHand| ==> w.writer.inHand[k].candidate.id != id
  {
    HolderCounts(w.workers, i, id);
    assert Copies(w, id) <= 1;
    forall k | 0 <= k < |w.results| ensures w.results[k].candidate.id != id {
      DoneMembers(w.results, k);
    }
    forall k | 0 <= k < |w.writer.batch| ensures w.writer.batch[k].candidate.id != id {
      DoneMembers(w.writer.batch, k);
    }
    forall k | 0 <= k < |w.writer.inHand| ensures w.writer.inHand[k].candidate.id != id {
      DoneMembers(w.writer.inHand, k);
    }
  }

  lemma {:induction false} DistinctDoneFit(s: seq<Completion>, ids: set<int>)
    requires forall id :: DoneCount(s, id) <= if id in ids then 1 else 0
    ensures |s| <= |ids|
  {
    if s != [] {
      var x := s[0].candidate.id;
      forall id ensures DoneCount(s[1..], id) <= if id in ids - {x} then 1 else 0 {
        assert DoneCount(s, id) == (if x == id then 1 else 0) + DoneCount(s[1..], id);
      }
      assert DoneCount(s, x) >= 1;
      DistinctDoneFit(s[1..], ids - {x});
    }
  }

  /** The channel holds Buffer+Workers completions, so a worker's send never blocks. */
  lemma SendNeverBlocks(cfg: Config, w: World, i: nat)
    requires Inv(cfg, w) && i < |w.workers| && w.workers[i].Sending?
    ensures Enabled(cfg, w, Send(i))
  {
    var mine := w.workers[i].done.candidate.id;
    HolderCounts(w.workers, i, mine);
    assert Copies(w, mine) <= 1;
    forall id ensures DoneCount(w.results, id) <= if id in w.q.queued - {mine} then 1 else 0 {
      assert Copies(w, id) <= 1;
    }
    DistinctDoneFit(w.results, w.q.queued - {mine});
    assert mine in w.q.queued;
  }

  // ----- consequences of the accounting ----------------------------------

  function InUseTotal(q: Queue, order: seq<string>): nat {
    if order == [] then 0 else StateOf(q, order[0]).inUse + InUseTotal(q, order[1..])
  }

  function BusyTotal(ws: seq<Worker>, order: seq<string>): nat {
    if order == [] then 0 else BusyOn(ws, order[0]) + BusyTotal(ws, order[1..])
  }

  lemma {:induction false} BusyTotalOfOne(x: Worker, ws: seq<Worker>, order: seq<string>)
    requires Distinct(order)
    ensures BusyTotal([x] + ws, order) ==
              BusyTotal(ws, order) + if Engaged(x) && Holding(x).value.platform in order then 1 else 0
  {
    assert ([x] + ws)[1..] == ws;
    if order != [] {
      BusyTotalOfOne(x, ws, order[1..]);
      assert BusyOn([x] + ws, order[0]) == (if EngagedOn(x, order[0]) then 1 else 0) + BusyOn(ws, order[0]);
    }
  }

  lemma {:induction false} BusyTotalEmpty(order: seq<string>)
    ensures BusyTotal([], order) == 0
  {
    if order != [] {
      BusyTotalEmpty(order[1..]);
    }
  }

  lemma {:induction false} BusyTotalIsBusy(ws: seq<Worker>, order: seq<string>)
    requires Distinct(order)
    requires forall i :: 0 <= i < |ws| && Engaged(ws[i]) ==> Holding(ws[i]).value.platform in order
    ensures BusyTotal(ws, order) == Busy(ws)
  {
    if ws == [] {
      BusyTotalEmpty(order);
    } else {
      BusyTotalIsBusy(ws[1..], order);
      BusyTotalOfOne(ws[0], ws[1..], order);
      assert [ws[0]] + ws[1..] == ws;
    }
  }

  lemma {:induction false} InUseTotalIsBusyTotal(w: World, order: seq<string>)
    requires Accounting(w)
    ensures InUseTotal(w.q, order) == BusyTotal(w.workers, order)
  {
    if order != [] {
      InUseTotalIsBusyTotal(w, order[1..]);
    }
  }

  /** active is the sum of inUse over the platforms; no release ever decrements a zero;
      a platform never exceeds its limit, and a half-open one has exactly its probe out. */
  lemma PlatformAccounts(cfg: Config, w: World)
    requires Inv(cfg, w)
    ensures w.q.active == InUseTotal(w.q, w.q.order) <= cfg.workers
    ensures forall p :: StateOf(w.q, p).inUse <= cfg.platformLimit
    ensures forall p :: StateOf(w.q, p).halfOpen ==> StateOf(w.q, p).inUse == 1
    ensures forall i :: 0 <= i < |w.workers| && w.workers[i].Checked? ==>
              w.q.active > 0 && StateOf(w.q, NormalizePlatform(w.workers[i].done.candidate.platform)).inUse > 0
  {
    BusyTotalIsBusy(w.workers, w.q.order);
    InUseTotalIsBusyTotal(w, w.q.order);
    BusyBound(w.workers);
    forall p
      ensures StateOf(w.q, p).inUse <= cfg.platformLimit
      ensures StateOf(w.q, p).halfOpen ==> StateOf(w.q, p).inUse == 1
    {
      assert CircuitOk(cfg, StateOf(w.q, p), w.clock);
    }
    forall i | 0 <= i < |w.workers| && w.workers[i].Checked?
      ensures w.q.active > 0
      ensures StateOf(w.q, NormalizePlatform(w.workers[i].done.candidate.platform)).inUse > 0
    {
      var p := w.workers[i].done.candidate.platform;
      assert NormalizePlatform(p) == p;
      BusyUpdate(w.workers, i, Exited);
      BusyOnUpdate(w.workers, i, Exited, p);
    }
  }

  // ----- no lost wake-up -------------------------------------------------

  /** When every signal has been delivered and no scan is under way, a waiting worker
      means there is nothing to do: no closed-circuit candidate is ready, and each open
      circuit with a free probe has a timer set no later than its deadline. */
  lemma NoLostWakeup(cfg: Config, run: seq<Label>, i: nat, p: string)
    requires cfg.Valid() && ValidRun(cfg, Initial(cfg), run)
    requires var w := After(cfg, Initial(cfg), run);
             i < |w.workers| && w.workers[i].Parked? && !Attentive(w)
    ensures var w := After(cfg, Initial(cfg), run);
            && !ReadyClosed(cfg, w.q, p)
            && (ReadyProbe(w.q, p) && !w.cancelled ==>
                  exists j :: 0 <= j < |w.workers| && Alarm(w.workers[j], StateOf(w.q, p).circuitUntil.value))
  {
    ReachableInv(cfg, run);
    var w := After(cfg, Initial(cfg), run);
    assert w.workers[i].Parked?;
  }

  // ----- circuit breaker over runs ---------------------------------------

  predicate ClaimsNow(cfg: Config, w: World, l: Label) {
    l.ScanStep? && Scan(cfg, w.q, w.clock).claim.Some?
  }

  function ClaimedNow(cfg: Config, w: World, l: Label): Candidate
    requires ClaimsNow(cfg, w, l)
  {
    Scan(cfg, w.q, w.clock).claim.value
  }

  predicate Recovers(w: World, l: Label, p: string) {
    || l.Start?
    || (l.ReleaseStep? && l.worker < |w.workers| && w.workers[l.worker].Checked?
        && w.workers[l.worker].done.candidate.platform == p && !w.workers[l.worker].done.circuitFailure)
  }

  ghost predicate NeverRecovers(cfg: Config, w: World, run: seq<Label>, p: string)
    requires ValidRun(cfg, w, run)
    decreases run
  {
    run == [] || (!Recovers(w, run[0], p) && NeverRecovers(cfg, Step(cfg, w, run[0]), run[1..], p))
  }

  ghost predicate ClaimsNotBefore(cfg: Config, w: World, run: seq<Label>, p: string, deadline: Time)
    requires ValidRun(cfg, w, run)
    decreases run
  {
    run != [] ==>
      && (ClaimsNow(cfg, w, run[0]) && ClaimedNow(cfg, w, run[0]).platform == p ==> w.clock >= deadline)
      && ClaimsNotBefore(cfg, Step(cfg, w, run[0]), run[1..], p, deadline)
  }

  predicate NoEarlier(before: PlatformState, after: PlatformState) {
    before.circuitUntil.Some? ==> after.circuitUntil.Some? && after.circuitUntil.value >= before.circuitUntil.value
  }

  lemma DeadlineOnRelease(cfg: Config, w: World, i: nat, p: string)
    requires Shape(cfg, w) && CircuitOk(cfg, StateOf(w.q, p), w.clock)
    requires Enabled(cfg, w, ReleaseStep(i)) && !Recovers(w, ReleaseStep(i), p)
    ensures NoEarlier(StateOf(w.q, p), StateOf(Step(cfg, w, ReleaseStep(i)).q, p))
  {
    var c := w.workers[i].done.candidate;
    assert Engaged(w.workers[i]) && NormalizePlatform(c.platform) == c.platform;
  }

  lemma DeadlineOnEnqueue(cfg: Config, w: World, c: Candidate)
    ensures Step(cfg, w, Enqueue(c)).q.states == w.q.states
  {
  }

  lemma DeadlineStep(cfg: Config, w: World, l: Label, p: string)
    requires Shape(cfg, w) && CircuitOk(cfg, StateOf(w.q, p), w.clock)
    requires Enabled(cfg, w, l) && !Recovers(w, l, p)
    ensures NoEarlier(StateOf(w.q, p), StateOf(Step(cfg, w, l).q, p))
  {
    if Quiet(l) {
      QuietFrame(cfg, w, l);
    } else if l.ReleaseStep? {
      DeadlineOnRelease(cfg, w, l.worker, p);
    } else if Handover(l) {
      HandoverHolds(cfg, w, l);
    } else if Moves(l) {
      WriterFrame(cfg, w, l);
    } else if l.Send? {
      SendFrame(cfg, w, l.worker);
    } else if l.ScanStep? {
      ScanState(cfg, w.q, w.clock, p);
    } else {
      DeadlineOnEnqueue(cfg, w, l.candidate);
    }
  }

  /** Once a platform's circuit has opened, no candidate of it is claimed at a clock
      reading before the deadline, unless a check of it succeeded in between. */
  lemma {:induction false} OpenCircuitHolds(cfg: Config, w: World, run: seq<Label>, p: string, deadline: Time)
    requires Inv(cfg, w) && ValidRun(cfg, w, run) && NeverRecovers(cfg, w, run, p)
    requires StateOf(w.q, p).circuitUntil.Some? && StateOf(w.q, p).circuitUntil.value >= deadline
    ensures ClaimsNotBefore(cfg, w, run, p, deadline)
    decreases run
  {
    if run != [] {
      var l := run[0];
      if ClaimsNow(cfg, w, l) {
        var k := ScanClaims(cfg, w.q, w.clock);
        assert ClaimedNow(cfg, w, l).platform == At(w.q, k);
      }
      DeadlineStep(cfg, w, l, p);
      InvStep(cfg, w, l);
      OpenCircuitHolds(cfg, Step(cfg, w, l), run[1..], p, deadline);
    }
  }

  // ----- first in, first out ---------------------------------------------

  /** The candidate a step puts at the end of platform p's line, if any. */
  function EnteredNow(cfg: Config, w: World, l: Label, p: string): seq<Candidate> {
    if l.Enqueue? && EnqueueOutcome(cfg, w.q, l.candidate).Accepted? && Normalized(l.candidate).platform == p
    then [Normalized(l.candidate)] else []
  }

  /** The candidate a step claims from platform p, if any. */
  function TakenNow(cfg: Config, w: World, l: Label, p: string): seq<Candidate> {
    if ClaimsNow(cfg, w, l) && ClaimedNow(cfg, w, l).platform == p then [ClaimedNow(cfg, w, l)] else []
  }

  function Entered(cfg: Config, w: World, run: seq<Label>, p: string): seq<Candidate>
    requires ValidRun(cfg, w, run)
    decreases run
  {
    if run == [] then []
    else EnteredNow(cfg, w, run[0], p) + Entered(cfg, Step(cfg, w, run[0]), run[1..], p)
  }

  function Taken(cfg: Config, w: World, run: seq<Label>, p: string): seq<Candidate>
    requires ValidRun(cfg, w, run)
    decreases run
  {
    if run == [] then []
    else TakenNow(cfg, w, run[0], p) + Taken(cfg, Step(cfg, w, run[0]), run[1..], p)
  }

  lemma LineOnClaim(pending: map<string, seq<Candidate>>, head: string, p: string)
    requires head in pending && pending[head] != []
    ensures Line(pending, p) ==
            (if p == head then [pending[head][0]] else []) + Line(pending[head := pending[head][1..]], p)
  {
  }

  /** The head that is taken leaves its line, and no other line changes. */
  lemma LineOnTake(cfg: Config, w: World, i: nat, p: string)
    requires QueueShape(w.q) && ClaimsNow(cfg, w, ScanStep(i)) && i < |w.workers|
    ensures Line(w.q.pending, p) == TakenNow(cfg, w, ScanStep(i), p) + Line(Scan(cfg, w.q, w.clock).queue.pending, p)
  {
    var k := ScanClaims(cfg, w.q, w.clock);
    var head := At(w.q, k);
    LineOnClaim(w.q.pending, head, p);
    assert w.q.pending[head][0].platform == head;
  }

  lemma LineOnScan(cfg: Config, w: World, i: nat, p: string)
    requires QueueShape(w.q) && Enabled(cfg, w, ScanStep(i))
    ensures Line(w.q.pending, p) == TakenNow(cfg, w, ScanStep(i), p) + Line(AfterScan(cfg, w, i).q.pending, p)
  {
    assert AfterScan(cfg, w, i).q == Scan(cfg, w.q, w.clock).queue;
    if ClaimsNow(cfg, w, ScanStep(i)) {
      LineOnTake(cfg, w, i, p);
    } else {
      ScanFails(cfg, w.q, w.clock);
    }
  }

  lemma LineOnEnqueue(cfg: Config, w: World, c: Candidate, p: string)
    ensures Line(Step(cfg, w, Enqueue(c)).q.pending, p)
         == Line(w.q.pending, p) + EnteredNow(cfg, w, Enqueue(c), p)
  {
  }

  lemma LinesFrame(cfg: Config, w: World, l: Label)
    requires Enabled(cfg, w, l) && !l.Start? && !l.Enqueue? && !l.ScanStep?
    ensures Step(cfg, w, l).q.pending == w.q.pending
  {
    if Quiet(l) {
      QuietFrame(cfg, w, l);
    } else if Handover(l) {
      HandoverHolds(cfg, w, l);
    }
  }

  lemma LineStep(cfg: Config, w: World, l: Label, p: string)
    requires QueueShape(w.q) && Enabled(cfg, w, l) && !l.Start?
    ensures Line(w.q.pending, p) + EnteredNow(cfg, w, l, p)
         == TakenNow(cfg, w, l, p) + Line(Step(cfg, w, l).q.pending, p)
  {
    if l.ScanStep? {
      assert EnteredNow(cfg, w, l, p) == [];
      LineOnScan(cfg, w, l.worker, p);
    } else {
      assert TakenNow(cfg, w, l, p) == [];
      if l.Enqueue? {
        LineOnEnqueue(cfg, w, l.candidate, p);
      } else {
        LinesFrame(cfg, w, l);
      }
    }
  }

  lemma Regroup<T>(a: seq<T>, b: seq<T>, c: seq<T>, d: seq<T>, rest: seq<T>, more: seq<T>, end: seq<T>)
    requires a + b == c + d && d + rest == more + end
    ensures a + (b + rest) == (c + more) + end
  {
    assert a + (b + rest) == (a + b) + rest;
    assert (c + d) + rest == c + (d + rest);
    assert c + (more + end) == (c + more) + end;
  }

  /** Per platform, candidates are claimed in the order they were accepted, and those
      not yet claimed are still waiting in that order. */
  lemma {:induction false} ClaimsInEnqueueOrder(cfg: Config, w: World, run: seq<Label>, p: string)
    requires cfg.Valid() && Shape(cfg, w) && ValidRun(cfg, w, run) && Start !in run
    ensures Line(w.q.pending, p) + Entered(cfg, w, run, p)
         == Taken(cfg, w, run, p) + Line(After(cfg, w, run).q.pending, p)
    decreases run
  {
    if run != [] {
      var l, next := run[0], Step(cfg, w, run[0]);
      assert l in run;
      LineStep(cfg, w, l, p);
      ShapeStep(cfg, w, l);
      ClaimsInEnqueueOrder(cfg, next, run[1..], p);
      Regroup(Line(w.q.pending, p), EnteredNow(cfg, w, l, p), TakenNow(cfg, w, l, p), Line(next.q.pending, p),
              Entered(cfg, next, run[1..], p), Taken(cfg, next, run[1..], p),
              Line(After(cfg, next, run[1..]).q.pending, p));
    }
  }

  // ----- round-robin fairness --------------------------------------------

  function IndexOf(order: seq<string>, p: string): (i: nat)
    requires p in order
    ensures i < |order| && order[i] == p
  {
    if order[0] == p then 0 else 1 + IndexOf(order[1..], p)
  }

  /** How many platforms the scan passes before it comes to p. */
  function Distance(q: Queue, p: string): int
    requires p in q.order
  {
    var i := IndexOf(q.order, p);
    if i >= q.cursor then i - q.cursor else i - q.cursor + |q.order|
  }

  lemma DistanceMeets(q: Queue, p: string)
    requires OrderOk(q.order, q.cursor) && p in q.order
    ensures 0 <= Distance(q, p) < |q.order| && At(q, Distance(q, p)) == p
  {
    WrapOnce(q.cursor + Distance(q, p), |q.order|);
  }

  lemma ScanCursor(cfg: Config, q: Queue, now: Time, k: nat)
    requires OrderOk(q.order, q.cursor)
    requires Scan(cfg, q, now).claim.Some? && k == FirstClaimable(cfg, q, now, 0) < |q.order|
    ensures var n, j := |q.order|, q.cursor + k;
            Scan(cfg, q, now).queue.cursor == if j + 1 < n then j + 1 else j + 1 - n
  {
    var n := |q.order|;
    WrapOnce(q.cursor + k, n);
    WrapOnce((q.cursor + k) % n + 1, n);
  }

  lemma CloserTo(q: Queue, r: Queue, k: nat, p: string)
    requires OrderOk(q.order, q.cursor) && p in q.order && r.order == q.order
    requires k < Distance(q, p)
    requires var n, j := |q.order|, q.cursor + k;
             r.cursor == if j + 1 < n then j + 1 else j + 1 - n
    ensures Distance(r, p) < Distance(q, p)
  {
  }

  /** A claim that passes p over brings the cursor strictly closer to p. */
  lemma PassedOver(cfg: Config, q: Queue, now: Time, p: string)
    requires QueueShape(q) && p in q.order
    requires Scan(cfg, q, now).claim.Some? && Claimable(cfg, q, p, now)
    requires Scan(cfg, q, now).claim.value.platform != p
    ensures var r := Scan(cfg, q, now).queue;
            r.order == q.order && Distance(r, p) < Distance(q, p)
  {
    DistanceMeets(q, p);
    FirstClaimableSkips(cfg, q, now, 0, Distance(q, p));
    var k := ScanClaims(cfg, q, now);
    assert q.pending[At(q, k)][0].platform == At(q, k);
    assert k != Distance(q, p);
    ScanCursor(cfg, q, now, k);
    CloserTo(q, Scan(cfg, q, now).queue, k, p);
  }

  function ClaimCount(cfg: Config, w: World, run: seq<Label>): nat
    requires ValidRun(cfg, w, run)
    decreases run
  {
    if run == [] then 0
    else (if ClaimsNow(cfg, w, run[0]) then 1 else 0) + ClaimCount(cfg, Step(cfg, w, run[0]), run[1..])
  }

  /** Along the run no platform joins the order, and whenever some candidate is claimed
      platform p was claimable too. */
  ghost predicate AlwaysClaimable(cfg: Config, w: World, run: seq<Label>, p: string)
    requires ValidRun(cfg, w, run)
    decreases run
  {
    run != [] ==>
      && (ClaimsNow(cfg, w, run[0]) ==> Claimable(cfg, w.q, p, w.clock))
      && Step(cfg, w, run[0]).q.order == w.q.order
      && AlwaysClaimable(cfg, Step(cfg, w, run[0]), run[1..], p)
  }

  lemma CursorStays(cfg: Config, w: World, l: Label)
    requires Enabled(cfg, w, l) && !l.Start? && !ClaimsNow(cfg, w, l)
    ensures Step(cfg, w, l).q.cursor == w.q.cursor
  {
    if Quiet(l) {
      QuietFrame(cfg, w, l);
    } else if Handover(l) {
      HandoverHolds(cfg, w, l);
    } else if Moves(l) {
      WriterFrame(cfg, w, l);
    } else if l.Send? {
      SendFrame(cfg, w, l.worker);
    } else if l.ScanStep? {
      ScanFails(cfg, w.q, w.clock);
    }
  }

  /** Each step uses up distance for a claim, and keeps it otherwise. */
  lemma DistanceStep(cfg: Config, w: World, l: Label, p: string)
    requires Shape(cfg, w) && Enabled(cfg, w, l) && p in w.q.order && Step(cfg, w, l).q.order == w.q.order
    requires ClaimsNow(cfg, w, l) ==> Claimable(cfg, w.q, p, w.clock)
    requires TakenNow(cfg, w, l, p) == [] && !l.Start?
    ensures Distance(Step(cfg, w, l).q, p) + (if ClaimsNow(cfg, w, l) then 1 else 0) <= Distance(w.q, p)
  {
    if ClaimsNow(cfg, w, l) {
      PassedOver(cfg, w.q, w.clock, p);
      assert Step(cfg, w, l).q == Scan(cfg, w.q, w.clock).queue;
    } else {
      CursorStays(cfg, w, l);
    }
  }

  /** A start empties the order, so it cannot fall into a run that keeps it. */
  lemma StartEmptiesOrder(cfg: Config, w: World)
    requires Enabled(cfg, w, Start)
    ensures Step(cfg, w, Start).q.order == []
  {
  }

  lemma {:induction false} PassesAreBounded(cfg: Config, w: World, run: seq<Label>, p: string)
    requires cfg.Valid() && Shape(cfg, w) && ValidRun(cfg, w, run) && p in w.q.order
    requires AlwaysClaimable(cfg, w, run, p) && Taken(cfg, w, run, p) == []
    ensures ClaimCount(cfg, w, run) <= Distance(w.q, p)
    decreases run
  {
    DistanceMeets(w.q, p);
    if run != [] {
      var l := run[0];
      if l.Start? {
        StartEmptiesOrder(cfg, w);
      } else {
        ShapeStep(cfg, w, l);
        DistanceStep(cfg, w, l, p);
        PassesAreBounded(cfg, Step(cfg, w, l), run[1..], p);
      }
    }
  }

  /** A platform that is claimable at every claim is claimed within one round. */
  lemma RoundRobinIsFair(cfg: Config, w: World, run: seq<Label>, p: string)
    requires Inv(cfg, w) && ValidRun(cfg, w, run) && p in w.q.order
    requires AlwaysClaimable(cfg, w, run, p)
    requires ClaimCount(cfg, w, run) >= |w.q.order|
    ensures Taken(cfg, w, run, p) != []
  {
    DistanceMeets(w.q, p);
    if Taken(cfg, w, run, p) == [] {
      PassesAreBounded(cfg, w, run, p);
    }
  }
}
