/** What goes through the queue: which candidates get in, that each is settled once, which results are written,
    and who is at work. */
module LinkFlow {
  import opened LinkQueue
  import opened LinkProtocol
  import opened LinkProof
  import opened LinkRuns

  // ----- when there is room ------------------------------------------------

  /** The ids whose workers occupy a platform. */
  function EngagedIds(ws: seq<Worker>): set<int> {
    if ws == [] then {}
    else (if Engaged(ws[0]) then {Holding(ws[0]).value.id} else {}) + EngagedIds(ws[1..])
  }

  lemma {:induction false} EngagedIsHeld(ws: seq<Worker>, id: int)
    requires id in EngagedIds(ws)
    ensures HeldCount(ws, id) >= 1
  {
    if !(Engaged(ws[0]) && Holding(ws[0]).value.id == id) {
      EngagedIsHeld(ws[1..], id);
    }
  }

  lemma {:induction false} EngagedIdsCount(ws: seq<Worker>)
    requires forall id :: HeldCount(ws, id) <= 1
    ensures |EngagedIds(ws)| == Busy(ws)
  {
    if ws != [] {
      forall id ensures HeldCount(ws[1..], id) <= 1 {
        assert HeldCount(ws, id) <= 1;
      }
      EngagedIdsCount(ws[1..]);
      if Engaged(ws[0]) {
        var id := Holding(ws[0]).value.id;
        assert HeldCount(ws, id) <= 1;
        if id in EngagedIds(ws[1..]) {
          EngagedIsHeld(ws[1..], id);
        }
      }
    }
  }

  lemma EngagedAreQueued(cfg: Config, w: World)
    requires Inv(cfg, w)
    ensures EngagedIds(w.workers) <= w.q.queued && |EngagedIds(w.workers)| == w.q.active
  {
    forall id ensures HeldCount(w.workers, id) <= if id in w.q.queued then 1 else 0 {
      assert Copies(w, id) == if id in w.q.queued then 1 else 0;
    }
    EngagedIdsCount(w.workers);
    forall id | id in EngagedIds(w.workers) ensures id in w.q.queued {
      EngagedIsHeld(w.workers, id);
    }
  }

  /** The candidate is valid, new to a started queue, and so many ids wait or are on their way back. */
  predicate Admits(cfg: Config, w: World, c: Candidate, waiting: int) {
    w.q.started && c.id != 0 && c.url != "" && c.id !in w.q.queued && waiting < cfg.buffer
  }

  lemma EnqueueTakesRoom(cfg: Config, w: World, c: Candidate)
    ensures var r, p := Step(cfg, w, Enqueue(c)), NormalizePlatform(c.platform);
      var room := Admits(cfg, w, c, |w.q.queued| - w.q.active);
      && r.q.queued == (if room then w.q.queued + {c.id} else w.q.queued)
      && Line(r.q.pending, p) == (if room then Line(w.q.pending, p) + [c.(platform := p)] else Line(w.q.pending, p))
      && (!room ==> r == w)
  {
  }

  /** A candidate is accepted exactly if it is valid, the queue is started, its id is not queued, and fewer than Buffer
      ids are queued without a worker engaged with them; it then waits at the end of its platform's line. */
  lemma AcceptedExactlyWithRoom(cfg: Config, run: seq<Label>, c: Candidate)
    requires cfg.Valid() && ValidRun(cfg, Initial(cfg), run)
    ensures var w := After(cfg, Initial(cfg), run);
      var r, p := Step(cfg, w, Enqueue(c)), NormalizePlatform(c.platform);
      var room := Admits(cfg, w, c, |w.q.queued - EngagedIds(w.workers)|);
      && r.q.queued == (if room then w.q.queued + {c.id} else w.q.queued)
      && Line(r.q.pending, p) == (if room then Line(w.q.pending, p) + [c.(platform := p)] else Line(w.q.pending, p))
      && (!room ==> r == w)
  {
    var w := After(cfg, Initial(cfg), run);
    ReachableInv(cfg, run);
    EngagedAreQueued(cfg, w);
    assert |w.q.queued - EngagedIds(w.workers)| == |w.q.queued| - |EngagedIds(w.workers)|;
    EnqueueTakesRoom(cfg, w, c);
  }

  // ----- accepted and settled ----------------------------------------------

  predicate Accepts(cfg: Config, w: World, l: Label, id: int) {
    l.Enqueue? && l.candidate.id == id && EnqueueOutcome(cfg, w.q, l.candidate).Accepted?
  }

  predicate Settles(w: World, l: Label, id: int) {
    l.Settle? && w.writer.inHand != [] && w.writer.inHand[0].candidate.id == id
  }

  /** How many acceptances of an id are not settled, since the last start. */
  function Owed(cfg: Config, w: World, run: seq<Label>, id: int, n: int): int
    requires ValidRun(cfg, w, run)
    decreases run
  {
    if run == [] then n
    else
      var l := run[0];
      Owed(cfg, Step(cfg, w, l), run[1..], id,
           if l.Start? then 0 else if Accepts(cfg, w, l, id) then n + 1 else if Settles(w, l, id) then n - 1 else n)
  }

  lemma QueuedStep(cfg: Config, w: World, l: Label, id: int)
    requires Enabled(cfg, w, l)
    ensures var r := Step(cfg, w, l);
      id in r.q.queued <==> !l.Start? && (Accepts(cfg, w, l, id) || (id in w.q.queued && !Settles(w, l, id)))
  {
    if Quiet(l) {
      QuietFrame(cfg, w, l);
    } else if Handover(l) {
      HandoverHolds(cfg, w, l);
    } else if l.Send? {
      SendFrame(cfg, w, l.worker);
    } else if l.ScanStep? {
      ScanFrame(cfg, w, l.worker);
    }
  }

  lemma SettledIsQueued(cfg: Config, w: World, id: int)
    requires Inv(cfg, w) && Settles(w, Settle, id)
    ensures id in w.q.queued
  {
    DoneMembers(w.writer.inHand, 0);
    assert Copies(w, id) == if id in w.q.queued then 1 else 0;
  }

  lemma {:induction false} OwedAlongRun(cfg: Config, w: World, run: seq<Label>, id: int)
    requires Inv(cfg, w) && ValidRun(cfg, w, run)
    ensures Owed(cfg, w, run, id, if id in w.q.queued then 1 else 0) ==
            if id in After(cfg, w, run).q.queued then 1 else 0
    decreases run
  {
    if run != [] {
      InvStep(cfg, w, run[0]);
      QueuedStep(cfg, w, run[0], id);
      if Settles(w, run[0], id) {
        SettledIsQueued(cfg, w, id);
      }
      OwedAlongRun(cfg, Step(cfg, w, run[0]), run[1..], id);
    }
  }

  /** In every run each acceptance of a resource is settled at most once, no resource is accepted again before that,
      and one is queued exactly if its last acceptance is not settled. */
  lemma AcceptedIsSettledOnce(cfg: Config, run: seq<Label>, id: int)
    requires cfg.Valid() && ValidRun(cfg, Initial(cfg), run)
    ensures Owed(cfg, Initial(cfg), run, id, 0) == if id in After(cfg, Initial(cfg), run).q.queued then 1 else 0
  {
    InvInitial(cfg);
    OwedAlongRun(cfg, Initial(cfg), run, id);
  }

  // ----- which results are dropped -----------------------------------------

  /** A completion that will not be written comes from a check cancelled together with the queue. */
  predicate Written(x: Worker) {
    (x.Checked? || x.ReleaseDebt? || x.Sending?) ==> !x.done.skip
  }

  predicate AllWritten(s: seq<Completion>) {
    forall k :: 0 <= k < |s| ==> !s[k].skip
  }

  predicate NothingDropped(w: World) {
    && (forall i :: 0 <= i < |w.workers| ==> Written(w.workers[i]))
    && AllWritten(w.results) && AllWritten(w.writer.batch) && AllWritten(w.writer.inHand)
  }

  lemma DroppedOnWork(cfg: Config, w: World, l: Label)
    requires (Handover(l) || l.Send?) && Enabled(cfg, w, l) && !w.cancelled && NothingDropped(w)
    ensures NothingDropped(Step(cfg, w, l)) && Step(cfg, w, l).cancelled == w.cancelled
  {
    assert Written(w.workers[l.worker]);
  }

  lemma DroppedOnMove(cfg: Config, w: World, l: Label)
    requires Moves(l) && Enabled(cfg, w, l) && NothingDropped(w)
    ensures NothingDropped(Step(cfg, w, l)) && Step(cfg, w, l).cancelled == w.cancelled
  {
  }

  lemma DroppedOnOther(cfg: Config, w: World, l: Label)
    requires (Quiet(l) || l.ScanStep? || l.Enqueue?) && Enabled(cfg, w, l) && NothingDropped(w)
    ensures NothingDropped(Step(cfg, w, l))
  {
    if l.ScanStep? {
      ScanFrame(cfg, w, l.worker);
    } else if Quiet(l) {
      QuietFrame(cfg, w, l);
    }
  }

  lemma StaysCancelled(cfg: Config, w: World, l: Label)
    requires Enabled(cfg, w, l) && w.cancelled && !l.Start?
    ensures Step(cfg, w, l).cancelled
  {
    if l.ScanStep? {
      ScanFrame(cfg, w, l.worker);
    }
  }

  lemma DroppedOnStart(cfg: Config, w: World)
    requires Lifecycle(w) && Enabled(cfg, w, Start)
    ensures NothingDropped(Step(cfg, w, Start))
  {
  }

  lemma DroppedStep(cfg: Config, w: World, l: Label)
    requires Lifecycle(w) && Enabled(cfg, w, l) && (!w.cancelled ==> NothingDropped(w))
    ensures !Step(cfg, w, l).cancelled ==> NothingDropped(Step(cfg, w, l))
  {
    if l.Start? {
      DroppedOnStart(cfg, w);
    } else if w.cancelled {
      StaysCancelled(cfg, w, l);
    } else if Handover(l) || l.Send? {
      DroppedOnWork(cfg, w, l);
    } else if Moves(l) {
      DroppedOnMove(cfg, w, l);
    } else {
      DroppedOnOther(cfg, w, l);
    }
  }

  lemma {:induction false} DroppedAlongRun(cfg: Config, w: World, run: seq<Label>)
    requires Inv(cfg, w) && ValidRun(cfg, w, run) && (!w.cancelled ==> NothingDropped(w))
    ensures !After(cfg, w, run).cancelled ==> NothingDropped(After(cfg, w, run))
    decreases run
  {
    if run != [] {
      InvStep(cfg, w, run[0]);
      DroppedStep(cfg, w, run[0]);
      DroppedAlongRun(cfg, Step(cfg, w, run[0]), run[1..]);
    }
  }

  /** Until the context is cancelled every result is written; then exactly the cancelled checks are dropped. */
  lemma OnlyCancelledIsDropped(cfg: Config, run: seq<Label>, i: nat, answer: CheckAnswer)
    requires cfg.Valid() && ValidRun(cfg, Initial(cfg), run)
    ensures var w := After(cfg, Initial(cfg), run);
      && (!w.cancelled ==> NothingDropped(w))
      && (Enabled(cfg, w, CheckStep(i, answer)) ==>
            (Written(Step(cfg, w, CheckStep(i, answer)).workers[i]) <==> !w.cancelled || answer != Canceled))
  {
    InvInitial(cfg);
    DroppedAlongRun(cfg, Initial(cfg), run);
  }

  // ----- how much the writer collects --------------------------------------

  /** Until the workers are done the writer collects fewer completions than a batch, and none if the store takes
      no batches. */
  predicate BatchFits(cfg: Config, w: World) {
    w.writer.phase.Receiving? ==>
      |w.writer.batch| < cfg.writeBatchSize && (!cfg.supportsBatch ==> w.writer.batch == [])
  }

  lemma BatchStep(cfg: Config, w: World, l: Label)
    requires cfg.Valid() && Enabled(cfg, w, l) && BatchFits(cfg, w)
    ensures BatchFits(cfg, Step(cfg, w, l))
  {
    if l.ScanStep? {
      ScanFrame(cfg, w, l.worker);
    }
  }

  lemma {:induction false} BatchAlongRun(cfg: Config, w: World, run: seq<Label>)
    requires cfg.Valid() && ValidRun(cfg, w, run) && BatchFits(cfg, w)
    ensures BatchFits(cfg, After(cfg, w, run))
    decreases run
  {
    if run != [] {
      BatchStep(cfg, w, run[0]);
      BatchAlongRun(cfg, Step(cfg, w, run[0]), run[1..]);
    }
  }

  /** In every reachable state, what the writer holds back. */
  lemma BatchesAreBounded(cfg: Config, run: seq<Label>)
    requires cfg.Valid() && ValidRun(cfg, Initial(cfg), run)
    ensures BatchFits(cfg, After(cfg, Initial(cfg), run))
  {
    BatchAlongRun(cfg, Initial(cfg), run);
  }

  // ----- what is collected for writing, and who is at work -------------------

  lemma CollectedStep(cfg: Config, w: World, l: Label)
    requires Enabled(cfg, w, l) && AllWritten(w.writer.batch)
    ensures AllWritten(Step(cfg, w, l).writer.batch)
  {
    if l.ScanStep? {
      ScanFrame(cfg, w, l.worker);
    }
  }

  /** No result of a cancelled check is ever among those collected for writing. */
  lemma {:induction false} CancelledIsNotCollected(cfg: Config, w: World, run: seq<Label>)
    requires ValidRun(cfg, w, run) && AllWritten(w.writer.batch)
    ensures AllWritten(After(cfg, w, run).writer.batch)
    decreases run
  {
    if run != [] {
      CollectedStep(cfg, w, run[0]);
      CancelledIsNotCollected(cfg, Step(cfg, w, run[0]), run[1..]);
    }
  }

  predicate AllAtWork(w: World) {
    !w.cancelled && forall i :: 0 <= i < |w.workers| ==> !w.workers[i].Exited?
  }

  lemma AtWorkStep(cfg: Config, w: World, l: Label)
    requires Enabled(cfg, w, l) && AllAtWork(w) && !l.Stop? && !l.CancelContext?
    ensures AllAtWork(Step(cfg, w, l))
  {
    if l.ScanStep? {
      ScanFrame(cfg, w, l.worker);
    }
  }

  lemma {:induction false} AtWorkAlongRun(cfg: Config, w: World, run: seq<Label>)
    requires ValidRun(cfg, w, run) && AllAtWork(w) && Stop !in run && CancelContext !in run
    ensures AllAtWork(After(cfg, w, run))
    decreases run
  {
    if run != [] {
      assert run[0] in run;
      AtWorkStep(cfg, w, run[0]);
      AtWorkAlongRun(cfg, Step(cfg, w, run[0]), run[1..]);
    }
  }

  /** A start puts every worker to work, also after an earlier stop, and none leaves before the next stop or the end
      of the context. */
  lemma StartPutsToWork(cfg: Config, w: World, run: seq<Label>)
    requires Enabled(cfg, w, Start) && ValidRun(cfg, Step(cfg, w, Start), run) && Stop !in run && CancelContext !in run
    ensures |Step(cfg, w, Start).workers| == cfg.workers && AllAtWork(After(cfg, Step(cfg, w, Start), run))
  {
    AtWorkAlongRun(cfg, Step(cfg, w, Start), run);
  }
}
