/** The circuit breaker in terms of what happened: which checks of a platform failed and when, and who is engaged. */
module LinkBreaker {
  import opened Text
  import opened LinkQueue
  import opened LinkProtocol
  import opened LinkProof
  import opened LinkRuns

  // ----- the failures of a platform, counted on the run --------------------

  /** The failing releases of a platform since its last one that did not fail, when the latest was, and whether it has
      been claimed since then although its circuit was open. */
  datatype History = History(failures: nat, latest: Time, probing: bool)

  const CLEAN := History(0, 0, false)

  predicate ReleasesOn(w: World, l: Label, p: string) {
    && l.ReleaseStep? && l.worker < |w.workers| && w.workers[l.worker].Checked?
    && w.workers[l.worker].done.candidate.platform == p
  }

  predicate ClaimsOn(cfg: Config, w: World, l: Label, p: string) {
    ClaimsNow(cfg, w, l) && ClaimedNow(cfg, w, l).platform == p
  }

  function Heard(cfg: Config, w: World, l: Label, p: string, h: History): History {
    if l.Start? then CLEAN
    else if ReleasesOn(w, l, p) then
      if w.workers[l.worker].done.circuitFailure then History(h.failures + 1, w.clock, false) else CLEAN
    else if ClaimsOn(cfg, w, l, p) then h.(probing := h.probing || h.failures >= cfg.circuitFailures)
    else h
  }

  function Past(cfg: Config, w: World, run: seq<Label>, p: string, h: History): History
    requires ValidRun(cfg, w, run)
    decreases run
  {
    if run == [] then h else Past(cfg, Step(cfg, w, run[0]), run[1..], p, Heard(cfg, w, run[0], p, h))
  }

  /** From the threshold on the circuit is open, until the cooldown has passed since the latest failure. */
  function Deadline(cfg: Config, h: History): Option<Time> {
    if h.failures >= cfg.circuitFailures then Some(h.latest + cfg.circuitCooldown) else None
  }

  ghost predicate Remembers(cfg: Config, w: World, p: string, h: History) {
    && StateOf(w.q, p).failStreak == h.failures && StateOf(w.q, p).circuitUntil == Deadline(cfg, h)
    && StateOf(w.q, p).halfOpen == h.probing
  }

  lemma ReleasedRemembers(cfg: Config, st: PlatformState, failure: bool, now: Time, h: History)
    requires cfg.Valid() && CircuitOk(cfg, st, now) && st.failStreak == h.failures
    ensures var r := Released(cfg, st, failure, now);
      var after := if failure then History(h.failures + 1, now, false) else CLEAN;
      r.failStreak == after.failures && r.circuitUntil == Deadline(cfg, after) && r.halfOpen == after.probing
  {
  }

  /** A release changes the record of the platform its candidate was claimed on, and no other. */
  lemma ReleaseState(cfg: Config, w: World, i: nat, p: string)
    requires Shape(cfg, w) && Enabled(cfg, w, ReleaseStep(i))
    ensures var done := w.workers[i].done;
      StateOf(Step(cfg, w, ReleaseStep(i)).q, p) ==
      if done.candidate.platform == p then Released(cfg, StateOf(w.q, p), done.circuitFailure, w.clock)
      else StateOf(w.q, p)
  {
    var platform := w.workers[i].done.candidate.platform;
    assert Engaged(w.workers[i]) && NormalizePlatform(platform) == platform;
  }

  lemma RecordRemembers(cfg: Config, w: World, v: World, i: nat, p: string, h: History)
    requires cfg.Valid() && CircuitOk(cfg, StateOf(w.q, p), w.clock) && Remembers(cfg, w, p, h)
    requires i < |w.workers| && w.workers[i].Checked?
    requires StateOf(v.q, p) ==
      if w.workers[i].done.candidate.platform == p
      then Released(cfg, StateOf(w.q, p), w.workers[i].done.circuitFailure, w.clock) else StateOf(w.q, p)
    ensures Remembers(cfg, v, p, Heard(cfg, w, ReleaseStep(i), p, h))
  {
    ReleasedRemembers(cfg, StateOf(w.q, p), w.workers[i].done.circuitFailure, w.clock, h);
  }

  lemma ReleaseRemembers(cfg: Config, w: World, i: nat, p: string, h: History)
    requires cfg.Valid() && Shape(cfg, w) && CircuitOk(cfg, StateOf(w.q, p), w.clock)
    requires Enabled(cfg, w, ReleaseStep(i)) && Remembers(cfg, w, p, h)
    ensures Remembers(cfg, Step(cfg, w, ReleaseStep(i)), p, Heard(cfg, w, ReleaseStep(i), p, h))
  {
    ReleaseState(cfg, w, i, p);
    RecordRemembers(cfg, w, Step(cfg, w, ReleaseStep(i)), i, p, h);
  }

  /** A scan changes the record of the platform it claims, and no other. */
  lemma ScanRecord(cfg: Config, w: World, i: nat, p: string)
    requires QueueShape(w.q) && Enabled(cfg, w, ScanStep(i))
    ensures StateOf(AfterScan(cfg, w, i).q, p) ==
            if ClaimsOn(cfg, w, ScanStep(i), p) then Claimed(StateOf(w.q, p)) else StateOf(w.q, p)
  {
    ScanState(cfg, w.q, w.clock, p);
    assert AfterScan(cfg, w, i).q == Scan(cfg, w.q, w.clock).queue;
    if Scan(cfg, w.q, w.clock).claim.Some? {
      var k := ScanClaims(cfg, w.q, w.clock);
      assert w.q.pending[At(w.q, k)][0].platform == At(w.q, k);
    }
  }

  lemma ClaimRemembers(cfg: Config, w: World, v: World, i: nat, p: string, h: History)
    requires Remembers(cfg, w, p, h)
    requires StateOf(v.q, p) ==
      if ClaimsOn(cfg, w, ScanStep(i), p) then Claimed(StateOf(w.q, p)) else StateOf(w.q, p)
    ensures Remembers(cfg, v, p, Heard(cfg, w, ScanStep(i), p, h))
  {
  }

  /** Any other step leaves the records alone, or starts afresh. */
  lemma OtherRecord(cfg: Config, w: World, l: Label, p: string)
    requires Enabled(cfg, w, l) && !l.ReleaseStep? && !l.ScanStep?
    ensures StateOf(Step(cfg, w, l).q, p) == if l.Start? then IDLE_PLATFORM else StateOf(w.q, p)
  {
    if Quiet(l) {
      QuietFrame(cfg, w, l);
    } else if Handover(l) {
      HandoverHolds(cfg, w, l);
    } else if Moves(l) {
      WriterFrame(cfg, w, l);
    } else if l.Send? {
      SendFrame(cfg, w, l.worker);
    }
  }

  lemma OtherRemembers(cfg: Config, w: World, v: World, l: Label, p: string, h: History)
    requires cfg.Valid() && Remembers(cfg, w, p, h) && !l.ReleaseStep? && !l.ScanStep?
    requires StateOf(v.q, p) == if l.Start? then IDLE_PLATFORM else StateOf(w.q, p)
    ensures Remembers(cfg, v, p, Heard(cfg, w, l, p, h))
  {
  }

  lemma RemembersStep(cfg: Config, w: World, l: Label, p: string, h: History)
    requires Inv(cfg, w) && Enabled(cfg, w, l) && Remembers(cfg, w, p, h)
    ensures Remembers(cfg, Step(cfg, w, l), p, Heard(cfg, w, l, p, h))
  {
    if l.ReleaseStep? {
      assert CircuitOk(cfg, StateOf(w.q, p), w.clock);
      ReleaseRemembers(cfg, w, l.worker, p, h);
    } else if l.ScanStep? {
      ScanRecord(cfg, w, l.worker, p);
      ClaimRemembers(cfg, w, Step(cfg, w, l), l.worker, p, h);
    } else {
      OtherRecord(cfg, w, l, p);
      OtherRemembers(cfg, w, Step(cfg, w, l), l, p, h);
    }
  }

  lemma {:induction false} RemembersAlongRun(cfg: Config, w: World, run: seq<Label>, p: string, h: History)
    requires Inv(cfg, w) && ValidRun(cfg, w, run) && Remembers(cfg, w, p, h)
    ensures Remembers(cfg, After(cfg, w, run), p, Past(cfg, w, run, p, h))
    decreases run
  {
    if run != [] {
      InvStep(cfg, w, run[0]);
      RemembersStep(cfg, w, run[0], p, h);
      RemembersAlongRun(cfg, Step(cfg, w, run[0]), run[1..], p, Heard(cfg, w, run[0], p, h));
    }
  }

  function HistoryOf(cfg: Config, run: seq<Label>, p: string): History
    requires cfg.Valid() && ValidRun(cfg, Initial(cfg), run)
  {
    Past(cfg, Initial(cfg), run, p, CLEAN)
  }

  /** In every reachable state a platform's circuit is what the failures of its checks made it: open exactly from the
      CircuitFailures-th in a row on, until CircuitCooldown after the latest, and half open exactly while probed. */
  lemma CircuitIsHistory(cfg: Config, run: seq<Label>, p: string)
    requires cfg.Valid() && ValidRun(cfg, Initial(cfg), run)
    ensures var st, h := StateOf(After(cfg, Initial(cfg), run).q, p), HistoryOf(cfg, run, p);
      && st.failStreak == h.failures
      && (st.circuitUntil.Some? <==> h.failures >= cfg.circuitFailures)
      && (st.circuitUntil.Some? ==> st.circuitUntil.value == h.latest + cfg.circuitCooldown)
      && (st.halfOpen <==> h.probing)
  {
    InvInitial(cfg);
    RemembersAlongRun(cfg, Initial(cfg), run, p, CLEAN);
  }

  /** From a state in which the last CircuitFailures or more releases of a platform failed, it is not claimed before
      the cooldown has passed since the latest, unless a check of it does not fail meanwhile. */
  lemma FailuresKeepCircuitOpen(cfg: Config, run: seq<Label>, p: string, more: seq<Label>)
    requires cfg.Valid() && ValidRun(cfg, Initial(cfg), run) && ValidRun(cfg, After(cfg, Initial(cfg), run), more)
    requires HistoryOf(cfg, run, p).failures >= cfg.circuitFailures
    requires NeverRecovers(cfg, After(cfg, Initial(cfg), run), more, p)
    ensures ClaimsNotBefore(cfg, After(cfg, Initial(cfg), run), more, p,
                            HistoryOf(cfg, run, p).latest + cfg.circuitCooldown)
  {
    ReachableInv(cfg, run);
    CircuitIsHistory(cfg, run, p);
    OpenCircuitHolds(cfg, After(cfg, Initial(cfg), run), more, p, HistoryOf(cfg, run, p).latest + cfg.circuitCooldown);
  }

  lemma {:induction false} PastSnoc(cfg: Config, w: World, run: seq<Label>, l: Label, p: string, h: History)
    requires ValidRun(cfg, w, run) && Enabled(cfg, After(cfg, w, run), l)
    ensures ValidRun(cfg, w, run + [l]) && After(cfg, w, run + [l]) == Step(cfg, After(cfg, w, run), l)
    ensures Past(cfg, w, run + [l], p, h) == Heard(cfg, After(cfg, w, run), l, p, Past(cfg, w, run, p, h))
    decreases run
  {
    if run == [] {
      assert run + [l] == [l] && [l][1..] == [];
      assert ValidRun(cfg, Step(cfg, w, l), []);
    } else {
      PastSnoc(cfg, Step(cfg, w, run[0]), run[1..], l, p, Heard(cfg, w, run[0], p, h));
      assert (run + [l])[1..] == run[1..] + [l];
    }
  }

  /** So a failing release that is a probe, or at least the CircuitFailures-th in a row, keeps its platform from being
      claimed for the whole cooldown. */
  lemma FailureKeepsCircuitOpen(cfg: Config, run: seq<Label>, i: nat, p: string, more: seq<Label>)
    requires cfg.Valid() && ValidRun(cfg, Initial(cfg), run + [ReleaseStep(i)]) && ValidRun(cfg, Initial(cfg), run)
    requires var w := After(cfg, Initial(cfg), run);
      && ReleasesOn(w, ReleaseStep(i), p) && w.workers[i].done.circuitFailure
      && (StateOf(w.q, p).halfOpen || HistoryOf(cfg, run, p).failures + 1 >= cfg.circuitFailures)
    requires ValidRun(cfg, After(cfg, Initial(cfg), run + [ReleaseStep(i)]), more)
    requires NeverRecovers(cfg, After(cfg, Initial(cfg), run + [ReleaseStep(i)]), more, p)
    ensures ClaimsNotBefore(cfg, After(cfg, Initial(cfg), run + [ReleaseStep(i)]), more, p,
                            After(cfg, Initial(cfg), run).clock + cfg.circuitCooldown)
  {
    HalfOpenIsOpen(cfg, run, p);
    PastSnoc(cfg, Initial(cfg), run, ReleaseStep(i), p, CLEAN);
    FailuresKeepCircuitOpen(cfg, run + [ReleaseStep(i)], p, more);
  }

  lemma HalfOpenIsOpen(cfg: Config, run: seq<Label>, p: string)
    requires cfg.Valid() && ValidRun(cfg, Initial(cfg), run)
    ensures StateOf(After(cfg, Initial(cfg), run).q, p).halfOpen ==>
              HistoryOf(cfg, run, p).failures >= cfg.circuitFailures
  {
    var w := After(cfg, Initial(cfg), run);
    ReachableInv(cfg, run);
    CircuitIsHistory(cfg, run, p);
    assert CircuitOk(cfg, StateOf(w.q, p), w.clock);
  }

  /** Which answers count as failures of the platform: neither a final status nor a cancellation does, and both
      clear its history. */
  lemma AnswerDecides(cfg: Config, w: World, i: nat, answer: CheckAnswer, h: History)
    requires Enabled(cfg, w, CheckStep(i, answer))
    ensures var p, v := w.workers[i].candidate.platform, Step(cfg, w, CheckStep(i, answer));
      && Enabled(cfg, v, ReleaseStep(i))
      && Heard(cfg, v, ReleaseStep(i), p, h) ==
         if answer == Failed || answer == Status(false) then History(h.failures + 1, w.clock, false) else CLEAN
  {
  }

  // ----- what a scan may claim ---------------------------------------------

  /** The platform has work and, below the failure threshold, a free slot; from the threshold on, it may be probed
      by one worker while nobody is engaged with it, once the cooldown has passed since the latest failure. */
  predicate Due(cfg: Config, w: World, p: string, h: History) {
    && Line(w.q.pending, p) != []
    && if h.failures < cfg.circuitFailures then BusyOn(w.workers, p) < cfg.platformLimit
       else h.latest + cfg.circuitCooldown <= w.clock && BusyOn(w.workers, p) == 0
  }

  lemma ClaimableIsDue(cfg: Config, run: seq<Label>, p: string)
    requires cfg.Valid() && ValidRun(cfg, Initial(cfg), run)
    ensures var w := After(cfg, Initial(cfg), run);
      Claimable(cfg, w.q, p, w.clock) <==> Due(cfg, w, p, HistoryOf(cfg, run, p))
  {
    var w := After(cfg, Initial(cfg), run);
    ReachableInv(cfg, run);
    CircuitIsHistory(cfg, run, p);
    assert CircuitOk(cfg, StateOf(w.q, p), w.clock) && StateOf(w.q, p).inUse == BusyOn(w.workers, p);
  }

  /** In every reachable state a scan takes the head of a platform that is due, and finds nothing only if none is. */
  lemma ScanTakesWhatIsDue(cfg: Config, run: seq<Label>, i: nat)
    requires cfg.Valid() && ValidRun(cfg, Initial(cfg), run)
    requires Enabled(cfg, After(cfg, Initial(cfg), run), ScanStep(i))
    ensures var w := After(cfg, Initial(cfg), run);
      var claim := Scan(cfg, w.q, w.clock).claim;
      && (claim.Some? ==>
            var p := claim.value.platform;
            Due(cfg, w, p, HistoryOf(cfg, run, p)) && claim.value == Line(w.q.pending, p)[0])
      && (claim.None? <==> forall p :: !Due(cfg, w, p, HistoryOf(cfg, run, p)))
  {
    var w := After(cfg, Initial(cfg), run);
    ReachableInv(cfg, run);
    if Scan(cfg, w.q, w.clock).claim.Some? {
      var k := ScanClaims(cfg, w.q, w.clock);
      var p := At(w.q, k);
      assert w.q.pending[p][0].platform == p;
      ClaimableIsDue(cfg, run, p);
    } else {
      forall p ensures !Due(cfg, w, p, HistoryOf(cfg, run, p)) {
        ClaimableIsDue(cfg, run, p);
        if Line(w.q.pending, p) != [] {
          var k := OffsetOf(w.q, p);
          ScanFailsEverywhere(cfg, w.q, w.clock, k);
        }
      }
    }
  }
}
