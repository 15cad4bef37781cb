/** When a synchronisation stops, told from the answers alone. */
module SyncStops {
  import opened Text
  import opened Iteration
  import opened KeywordSync
  import opened TrackedSync
  import opened SyncRuns

  // ----- what an answer is worth ------------------------------------------------

  /** The turn is ended from outside: the context, the wait between requests or the request itself. */
  predicate Cut(config: Config, index: nat, a: Answer) {
    || a.cancelled
    || (index > 0 && a.waitFails)
    || (Derives(config, index, a.reply) && a.reply.NoResponse? && a.reply.interrupted)
  }

  /** The request succeeds and its response can be read. */
  predicate Brings(config: Config, index: nat, a: Answer) {
    !a.cancelled && !(index > 0 && a.waitFails) && Derives(config, index, a.reply) && a.reply.Extracted?
  }

  /** The names in the answers before turn k. */
  function NamesBefore(config: Config, answers: seq<Answer>, k: nat): set<string>
    requires k <= |answers|
  {
    if k == 0 then {} else NamesBefore(config, answers, k - 1) + Names(TakenIn(config, k - 1, answers[k - 1]))
  }

  /** Some keyword of the turn has a name that stands in no earlier answer. */
  predicate HasNewName(config: Config, answers: seq<Answer>, k: nat)
    requires k < |answers|
  {
    exists name :: name in Names(TakenIn(config, k, answers[k])) && name !in NamesBefore(config, answers, k)
  }

  /** The store says that it does not know some name of the turn that stands in no earlier answer. */
  predicate HasUnknownName(config: Config, answers: seq<Answer>, k: nat, existing: set<string>)
    requires k < |answers|
  {
    exists name ::
      name in Names(TakenIn(config, k, answers[k])) && name !in NamesBefore(config, answers, k) && name !in existing
  }

  /** In normal mode any keyword makes a turn fruitful; in strict mode only one with a name that stands in no
      earlier answer and that the store does not know. */
  predicate Fruitful(config: Config, answers: seq<Answer>, k: nat)
    requires k < |answers|
  {
    && Brings(config, k, answers[k])
    && (!Strict(config) ==> answers[k].reply.keywords != [])
    && (Strict(config) ==>
          && answers[k].reply.existing.Some?
          && HasUnknownName(config, answers, k, answers[k].reply.existing.value))
  }

  /** In strict mode the store has to be asked about a new name, and fails to tell. */
  predicate Undecided(config: Config, answers: seq<Answer>, k: nat)
    requires k < |answers|
  {
    && Strict(config) && Brings(config, k, answers[k])
    && answers[k].reply.existing.None? && HasNewName(config, answers, k)
  }

  /** The last stopCount turns up to k, and this one, were fruitless. */
  predicate StopsAt(config: Config, answers: seq<Answer>, k: nat)
    requires k < |answers|
  {
    && 0 < config.stopCount <= k + 1
    && forall j :: k + 1 - config.stopCount <= j <= k ==> !Fruitful(config, answers, j)
  }

  /** No turn follows turn k. */
  predicate Ends(config: Config, answers: seq<Answer>, k: nat)
    requires k < |answers|
  {
    Cut(config, k, answers[k]) || Undecided(config, answers, k) || StopsAt(config, answers, k)
  }

  /** How many turns before k were fruitless in a row. */
  function Dry(config: Config, answers: seq<Answer>, k: nat): nat
    requires k <= |answers|
  {
    if k == 0 || Fruitful(config, answers, k - 1) then 0 else Dry(config, answers, k - 1) + 1
  }

  lemma {:induction false} DryCounts(config: Config, answers: seq<Answer>, k: nat)
    requires k <= |answers|
    ensures Dry(config, answers, k) <= k
    ensures forall j :: k - Dry(config, answers, k) <= j < k ==> !Fruitful(config, answers, j)
    ensures Dry(config, answers, k) < k ==> Fruitful(config, answers, k - Dry(config, answers, k) - 1)
  {
    if k > 0 && !Fruitful(config, answers, k - 1) {
      DryCounts(config, answers, k - 1);
    }
  }

  lemma DryStops(config: Config, answers: seq<Answer>, k: nat)
    requires k < |answers|
    ensures StopsAt(config, answers, k) <==> ReachedLimit(config, Dry(config, answers, k + 1))
  {
    DryCounts(config, answers, k + 1);
  }

  // ----- what has been counted before turn k ---------------------------------------

  function Successes(config: Config, answers: seq<Answer>, k: nat): nat
    requires k <= |answers|
  {
    if k == 0 then 0
    else
      Successes(config, answers, k - 1) +
      if Brings(config, k - 1, answers[k - 1]) && !Undecided(config, answers, k - 1) then 1 else 0
  }

  /** Why a turn has nothing to count, if so. */
  function CauseOf(config: Config, index: nat, a: Answer): Option<Cause> {
    if a.cancelled then Some(Cancelled)
    else if index > 0 && a.waitFails then Some(WaitFailed)
    else if !Derives(config, index, a.reply) then Some(NotDerived)
    else match a.reply
      case NoResponse(_) => Some(NotExecuted)
      case NoValues => Some(NotExtracted)
      case _ => None
  }

  function Failures(config: Config, answers: seq<Answer>, k: nat): seq<Failure>
    requires k <= |answers|
  {
    if k == 0 then []
    else
      var cause := CauseOf(config, k - 1, answers[k - 1]);
      Failures(config, answers, k - 1) + if cause.Some? then [Failure(k - 1, cause.value)] else []
  }

  /** The loop has counted what the answers before k say. */
  predicate Counts(config: Config, answers: seq<Answer>, k: nat, t: Tally)
    requires k <= |answers|
  {
    && t.seen == NamesBefore(config, answers, k)
    && t.successes == Successes(config, answers, k)
    && t.errors == Failures(config, answers, k)
  }

  // ----- one turn --------------------------------------------------------------------

  /** Progress in strict mode, told from the names. */
  lemma StrictProgress(config: Config, keywords: seq<Keyword>, seen: set<string>, existing: Option<set<string>>)
    requires Strict(config)
    ensures var progress := Progress(config, keywords, seen, existing);
      && (progress.None? <==> existing.None? && exists name :: name in Names(keywords) && name !in seen)
      && (progress == Some(true) <==>
            && existing.Some?
            && exists name :: name in Names(keywords) && name !in seen && name !in existing.value)
  {
    var found := Firsts(keywords, seen);
    FirstsAreNew(keywords, seen);
    assert forall name :: name in Names(found) <==> name in Names(keywords) && name !in seen;
    NoNames(found);
    if existing.Some? {
      UnknownByName(found, existing.value);
    }
  }

  lemma NoNames(keywords: seq<Keyword>)
    ensures keywords == [] <==> forall name :: name !in Names(keywords)
  {
    if keywords != [] {
      assert keywords[0].normalized in Names(keywords);
    }
  }

  lemma UnknownByName(found: seq<Keyword>, existing: set<string>)
    ensures Unknown(found, existing) <==> exists name :: name in Names(found) && name !in existing
  {
    if Unknown(found, existing) {
      var i :| 0 <= i < |found| && found[i].normalized !in existing;
      assert found[i].normalized in Names(found);
    }
    if name :| name in Names(found) && name !in existing {
      var k :| k in found && k.normalized == name;
      var i :| 0 <= i < |found| && found[i] == k;
      assert found[i].normalized !in existing;
    }
  }

  /** What a turn does, told from its answer and the answers before it. */
  predicate TurnIs(config: Config, answers: seq<Answer>, k: nat, t: Tally, turn: Turn)
    requires k < |answers|
  {
    && (turn.fate == Goes <==> !Ends(config, answers, k))
    && (turn.fate == CheckFails <==> Undecided(config, answers, k))
    && Counts(config, answers, k + 1, turn.tally)
    && (turn.fate == Goes ==> turn.tally.streak == Dry(config, answers, k + 1))
  }

  lemma BarrenTurn(config: Config, answers: seq<Answer>, k: nat, t: Tally)
    requires k < |answers| && Counts(config, answers, k, t) && t.streak == Dry(config, answers, k)
    requires !Brings(config, k, answers[k])
    ensures TurnIs(config, answers, k, t, PlainTurn(config, k, t, answers[k]))
  {
    DryStops(config, answers, k);
    assert t.seen + Names([]) == t.seen;
  }

  lemma FruitfulTurn(config: Config, answers: seq<Answer>, k: nat, t: Tally)
    requires k < |answers| && Counts(config, answers, k, t) && t.streak == Dry(config, answers, k)
    requires Brings(config, k, answers[k])
    ensures TurnIs(config, answers, k, t, PlainTurn(config, k, t, answers[k]))
  {
    var reply := answers[k].reply;
    DryStops(config, answers, k);
    if Strict(config) {
      StrictProgress(config, reply.keywords, t.seen, reply.existing);
    }
    var progress := Progress(config, reply.keywords, t.seen, reply.existing);
    assert progress.None? <==> Undecided(config, answers, k);
    assert progress.Some? ==> (progress.value <==> Fruitful(config, answers, k));
  }

  // ----- whole runs --------------------------------------------------------------------

  /** How a run ends that has used n answers. */
  predicate EndsAfter(config: Config, answers: seq<Answer>, n: nat, end: End) {
    && n <= |answers|
    && (forall j :: 0 <= j < n ==> Allows(config, j))
    && (forall j :: 0 <= j && j + 1 < n ==> !Ends(config, answers, j))
    && (end.ending == Unfinished <==>
          n == |answers| && Allows(config, n) && (n > 0 ==> !Ends(config, answers, n - 1)))
    && (end.ending == CheckFailed <==> n > 0 && Undecided(config, answers, n - 1))
    && (n < |answers| && Allows(config, n) ==> n > 0 && Ends(config, answers, n - 1))
    && Counts(config, answers, n, end.tally)
  }

  /** What the run has passed before turn k went on. */
  predicate Passed(config: Config, answers: seq<Answer>, k: nat)
    requires k <= |answers|
  {
    forall j :: 0 <= j < k ==> Allows(config, j) && !Ends(config, answers, j)
  }

  lemma TurnsAre(config: Config, answers: seq<Answer>, k: nat, t: Tally)
    requires k < |answers| && Counts(config, answers, k, t) && t.streak == Dry(config, answers, k)
    ensures TurnIs(config, answers, k, t, PlainTurn(config, k, t, answers[k]))
  {
    if Brings(config, k, answers[k]) {
      FruitfulTurn(config, answers, k, t);
    } else {
      BarrenTurn(config, answers, k, t);
    }
  }

  /** How the run from turn k on ends, and after how many turns in all. */
  predicate IsRun(config: Config, answers: seq<Answer>, k: nat, t: Tally, n: nat, end: End)
    requires k <= |answers|
  {
    n == k + Turns(config, k, t, answers[k..]) && end == PlainRun(config, k, t, answers[k..])
  }

  function LastEnd(turn: Turn): End {
    End(turn.tally, if turn.fate == CheckFails then CheckFailed else Finished)
  }

  lemma LastTurn(config: Config, answers: seq<Answer>, k: nat, t: Tally, turn: Turn)
    requires k < |answers| && Allows(config, k) && Passed(config, answers, k)
    requires TurnIs(config, answers, k, t, turn) && turn.fate != Goes
    ensures EndsAfter(config, answers, k + 1, LastEnd(turn))
  {
  }

  lemma LastIsRun(config: Config, answers: seq<Answer>, k: nat, t: Tally)
    requires k < |answers| && Allows(config, k) && PlainTurn(config, k, t, answers[k]).fate != Goes
    ensures IsRun(config, answers, k, t, k + 1, LastEnd(PlainTurn(config, k, t, answers[k])))
  {
    assert answers[k..][0] == answers[k];
    RunStopsHere(config, k, t, answers[k..]);
  }

  /** The run is over before turn k: the count allows no more, or there is no answer. */
  function NoTurn(config: Config, k: nat, t: Tally): End {
    End(t, if Allows(config, k) then Unfinished else Finished)
  }

  lemma StopsBefore(config: Config, answers: seq<Answer>, k: nat, t: Tally)
    requires k <= |answers| && Counts(config, answers, k, t) && Passed(config, answers, k)
    requires k == |answers| || !Allows(config, k)
    ensures EndsAfter(config, answers, k, NoTurn(config, k, t))
  {
    assert k > 0 ==> !Ends(config, answers, k - 1);
  }

  lemma NoTurnIsRun(config: Config, answers: seq<Answer>, k: nat, t: Tally)
    requires k <= |answers| && (k == |answers| || !Allows(config, k))
    ensures IsRun(config, answers, k, t, k, NoTurn(config, k, t))
  {
  }

  lemma TurnsGoOn(config: Config, index: nat, t: Tally, answers: seq<Answer>, next: Tally)
    requires Allows(config, index) && answers != [] && PlainTurn(config, index, t, answers[0]) == Turn(next, Goes)
    ensures Turns(config, index, t, answers) == 1 + Turns(config, index + 1, next, answers[1..])
  {
  }

  lemma TurnIsRun(config: Config, answers: seq<Answer>, k: nat, t: Tally, next: Tally, n: nat, end: End)
    requires k < |answers| && Allows(config, k) && PlainTurn(config, k, t, answers[k]) == Turn(next, Goes)
    requires IsRun(config, answers, k + 1, next, n, end)
    ensures IsRun(config, answers, k, t, n, end)
  {
    assert answers[k..][0] == answers[k] && answers[k..][1..] == answers[k + 1..];
    TurnsGoOn(config, k, t, answers[k..], next);
    RunGoesOn(config, k, t, answers[k..], next);
  }

  lemma OneMorePassed(config: Config, answers: seq<Answer>, k: nat)
    requires k < |answers| && Passed(config, answers, k) && Allows(config, k) && !Ends(config, answers, k)
    ensures Passed(config, answers, k + 1)
  {
  }

  lemma {:induction false} RunFrom(config: Config, answers: seq<Answer>, k: nat, t: Tally) returns (n: nat, end: End)
    requires k <= |answers| && Counts(config, answers, k, t) && t.streak == Dry(config, answers, k)
    requires Passed(config, answers, k)
    ensures IsRun(config, answers, k, t, n, end) && EndsAfter(config, answers, n, end)
    decreases |answers| - k
  {
    if !Allows(config, k) || k == |answers| {
      n, end := k, NoTurn(config, k, t);
      StopsBefore(config, answers, k, t);
      NoTurnIsRun(config, answers, k, t);
    } else {
      TurnsAre(config, answers, k, t);
      var turn := PlainTurn(config, k, t, answers[k]);
      if turn.fate == Goes {
        OneMorePassed(config, answers, k);
        n, end := RunFrom(config, answers, k + 1, turn.tally);
        TurnIsRun(config, answers, k, t, turn.tally, n, end);
      } else {
        n, end := k + 1, LastEnd(turn);
        LastTurn(config, answers, k, t, turn);
        LastIsRun(config, answers, k, t);
      }
    }
  }

  /** Every run, told from its answers: turn after turn as long as the count allows one, up to the first turn that
      is cut off from outside, about whose new names the store fails to tell, or that is the last of stopCount
      fruitless turns in a row; with the successes and the errors of exactly these turns. */
  lemma RunEndsExactly(config: Config, answers: seq<Answer>)
    ensures EndsAfter(config, answers, Turns(config, 0, NoTally(), answers), PlainRun(config, 0, NoTally(), answers))
  {
    assert answers[0..] == answers;
    var n, end := RunFrom(config, answers, 0, NoTally());
  }

  /** An undisturbed run whose store always tells stops although another turn is allowed, exactly after stopCount
      fruitless turns in a row. */
  lemma StopsEarlyExactly(config: Config, answers: seq<Answer>)
    requires forall k :: 0 <= k < |answers| ==> Undisturbed(answers[k]) && !Undecided(config, answers, k)
    ensures var n := Turns(config, 0, NoTally(), answers);
      && n <= |answers|
      && (forall k :: 0 <= k && k + 1 < n ==> !StopsAt(config, answers, k))
      && (Allows(config, n) ==>
            (PlainRun(config, 0, NoTally(), answers).ending == Finished
             <==> n > 0 && StopsAt(config, answers, n - 1)))
      && (!Allows(config, n) ==> PlainRun(config, 0, NoTally(), answers).ending == Finished)
  {
    RunEndsExactly(config, answers);
    var n := Turns(config, 0, NoTally(), answers);
    if n > 0 {
      assert Undisturbed(answers[n - 1]);
    }
    forall k: nat | k + 1 < n ensures !StopsAt(config, answers, k) {
      assert !Ends(config, answers, k);
    }
  }

  /** The closing call counts exactly the successes and lists exactly the errors of the turns that were made. */
  lemma OutcomeCounts(source: Source, answers: seq<Answer>)
    requires Runs(source) && PlainRun(source.config, 0, NoTally(), answers).ending == Finished
    ensures var n, o := Turns(source.config, 0, NoTally(), answers), PlainOutcome(source, answers);
      && n <= |answers|
      && (Successes(source.config, answers, n) == 0 ==>
            o.AllFailed? && o.errors == Failures(source.config, answers, n))
      && (Successes(source.config, answers, n) > 0 ==>
            && o.Synced? && o.errors == Failures(source.config, answers, n)
            && o.successes == Successes(source.config, answers, n))
  {
    RunEndsExactly(source.config, answers);
  }

  // ----- what the configuration means ----------------------------------------------------

  /** An accepted configuration is strict exactly if it is enabled, has a stop count, and says so. */
  lemma StrictExactly(config: Config, targetFits: bool)
    requires Accepted(config, targetFits)
    ensures Strict(config) <==>
            config.enabled && config.stopCount > 0 && ToLower(TrimSpace(config.stopMode)) == "strict"
  {
  }

  /** A run that nothing ends makes as many requests as it has answers or, if fewer, as it is configured for: one if
      iteration is disabled, count if it is limited. */
  lemma FullRunMakesCount(config: Config, answers: seq<Answer>)
    requires forall k :: 0 <= k < |answers| ==> !Ends(config, answers, k)
    requires config.enabled && !config.unlimited ==> config.count >= 0
    ensures var limit := if !config.enabled then 1 else if config.unlimited then |answers| else config.count;
      Turns(config, 0, NoTally(), answers) == if |answers| <= limit then |answers| else limit
  {
    RunEndsExactly(config, answers);
    var n := Turns(config, 0, NoTally(), answers);
    assert n > 0 ==> Allows(config, n - 1);
  }

  // ----- the tracked loop under disturbance ------------------------------------------------

  lemma TrackedGoesOnce(config: Config, index: nat, l: Log, front: seq<Answer>, answers: seq<Answer>)
    requires front != [] && TrackedRun(config, index, l, front).ending == InProgress
    requires answers != [] && answers[0] == front[0]
    ensures var next := TrackedStep(config, index, l, front[0]).log;
      && TrackedRun(config, index + 1, next, front[1..]).ending == InProgress
      && TrackedRun(config, index, l, answers) == TrackedRun(config, index + 1, next, answers[1..])
  {
  }

  /** A run that is not over after some answers goes on from there. */
  lemma {:induction false} TrackedGoesOn(config: Config, index: nat, l: Log, front: seq<Answer>, rest: seq<Answer>)
      returns (m: Log)
    requires TrackedRun(config, index, l, front).ending == InProgress
    ensures TrackedRun(config, index, l, front + rest) == TrackedRun(config, index + |front|, m, rest)
    ensures Allows(config, index + |front|)
    decreases front
  {
    if front == [] {
      m := l;
      assert front + rest == rest;
    } else {
      assert (front + rest)[0] == front[0] && (front + rest)[1..] == front[1..] + rest;
      TrackedGoesOnce(config, index, l, front, front + rest);
      m := TrackedGoesOn(config, index + 1, TrackedStep(config, index, l, front[0]).log, front[1..], rest);
    }
  }

  /** The first disturbance decides how a tracked run is closed: the context, the wait or an interrupted request abort
      it, and a refused write, before the request or after it, leaves it unsaved. */
  lemma DisturbanceDecides(source: Source, front: seq<Answer>, a: Answer, rest: seq<Answer>, atEnd: bool)
    requires Runs(source) && TrackedResult(source, front, atEnd).Open?
    ensures var o, index := TrackedResult(source, front + ([a] + rest), atEnd), |front|;
      var early := a.cancelled || (index > 0 && a.waitFails);
      && (early ==> o == Aborts)
      && (!early && !a.begun ==> o == Unsaved)
      && (!early && a.begun && Cut(source.config, index, a) ==> o == Aborts)
      && (!early && a.begun && !Cut(source.config, index, a) && !a.recorded ==> o == Unsaved)
  {
    var m := TrackedGoesOn(source.config, 0, NoLog(), front, [a] + rest);
    StepIsDisturbed(source.config, |front|, m, a);
    DisturbedEnding(source.config, |front|, m, a, rest);
  }

  lemma DisturbedEnding(config: Config, index: nat, l: Log, a: Answer, rest: seq<Answer>)
    requires Allows(config, index)
    ensures var fate, ending := TrackedStep(config, index, l, a).fate, TrackedRun(config, index, l, [a] + rest).ending;
      (fate == Interrupts ==> ending == Interrupted) && (fate == StoreFails ==> ending == StoreFailed)
  {
    assert ([a] + rest)[0] == a;
  }

  lemma StepIsDisturbed(config: Config, index: nat, l: Log, a: Answer)
    ensures var fate := TrackedStep(config, index, l, a).fate;
      var early := a.cancelled || (index > 0 && a.waitFails);
      && (early ==> fate == Interrupts)
      && (!early && !a.begun ==> fate == StoreFails)
      && (!early && a.begun && Cut(config, index, a) ==> fate == Interrupts)
      && (!early && a.begun && !Cut(config, index, a) && !a.recorded ==> fate == StoreFails)
  {
  }

  /** A context that has ended by the time the loop is over aborts the run instead of closing it, and changes no
      other outcome. */
  lemma CancelledAtEnd(source: Source, answers: seq<Answer>)
    ensures var o, c := TrackedResult(source, answers, false), TrackedResult(source, answers, true);
      c == if o.Saved? || o.Fruitless? then Aborts else o
  {
  }
}
