/** What holds of every synchronisation, whatever the source and the store answer. */
module SyncRuns {
  import opened Text
  import opened Collections
  import opened Iteration
  import opened KeywordSync
  import opened TrackedSync

  // ----- first occurrences -----------------------------------------------------

  predicate DistinctNames(keywords: seq<Keyword>) {
    forall i, j :: 0 <= i < j < |keywords| ==> keywords[i].normalized != keywords[j].normalized
  }

  lemma {:induction false} FirstsAreNew(keywords: seq<Keyword>, seen: set<string>)
    ensures DistinctNames(Firsts(keywords, seen))
    ensures Names(Firsts(keywords, seen)) == Names(keywords) - seen
    ensures forall k :: k in Firsts(keywords, seen) ==> k in keywords
  {
    if keywords != [] {
      var front, last := keywords[..|keywords| - 1], keywords[|keywords| - 1];
      FirstsAreNew(front, seen);
      assert keywords == front + [last];
      FirstsSnoc(front, last, seen);
      NamesOfConcat(front, [last]);
      NamesOfConcat(Firsts(front, seen), [last]);
      NamesOfOne(last);
      forall k | k in Firsts(front, seen)
        ensures k.normalized in Names(front)
      {
      }
    }
  }

  lemma NamesOfConcat(a: seq<Keyword>, b: seq<Keyword>)
    ensures Names(a + b) == Names(a) + Names(b)
  {
  }

  lemma NamesOfOne(k: Keyword)
    ensures Names([k]) == {k.normalized}
  {
    assert k in [k];
  }

  predicate Splits(a: seq<Keyword>, b: seq<Keyword>, seen: set<string>) {
    Firsts(a + b, seen) == Firsts(a, seen) + Firsts(b, seen + Names(a))
  }

  lemma SplitsEmpty(a: seq<Keyword>, seen: set<string>)
    ensures Splits(a, [], seen)
  {
    assert a + [] == a;
  }

  lemma SplitsOneMore(a: seq<Keyword>, b: seq<Keyword>, last: Keyword, seen: set<string>)
    requires Splits(a, b, seen)
    ensures Splits(a, b + [last], seen)
  {
    assert last.normalized in seen + Names(a + b) <==> last.normalized in seen + Names(a) + Names(b) by {
      NamesOfConcat(a, b);
    }
    var more := if last.normalized in seen + Names(a + b) then [] else [last];
    assert Firsts(a + (b + [last]), seen) == Firsts(a + b, seen) + more by {
      assert a + (b + [last]) == a + b + [last];
      FirstsSnoc(a + b, last, seen);
    }
    assert Firsts(b + [last], seen + Names(a)) == Firsts(b, seen + Names(a)) + more by {
      FirstsSnoc(b, last, seen + Names(a));
    }
    Regroup(Firsts(a, seen), Firsts(b, seen + Names(a)), more);
  }

  /** Taking first occurrences chunk by chunk is taking them of the whole. */
  lemma {:induction false} FirstsConcat(a: seq<Keyword>, b: seq<Keyword>, seen: set<string>)
    ensures Firsts(a + b, seen) == Firsts(a, seen) + Firsts(b, seen + Names(a))
  {
    SplitsUpTo(a, b, |b|, seen);
    assert b[..|b|] == b;
  }

  lemma {:induction false} SplitsUpTo(a: seq<Keyword>, b: seq<Keyword>, n: nat, seen: set<string>)
    requires n <= |b|
    ensures Splits(a, b[..n], seen)
  {
    if n == 0 {
      SplitsEmpty(a, seen);
    } else {
      SplitsUpTo(a, b, n - 1, seen);
      SplitsOneMore(a, b[..n - 1], b[n - 1], seen);
      assert b[..n] == b[..n - 1] + [b[n - 1]];
    }
  }

  lemma ValuesOfConcat(a: seq<Keyword>, b: seq<Keyword>)
    ensures ValuesOf(a + b) == ValuesOf(a) + ValuesOf(b)
  {
  }

  lemma {:induction false} DistinctNamesCount(keywords: seq<Keyword>)
    requires DistinctNames(keywords)
    ensures |Names(keywords)| == |keywords|
  {
    if keywords != [] {
      var front, last := keywords[..|keywords| - 1], keywords[|keywords| - 1];
      assert keywords == front + [last];
      DistinctNamesCount(front);
      NamesOfConcat(front, [last]);
      NamesOfOne(last);
    }
  }

  // ----- what one turn does ------------------------------------------------------

  /** Requests are successes and failures; every value has a name of its own. */
  predicate Sound(t: Tally) {
    && t.requests == t.successes + t.failures
    && (t.successes == 0 && t.requests > 0 ==> t.errors != [])
  }

  /** The keywords a turn takes in. */
  function TakenIn(config: Config, index: nat, a: Answer): seq<Keyword> {
    if a.cancelled || (index > 0 && a.waitFails) || !Derives(config, index, a.reply) || !a.reply.Extracted? then []
    else a.reply.keywords
  }

  /** From one tally to the next so many keywords were taken in; kept unless the check failed. */
  predicate Collected(before: Tally, after: Tally, taken: seq<Keyword>, kept: bool) {
    && after.seen == before.seen + Names(taken)
    && (kept ==> after.values == before.values + ValuesOf(Firsts(taken, before.seen)))
  }

  lemma CollectedNothing(t: Tally, after: Tally)
    requires after.seen == t.seen && after.values == t.values
    ensures Collected(t, after, [], true)
  {
    assert t.seen + Names([]) == t.seen;
    assert t.values + ValuesOf(Firsts([], t.seen)) == t.values;
  }

  lemma CollectedThen(a: Tally, b: Tally, c: Tally, now: seq<Keyword>, later: seq<Keyword>, kept: bool)
    requires Collected(a, b, now, true) && Collected(b, c, later, kept)
    ensures Collected(a, c, now + later, kept)
  {
    NamesOfConcat(now, later);
    assert a.seen + Names(now) + Names(later) == a.seen + (Names(now) + Names(later));
    if kept {
      var first, second := Firsts(now, a.seen), Firsts(later, b.seen);
      assert Firsts(now + later, a.seen) == first + second by {
        FirstsConcat(now, later, a.seen);
      }
      ValuesOfConcat(first, second);
      Regroup(a.values, ValuesOf(first), ValuesOf(second));
    }
  }

  lemma TurnTakesIn(config: Config, index: nat, t: Tally, a: Answer)
    ensures Collected(t, PlainTurn(config, index, t, a).tally, TakenIn(config, index, a),
        PlainTurn(config, index, t, a).fate != CheckFails)
  {
    if TakenIn(config, index, a) == [] {
      CollectedNothing(t, t);
    }
  }

  lemma TurnCounts(config: Config, index: nat, t: Tally, a: Answer)
    requires Sound(t)
    ensures PlainTurn(config, index, t, a).tally.requests == t.requests + 1
    ensures var after := PlainTurn(config, index, t, a).tally;
            t.requests + 1 == after.successes + after.failures
    ensures PlainTurn(config, index, t, a).fate != CheckFails ==> Sound(PlainTurn(config, index, t, a).tally)
  {
  }

  // ----- whole runs: counts and values ---------------------------------------------

  /** How many answers the run uses. */
  function Turns(config: Config, index: nat, t: Tally, answers: seq<Answer>): nat
    decreases answers
  {
    if !Allows(config, index) || answers == [] then 0
    else
      var turn := PlainTurn(config, index, t, answers[0]);
      1 + if turn.fate == Goes then Turns(config, index + 1, turn.tally, answers[1..]) else 0
  }

  lemma {:induction false} RequestsAreTurns(config: Config, index: nat, t: Tally, answers: seq<Answer>)
    requires Sound(t)
    ensures var end := PlainRun(config, index, t, answers).tally;
      && end.requests == end.successes + end.failures
      && end.requests == t.requests + Turns(config, index, t, answers)
    ensures PlainRun(config, index, t, answers).ending == Finished ==> Sound(PlainRun(config, index, t, answers).tally)
    ensures PlainRun(config, index, t, answers).ending == Unfinished ==> Turns(config, index, t, answers) == |answers|
    decreases answers
  {
    if Allows(config, index) && answers != [] {
      TurnCounts(config, index, t, answers[0]);
      var turn := PlainTurn(config, index, t, answers[0]);
      if turn.fate == Goes {
        RequestsAreTurns(config, index + 1, turn.tally, answers[1..]);
      }
    }
  }

  /** Everything the run takes in, in order. */
  function RunStream(config: Config, index: nat, t: Tally, answers: seq<Answer>): seq<Keyword>
    decreases answers
  {
    if !Allows(config, index) || answers == [] then []
    else
      var turn := PlainTurn(config, index, t, answers[0]);
      TakenIn(config, index, answers[0]) +
      if turn.fate == Goes then RunStream(config, index + 1, turn.tally, answers[1..]) else []
  }

  lemma RunGoesOn(config: Config, index: nat, t: Tally, answers: seq<Answer>, next: Tally)
    requires Allows(config, index) && answers != []
    requires PlainTurn(config, index, t, answers[0]) == Turn(next, Goes)
    ensures PlainRun(config, index, t, answers) == PlainRun(config, index + 1, next, answers[1..])
    ensures RunStream(config, index, t, answers) ==
            TakenIn(config, index, answers[0]) + RunStream(config, index + 1, next, answers[1..])
  {
  }

  lemma RunStopsHere(config: Config, index: nat, t: Tally, answers: seq<Answer>)
    requires Allows(config, index) && answers != []
    requires PlainTurn(config, index, t, answers[0]).fate != Goes
    ensures var turn := PlainTurn(config, index, t, answers[0]);
      PlainRun(config, index, t, answers) == End(turn.tally, if turn.fate == Stops then Finished else CheckFailed)
    ensures RunStream(config, index, t, answers) == TakenIn(config, index, answers[0])
  {
  }

  predicate RunCollected(config: Config, index: nat, t: Tally, answers: seq<Answer>) {
    var end := PlainRun(config, index, t, answers);
    Collected(t, end.tally, RunStream(config, index, t, answers), end.ending != CheckFailed)
  }

  /** The run takes another turn after this one. */
  predicate GoesOn(config: Config, index: nat, t: Tally, answers: seq<Answer>) {
    Allows(config, index) && answers != [] && PlainTurn(config, index, t, answers[0]).fate == Goes
  }

  lemma RunCollectsTurn(config: Config, index: nat, t: Tally, answers: seq<Answer>)
    requires GoesOn(config, index, t, answers) ==>
      RunCollected(config, index + 1, PlainTurn(config, index, t, answers[0]).tally, answers[1..])
    ensures RunCollected(config, index, t, answers)
  {
    if GoesOn(config, index, t, answers) {
      TurnTakesIn(config, index, t, answers[0]);
      var next := PlainTurn(config, index, t, answers[0]).tally;
      RunGoesOn(config, index, t, answers, next);
      var rest := PlainRun(config, index + 1, next, answers[1..]);
      CollectedThen(t, next, rest.tally, TakenIn(config, index, answers[0]),
                    RunStream(config, index + 1, next, answers[1..]), rest.ending != CheckFailed);
    } else if Allows(config, index) && answers != [] {
      TurnTakesIn(config, index, t, answers[0]);
      RunStopsHere(config, index, t, answers);
    } else {
      CollectedNothing(t, t);
    }
  }

  lemma {:induction false} RunCollects(config: Config, index: nat, t: Tally, answers: seq<Answer>)
    ensures RunCollected(config, index, t, answers)
    decreases answers
  {
    if GoesOn(config, index, t, answers) {
      RunCollects(config, index + 1, PlainTurn(config, index, t, answers[0]).tally, answers[1..]);
    }
    RunCollectsTurn(config, index, t, answers);
  }

  /** A synchronisation stores the first occurrences of all keywords it took in, one for each name,
      and its requests are its successes and failures. */
  lemma SyncedValues(source: Source, answers: seq<Answer>)
    requires PlainOutcome(source, answers).Synced?
    ensures var o := PlainOutcome(source, answers);
            var stream := RunStream(source.config, 0, NoTally(), answers);
      && o.values == ValuesOf(Firsts(stream, {}))
      && DistinctNames(Firsts(stream, {}))
      && Names(Firsts(stream, {})) == Names(stream)
      && o.requests == o.successes + o.failures
      && o.requests == Turns(source.config, 0, NoTally(), answers)
      && (o.partially <==> o.failures > 0)
  {
    RunCollects(source.config, 0, NoTally(), answers);
    var found := ValuesOf(Firsts(RunStream(source.config, 0, NoTally(), answers), {}));
    assert [] + found == found;
    RequestsAreTurns(source.config, 0, NoTally(), answers);
    FirstsAreNew(RunStream(source.config, 0, NoTally(), answers), {});
  }

  /** A run without success always has an error to report. */
  lemma AllFailedHasErrors(source: Source, answers: seq<Answer>)
    requires PlainOutcome(source, answers).AllFailed?
    ensures PlainOutcome(source, answers).errors != []
    ensures PlainOutcome(source, answers).requests == PlainOutcome(source, answers).failures > 0
  {
    var config := source.config;
    RequestsAreTurns(config, 0, NoTally(), answers);
    assert Allows(config, 0);
  }

  // ----- strict mode ends -------------------------------------------------------------

  lemma ProgressAddsName(config: Config, keywords: seq<Keyword>, seen: set<string>, existing: Option<set<string>>)
    requires Strict(config) && Progress(config, keywords, seen, existing) == Some(true)
    ensures |seen + Names(keywords)| >= |seen| + 1
  {
    FirstsAreNew(keywords, seen);
    var k := Firsts(keywords, seen)[0];
    assert k.normalized in Names(Firsts(keywords, seen));
    SubsetSize(seen + {k.normalized}, seen + Names(keywords));
  }

  /** While it goes on, a strict run has paid for its requests with new names. */
  predicate Paid(config: Config, t: Tally) {
    t.requests <= |t.seen| * config.stopCount + t.streak
  }

  lemma Scales(a: nat, b: nat, stop: nat)
    requires a <= b
    ensures a * stop <= b * stop
    ensures a < b ==> a * stop + stop <= b * stop
  {
    assert b * stop == a * stop + (b - a) * stop;
    if a < b {
      assert (b - a) * stop == stop + (b - a - 1) * stop;
    }
  }

  /** Either the streak grows by one or a new name came in, unless the turn is the last. */
  predicate Advances(config: Config, t: Tally, turn: Turn) {
    && turn.tally.requests == t.requests + 1
    && |turn.tally.seen| >= |t.seen|
    && (turn.fate == Goes ==>
          && turn.tally.streak < config.stopCount
          && (|turn.tally.seen| >= |t.seen| + 1 || turn.tally.streak == t.streak + 1))
  }

  lemma MissAdvances(config: Config, index: nat, t: Tally, cause: Cause)
    requires Strict(config)
    ensures Advances(config, t, Judged(config, Missed(t, index, cause)))
  {
  }

  lemma GainAdvances(config: Config, t: Tally, keywords: seq<Keyword>, existing: Option<set<string>>, progress: bool)
    requires Strict(config) && Progress(config, keywords, t.seen, existing) == Some(progress)
    ensures Advances(config, t, Judged(config, Gained(t, keywords, progress)))
  {
    SubsetSize(t.seen, t.seen + Names(keywords));
    if progress {
      ProgressAddsName(config, keywords, t.seen, existing);
    }
  }

  lemma StrictTurnAdvances(config: Config, index: nat, t: Tally, a: Answer)
    requires Strict(config)
    ensures Advances(config, t, PlainTurn(config, index, t, a))
  {
    if a.cancelled || (index > 0 && a.waitFails) {
    } else if !Derives(config, index, a.reply) {
      MissAdvances(config, index, t, NotDerived);
    } else if a.reply.NoResponse? {
      MissAdvances(config, index, t, NotExecuted);
    } else if a.reply.NoValues? {
      MissAdvances(config, index, t, NotExtracted);
    } else {
      var progress := Progress(config, a.reply.keywords, t.seen, a.reply.existing);
      if progress.Some? {
        GainAdvances(config, t, a.reply.keywords, a.reply.existing, progress.value);
      } else {
        SubsetSize(t.seen, t.seen + Names(a.reply.keywords));
      }
    }
  }

  /** The run has not made more requests than new names and a last streak allow. */
  predicate Solvent(config: Config, end: End) {
    && end.tally.requests <= |end.tally.seen| * config.stopCount + config.stopCount
    && (end.ending == Unfinished ==> end.tally.requests < |end.tally.seen| * config.stopCount + config.stopCount)
  }

  lemma StrictTurnPays(config: Config, index: nat, t: Tally, a: Answer)
    requires Strict(config) && Paid(config, t) && t.streak < config.stopCount
    ensures var turn := PlainTurn(config, index, t, a);
      && turn.tally.requests <= |turn.tally.seen| * config.stopCount + config.stopCount
      && (turn.fate == Goes ==> Paid(config, turn.tally) && turn.tally.streak < config.stopCount)
  {
    StrictTurnAdvances(config, index, t, a);
    Scales(|t.seen|, |PlainTurn(config, index, t, a).tally.seen|, config.stopCount);
  }

  lemma {:induction false} StrictRunPays(config: Config, index: nat, t: Tally, answers: seq<Answer>)
    requires Strict(config) && Paid(config, t) && t.streak < config.stopCount
    ensures Solvent(config, PlainRun(config, index, t, answers))
    decreases answers
  {
    if Allows(config, index) && answers != [] {
      StrictTurnPays(config, index, t, answers[0]);
      var turn := PlainTurn(config, index, t, answers[0]);
      if turn.fate == Goes {
        RunGoesOn(config, index, t, answers, turn.tally);
        StrictRunPays(config, index + 1, turn.tally, answers[1..]);
      } else {
        RunStopsHere(config, index, t, answers);
      }
    }
  }

  lemma StrictRunFromStart(config: Config, answers: seq<Answer>)
    requires Strict(config)
    ensures var paid := |Names(RunStream(config, 0, NoTally(), answers))| * config.stopCount;
      && Turns(config, 0, NoTally(), answers) <= paid + config.stopCount
      && (PlainRun(config, 0, NoTally(), answers).ending == Unfinished ==> |answers| < paid + config.stopCount)
  {
    var t := NoTally();
    StrictRunPays(config, 0, t, answers);
    RequestsAreTurns(config, 0, t, answers);
    RunCollects(config, 0, t, answers);
    var names := Names(RunStream(config, 0, t, answers));
    assert t.seen + names == names;
  }

  /** A strict run makes at most (D + 1) * S requests, where D is the number of
      distinct names it took in and S its stop count, even if it is unlimited. */
  lemma StrictRunIsBounded(config: Config, answers: seq<Answer>)
    requires Strict(config)
    ensures var names := Names(RunStream(config, 0, NoTally(), answers));
      PlainRun(config, 0, NoTally(), answers).tally.requests <= (|names| + 1) * config.stopCount
  {
    StrictRunFromStart(config, answers);
    RequestsAreTurns(config, 0, NoTally(), answers);
    var names := Names(RunStream(config, 0, NoTally(), answers));
    Scales(|names|, |names| + 1, config.stopCount);
  }

  /** So whatever a source with a finite vocabulary answers, the run is over after that many answers. */
  lemma StrictRunEnds(config: Config, answers: seq<Answer>, vocabulary: set<string>)
    requires Strict(config)
    requires Names(RunStream(config, 0, NoTally(), answers)) <= vocabulary
    requires |answers| >= (|vocabulary| + 1) * config.stopCount
    ensures PlainRun(config, 0, NoTally(), answers).ending != Unfinished
  {
    StrictRunFromStart(config, answers);
    var names := Names(RunStream(config, 0, NoTally(), answers));
    SubsetSize(names, vocabulary);
    Scales(|names|, |vocabulary| + 1, config.stopCount);
  }

  // ----- which runs can go on for ever ---------------------------------------------------

  /** The source knows no other names than these. */
  predicate Over(answers: seq<Answer>, vocabulary: set<string>) {
    forall i :: 0 <= i < |answers| && answers[i].reply.Extracted? ==> Names(answers[i].reply.keywords) <= vocabulary
  }

  /** Some answers from this vocabulary leave the run unfinished after n turns. */
  ghost predicate CanLast(config: Config, vocabulary: set<string>, n: nat) {
    exists answers ::
      |answers| == n && Over(answers, vocabulary) && PlainRun(config, 0, NoTally(), answers).ending == Unfinished
  }

  function SameAgain(name: string): Answer {
    Answer(false, false, true, Extracted([Keyword(name, name)], 1, None), true)
  }

  /** A run without limit, in normal mode, whose value does not change, makes progress with every keyword. */
  lemma SameAnswerGoesOn(config: Config, index: nat, t: Tally, name: string)
    requires config.enabled && config.unlimited && !Strict(config) && config.step == 0 && config.stopCount >= 1
    ensures PlainTurn(config, index, t, SameAgain(name)).fate == Goes
  {
    assert Representable(config.start, config.step, index);
  }

  lemma {:induction false} SameAnswersGoOn(config: Config, index: nat, t: Tally, name: string, answers: seq<Answer>)
    requires config.enabled && config.unlimited && !Strict(config) && config.step == 0 && config.stopCount >= 1
    requires forall i :: 0 <= i < |answers| ==> answers[i] == SameAgain(name)
    ensures PlainRun(config, index, t, answers).ending == Unfinished
    decreases answers
  {
    if answers != [] {
      SameAnswerGoesOn(config, index, t, name);
      SameAnswersGoOn(config, index + 1, PlainTurn(config, index, t, answers[0]).tally, name, answers[1..]);
    }
  }

  lemma LastsWithEqualAnswers(config: Config, vocabulary: set<string>, name: string, n: nat)
    requires config.enabled && config.unlimited && !Strict(config) && config.step == 0 && config.stopCount >= 1
    requires name in vocabulary
    ensures CanLast(config, vocabulary, n)
  {
    var answers := seq(n, i requires 0 <= i < n => SameAgain(name));
    NamesOfOne(Keyword(name, name));
    SameAnswersGoOn(config, 0, NoTally(), name, answers);
  }

  /** An unfinished run is allowed its next index. */
  lemma {:induction false} UnfinishedIsAllowed(config: Config, index: nat, t: Tally, answers: seq<Answer>)
    requires PlainRun(config, index, t, answers).ending == Unfinished
    ensures Allows(config, index + |answers|)
    decreases answers
  {
    if answers != [] {
      UnfinishedIsAllowed(config, index + 1, PlainTurn(config, index, t, answers[0]).tally, answers[1..]);
    }
  }

  lemma {:induction false} StreamIsOver(config: Config, index: nat, t: Tally, answers: seq<Answer>,
      vocabulary: set<string>)
    requires Over(answers, vocabulary)
    ensures Names(RunStream(config, index, t, answers)) <= vocabulary
    decreases answers
  {
    if Allows(config, index) && answers != [] {
      var turn := PlainTurn(config, index, t, answers[0]);
      var later := if turn.fate == Goes then RunStream(config, index + 1, turn.tally, answers[1..]) else [];
      NamesOfConcat(TakenIn(config, index, answers[0]), later);
      if turn.fate == Goes {
        StreamIsOver(config, index + 1, turn.tally, answers[1..], vocabulary);
      }
    }
  }

  /** From here on no value of a sequence that moves is representable. */
  const FAR: nat := 0x1_0000_0000_0000_0000

  lemma FarIsOut(config: Config, index: nat)
    requires config.step != 0 && index >= FAR
    ensures ValueOf(config, index).None?
  {
    var step := config.step as int;
    if step > 0 {
      Grows(index, step);
      assert step * index == index * step;
    } else {
      Grows(index, -step);
      assert step * index == -(index * (-step));
    }
  }

  /** A turn whose value cannot be represented misses, or ends the run. */
  lemma FarTurnMisses(config: Config, index: nat, t: Tally, a: Answer)
    requires config.step != 0 && index >= FAR && config.stopCount >= 1
    requires PlainTurn(config, index, t, a).fate == Goes
    ensures PlainTurn(config, index, t, a).tally.streak == t.streak + 1 < config.stopCount
  {
    FarIsOut(config, index);
  }

  lemma {:induction false} FarRunEnds(config: Config, index: nat, t: Tally, answers: seq<Answer>)
    requires config.step != 0 && index >= FAR && config.stopCount >= 1
    requires PlainRun(config, index, t, answers).ending == Unfinished
    ensures answers != [] ==> t.streak + |answers| < config.stopCount
    decreases answers
  {
    if answers != [] {
      FarTurnMisses(config, index, t, answers[0]);
      FarRunEnds(config, index + 1, PlainTurn(config, index, t, answers[0]).tally, answers[1..]);
    }
  }

  /** An unfinished run is unfinished from each of its turns on. */
  lemma {:induction false} UnfinishedFrom(config: Config, index: nat, t: Tally, answers: seq<Answer>, k: nat)
      returns (u: Tally)
    requires k <= |answers| && PlainRun(config, index, t, answers).ending == Unfinished
    ensures PlainRun(config, index + k, u, answers[k..]).ending == Unfinished
    decreases answers
  {
    if k == 0 {
      u := t;
      assert answers[0..] == answers;
    } else {
      u := UnfinishedFrom(config, index + 1, PlainTurn(config, index, t, answers[0]).tally, answers[1..], k - 1);
      assert answers[1..][k - 1..] == answers[k..];
    }
  }

  lemma MovingRunsEnd(config: Config, vocabulary: set<string>)
    requires config.step != 0 && config.stopCount >= 1
    ensures !CanLast(config, vocabulary, FAR + config.stopCount)
  {
    if CanLast(config, vocabulary, FAR + config.stopCount) {
      var answers :| |answers| == FAR + config.stopCount && Over(answers, vocabulary)
        && PlainRun(config, 0, NoTally(), answers).ending == Unfinished;
      var u := UnfinishedFrom(config, 0, NoTally(), answers, FAR);
      FarRunEnds(config, FAR, u, answers[FAR..]);
    }
  }

  lemma StrictRunsEnd(config: Config, vocabulary: set<string>)
    requires Strict(config)
    ensures !CanLast(config, vocabulary, (|vocabulary| + 1) * config.stopCount)
  {
    var n := (|vocabulary| + 1) * config.stopCount;
    if CanLast(config, vocabulary, n) {
      var answers :| |answers| == n && Over(answers, vocabulary)
        && PlainRun(config, 0, NoTally(), answers).ending == Unfinished;
      StreamIsOver(config, 0, NoTally(), answers, vocabulary);
      StrictRunEnds(config, answers, vocabulary);
    }
  }

  lemma LimitedRunsEnd(config: Config, vocabulary: set<string>, n: nat)
    requires !Allows(config, n)
    ensures !CanLast(config, vocabulary, n)
  {
    if CanLast(config, vocabulary, n) {
      var answers :| |answers| == n && Over(answers, vocabulary)
        && PlainRun(config, 0, NoTally(), answers).ending == Unfinished;
      UnfinishedIsAllowed(config, 0, NoTally(), answers);
    }
  }

  ghost predicate LastsForEver(config: Config, vocabulary: set<string>) {
    forall n: nat :: CanLast(config, vocabulary, n)
  }

  /** A source with a finite vocabulary can keep an accepted run going for any number of turns exactly if the
      run is unlimited, not strict, and always asks for the same value. */
  lemma LastsForEverExactly(config: Config, targetFits: bool, vocabulary: set<string>, name: string)
    requires Accepted(config, targetFits) && name in vocabulary
    ensures LastsForEver(config, vocabulary)
       <==> config.enabled && config.unlimited && !Strict(config) && config.step == 0
  {
    if !config.enabled || !config.unlimited {
      var n: nat := if config.enabled then config.count else 1;
      LimitedRunsEnd(config, vocabulary, n);
      assert !CanLast(config, vocabulary, n);
    } else if Strict(config) {
      StrictRunsEnd(config, vocabulary);
      assert !CanLast(config, vocabulary, (|vocabulary| + 1) * config.stopCount);
    } else if config.step != 0 {
      MovingRunsEnd(config, vocabulary);
      assert !CanLast(config, vocabulary, FAR + config.stopCount);
    } else {
      forall n: nat
        ensures CanLast(config, vocabulary, n)
      {
        LastsWithEqualAnswers(config, vocabulary, name, n);
      }
    }
  }

  // ----- the tracked loop refines the plain one ---------------------------------------------

  /** Nothing is cancelled and the store takes every write. */
  predicate Undisturbed(a: Answer) {
    && !a.cancelled
    && !a.waitFails
    && a.begun
    && a.recorded
    && (a.reply.NoResponse? ==> !a.reply.interrupted)
  }

  function Matching(fate: Fate): TrackedFate {
    match fate
    case Goes => Onward
    case Stops => Halts
    case CheckFails => ChecksFail
  }

  lemma TurnsMatch(config: Config, index: nat, l: Log, a: Answer)
    requires Undisturbed(a)
    ensures TrackedStep(config, index, l, a).log.tally == PlainTurn(config, index, l.tally, a).tally
    ensures TrackedStep(config, index, l, a).fate == Matching(PlainTurn(config, index, l.tally, a).fate)
  {
  }

  function MatchingEnd(ending: Ending): TrackedEnding {
    match ending
    case Unfinished => InProgress
    case Finished => Ended
    case CheckFailed => FailedCheck
  }

  lemma {:induction false} RunsMatch(config: Config, index: nat, l: Log, answers: seq<Answer>)
    requires forall i :: 0 <= i < |answers| ==> Undisturbed(answers[i])
    ensures TrackedRun(config, index, l, answers).log.tally == PlainRun(config, index, l.tally, answers).tally
    ensures TrackedRun(config, index, l, answers).ending ==
            MatchingEnd(PlainRun(config, index, l.tally, answers).ending)
    decreases answers
  {
    if Allows(config, index) && answers != [] {
      TurnsMatch(config, index, l, answers[0]);
      var turn := TrackedStep(config, index, l, answers[0]);
      if turn.fate == Onward {
        RunsMatch(config, index + 1, turn.log, answers[1..]);
      }
    }
  }

  /** What the closing call of a tracked run says, without the details only it has. */
  function AsPlain(o: TrackedOutcome): Outcome
    requires !o.Aborts? && !o.Unsaved?
  {
    match o
    case Refused => Rejected
    case Open => Running
    case Wrong(requests, failures) => CheckError(requests, failures)
    case Fruitless(errors, requests, failures) => AllFailed(errors, requests, failures)
    case Saved(synced, _, _, _) => synced
  }

  /** On every undisturbed run both loops close with the same outcome, values, errors and counts. */
  lemma TrackedRefinesPlain(source: Source, answers: seq<Answer>)
    requires forall i :: 0 <= i < |answers| ==> Undisturbed(answers[i])
    ensures var o := TrackedResult(source, answers, false);
      !o.Aborts? && !o.Unsaved? && AsPlain(o) == PlainOutcome(source, answers)
  {
    RunsMatch(source.config, 0, NoLog(), answers);
  }

  // ----- where each value came from -----------------------------------------------------------

  function Occurrences(s: seq<nat>, n: nat): nat {
    if s == [] then 0 else Occurrences(s[..|s| - 1], n) + if s[|s| - 1] == n then 1 else 0
  }

  lemma {:induction false} OccurrencesRepeated(s: seq<nat>, sequence: nat, times: nat, n: nat)
    ensures Occurrences(s + Repeated(sequence, times), n) == Occurrences(s, n) + if sequence == n then times else 0
  {
    if times == 0 {
      assert s + Repeated(sequence, 0) == s;
    } else {
      RepeatedSnoc(sequence, times - 1);
      var all := s + Repeated(sequence, times);
      assert all[..|all| - 1] == s + Repeated(sequence, times - 1);
      OccurrencesRepeated(s, sequence, times - 1, n);
    }
  }

  predicate Ascending(s: seq<nat>) {
    forall i, j :: 0 <= i < j < |s| ==> s[i] <= s[j]
  }

  function RawTotal(records: seq<Record>): nat {
    if records == [] then 0 else RawTotal(records[..|records| - 1]) + records[|records| - 1].raw
  }

  function Succeeded(records: seq<Record>): nat {
    if records == [] then 0 else Succeeded(records[..|records| - 1]) + if records[|records| - 1].ok then 1 else 0
  }

  /** The records number the turns, each says how many values its turn added, and their totals are the run's. */
  ghost predicate Traced(l: Log, turns: nat) {
    && |l.records| == turns
    && |l.sequences| == |l.tally.values|
    && Ascending(l.sequences)
    && (forall i :: 0 <= i < |l.sequences| ==> 1 <= l.sequences[i] <= turns)
    && (forall i :: 0 <= i < turns ==> l.records[i].sequence == i + 1)
    && (forall i :: 0 <= i < turns ==> l.records[i].crossNew == Occurrences(l.sequences, i + 1))
    && l.raw == RawTotal(l.records)
    && l.tally.requests == turns
    && l.tally.successes == Succeeded(l.records)
  }

  lemma RecordsSnoc(records: seq<Record>, r: Record)
    ensures RawTotal(records + [r]) == RawTotal(records) + r.raw
    ensures Succeeded(records + [r]) == Succeeded(records) + if r.ok then 1 else 0
  {
    assert (records + [r])[..|records|] == records;
  }

  lemma {:induction false} NoOccurrence(s: seq<nat>, n: nat)
    requires forall i :: 0 <= i < |s| ==> s[i] < n
    ensures Occurrences(s, n) == 0
  {
    if s != [] {
      NoOccurrence(s[..|s| - 1], n);
    }
  }

  lemma SequencesExtend(l: Log, after: Log, index: nat, record: Record)
    requires Traced(l, index) && Extends(l, after, index, record)
    ensures Ascending(after.sequences) && |after.sequences| == |after.tally.values|
    ensures forall i :: 0 <= i < |after.sequences| ==> 1 <= after.sequences[i] <= index + 1
  {
  }

  lemma RecordCounts(l: Log, after: Log, index: nat, record: Record, i: nat)
    requires Traced(l, index) && Extends(l, after, index, record) && i < index + 1
    ensures after.records[i].sequence == i + 1
    ensures after.records[i].crossNew == Occurrences(after.sequences, i + 1)
  {
    OccurrencesRepeated(l.sequences, index + 1, record.crossNew, i + 1);
    if i < index {
      assert after.records[i] == l.records[i];
    } else {
      NoOccurrence(l.sequences, index + 1);
    }
  }

  /** A turn that adds some values and writes its record keeps the trace. */
  lemma TracedTurn(l: Log, after: Log, index: nat, record: Record)
    requires Traced(l, index) && Extends(l, after, index, record)
    ensures Traced(after, index + 1)
  {
    RecordsSnoc(l.records, record);
    SequencesExtend(l, after, index, record);
    forall i | 0 <= i < index + 1
      ensures after.records[i].sequence == i + 1 && after.records[i].crossNew == Occurrences(after.sequences, i + 1)
    {
      RecordCounts(l, after, index, record, i);
    }
  }

  predicate WritesRecord(fate: TrackedFate) {
    fate == Onward || fate == Halts || fate == ChecksFail
  }

  /** What a turn that writes its record does to the log. */
  predicate Extends(l: Log, after: Log, index: nat, record: Record) {
    && after.records == l.records + [record]
    && after.sequences == l.sequences + Repeated(index + 1, record.crossNew)
    && |after.tally.values| == |l.tally.values| + record.crossNew
    && after.raw == l.raw + record.raw
    && record.sequence == index + 1
    && after.tally.requests == l.tally.requests + 1
    && after.tally.successes == l.tally.successes + if record.ok then 1 else 0
  }

  lemma NothingAdded(l: Log, after: Log, index: nat)
    requires after.sequences == l.sequences && after.tally.values == l.tally.values && after.raw == l.raw
    requires after.records == l.records + [Record(index + 1, false, 0, 0, 0)]
    requires after.tally.requests == l.tally.requests + 1 && after.tally.successes == l.tally.successes
    ensures Extends(l, after, index, Record(index + 1, false, 0, 0, 0))
  {
    assert l.sequences + Repeated(index + 1, 0) == l.sequences;
  }

  lemma GainExtends(config: Config, index: nat, l: Log, keywords: seq<Keyword>, raw: nat, progress: bool, a: Answer)
    requires a.recorded
    ensures Extends(l, RecordedGain(config, index, l, keywords, raw, progress, a).log, index,
                    Record(index + 1, true, raw, |keywords|, |Firsts(keywords, l.tally.seen)|))
  {
  }

  lemma StepExtends(config: Config, index: nat, l: Log, a: Answer) returns (record: Record)
    requires WritesRecord(TrackedStep(config, index, l, a).fate)
    ensures Extends(l, TrackedStep(config, index, l, a).log, index, record)
  {
    var reply := a.reply;
    var progress := if reply.Extracted? then Progress(config, reply.keywords, l.tally.seen, reply.existing) else None;
    if Derives(config, index, reply) && progress.Some? {
      record := Record(index + 1, true, reply.raw, |reply.keywords|, |Firsts(reply.keywords, l.tally.seen)|);
      GainExtends(config, index, l, reply.keywords, reply.raw, progress.value, a);
    } else {
      record := Record(index + 1, false, 0, 0, 0);
      NothingAdded(l, TrackedStep(config, index, l, a).log, index);
    }
  }

  lemma StepTraced(config: Config, index: nat, l: Log, a: Answer)
    requires Traced(l, index) && WritesRecord(TrackedStep(config, index, l, a).fate)
    ensures Traced(TrackedStep(config, index, l, a).log, index + 1)
  {
    var record := StepExtends(config, index, l, a);
    TracedTurn(l, TrackedStep(config, index, l, a).log, index, record);
  }

  lemma {:induction false} RunTraced(config: Config, index: nat, l: Log, answers: seq<Answer>)
    requires Traced(l, index) && TrackedRun(config, index, l, answers).ending == Ended
    ensures var end := TrackedRun(config, index, l, answers).log;
      Traced(end, end.tally.requests)
    decreases answers
  {
    if Allows(config, index) && answers != [] {
      StepTraced(config, index, l, answers[0]);
      var turn := TrackedStep(config, index, l, answers[0]);
      if turn.fate == Onward {
        RunTraced(config, index + 1, turn.log, answers[1..]);
      }
    }
  }

  // ----- each value stands in the answer it is attributed to --------------------------------------

  ghost predicate Attributed(config: Config, l: Log, answers: seq<Answer>) {
    && |l.sequences| == |l.tally.values|
    && forall i :: 0 <= i < |l.sequences| ==> Brought(config, l.sequences[i], l.tally.values[i], answers)
  }

  /** The answer of that iteration, the first being number one, holds the value. */
  predicate Brought(config: Config, sequence: nat, value: string, answers: seq<Answer>) {
    1 <= sequence <= |answers| && value in ValuesOf(TakenIn(config, sequence - 1, answers[sequence - 1]))
  }

  lemma FirstsStandInSource(keywords: seq<Keyword>, seen: set<string>)
    ensures forall v :: v in ValuesOf(Firsts(keywords, seen)) ==> v in ValuesOf(keywords)
  {
    FirstsAreNew(keywords, seen);
    forall v | v in ValuesOf(Firsts(keywords, seen))
      ensures v in ValuesOf(keywords)
    {
      var i :| 0 <= i < |Firsts(keywords, seen)| && ValuesOf(Firsts(keywords, seen))[i] == v;
      assert Firsts(keywords, seen)[i] in keywords;
      var k :| 0 <= k < |keywords| && keywords[k] == Firsts(keywords, seen)[i];
      assert ValuesOf(keywords)[k] == v;
    }
  }

  lemma FoundIsAttributed(config: Config, l: Log, after: Log, answers: seq<Answer>, index: nat, found: seq<Keyword>)
    requires Attributed(config, l, answers) && index < |answers|
    requires after.sequences == l.sequences + Repeated(index + 1, |found|)
    requires after.tally.values == l.tally.values + ValuesOf(found)
    requires forall v :: v in ValuesOf(found) ==> v in ValuesOf(TakenIn(config, index, answers[index]))
    ensures Attributed(config, after, answers)
  {
    forall i | 0 <= i < |after.sequences|
      ensures Brought(config, after.sequences[i], after.tally.values[i], answers)
    {
      if i >= |l.sequences| {
        assert after.tally.values[i] == ValuesOf(found)[i - |l.sequences|];
      }
    }
  }

  lemma StepAttributed(config: Config, l: Log, answers: seq<Answer>, index: nat)
    requires Attributed(config, l, answers) && index < |answers|
    requires WritesRecord(TrackedStep(config, index, l, answers[index]).fate)
    ensures Attributed(config, TrackedStep(config, index, l, answers[index]).log, answers)
  {
    var a := answers[index];
    var after := TrackedStep(config, index, l, a).log;
    if after.tally.successes > l.tally.successes {
      FirstsStandInSource(a.reply.keywords, l.tally.seen);
      FoundIsAttributed(config, l, after, answers, index, Firsts(a.reply.keywords, l.tally.seen));
    }
  }

  lemma {:induction false} RunAttributed(config: Config, l: Log, answers: seq<Answer>, index: nat)
    requires index <= |answers| && Attributed(config, l, answers)
    requires TrackedRun(config, index, l, answers[index..]).ending == Ended
    ensures Attributed(config, TrackedRun(config, index, l, answers[index..]).log, answers)
    decreases |answers| - index
  {
    if Allows(config, index) && index < |answers| {
      StepAttributed(config, l, answers, index);
      var turn := TrackedStep(config, index, l, answers[index]);
      assert answers[index..][1..] == answers[index + 1..];
      if turn.fate == Onward {
        RunAttributed(config, turn.log, answers, index + 1);
      }
    }
  }

  /** A saved run, disturbed or not: value sequences ascend, each iteration's record counts exactly
      the values attributed to it, each value stands in the answer of its iteration, and the totals add up. */
  lemma SavedRunIsTraced(source: Source, answers: seq<Answer>)
    requires TrackedResult(source, answers, false).Saved?
    ensures var o := TrackedResult(source, answers, false);
      && |o.sequences| == |o.synced.values|
      && Ascending(o.sequences)
      && |o.records| == o.synced.requests
      && (forall i :: 0 <= i < |o.records| ==> o.records[i].sequence == i + 1)
      && (forall i :: 0 <= i < |o.records| ==> o.records[i].crossNew == Occurrences(o.sequences, i + 1))
      && (forall i :: 0 <= i < |o.sequences| ==> Brought(source.config, o.sequences[i], o.synced.values[i], answers))
      && o.raw == RawTotal(o.records)
      && o.synced.successes == Succeeded(o.records)
  {
    RunTraced(source.config, 0, NoLog(), answers);
    assert answers[0..] == answers;
    RunAttributed(source.config, NoLog(), answers, 0);
  }
}
