/** Iterated keyword synchronisation: the loop that asks a source for keywords
    until it is exhausted. What the network and the store answer is an arbitrary
    sequence with one answer for each turn. */
module KeywordSync {
  import opened Text
  import opened Iteration

  datatype Keyword = Keyword(value: string, normalized: string)

  /** What comes of one request. existing lists which of the new keywords the store
      knew before; None is a store that fails to tell. */
  datatype Reply =
    | NoRequest
    | NoResponse(interrupted: bool)
    | NoValues
    | Extracted(keywords: seq<Keyword>, raw: nat, existing: Option<set<string>>)

  /** All a turn of the loop learns from outside. begun and recorded are the
      store's answers to the writes that only the tracked form makes. */
  datatype Answer = Answer(cancelled: bool, waitFails: bool, begun: bool, reply: Reply, recorded: bool)

  datatype Cause = Cancelled | WaitFailed | NotDerived | NotExecuted | NotExtracted

  datatype Failure = Failure(index: nat, cause: Cause)

  datatype Tally = Tally(
    values: seq<string>,
    seen: set<string>,
    errors: seq<Failure>,
    requests: nat,
    successes: nat,
    failures: nat,
    streak: nat)

  function NoTally(): Tally {
    Tally([], {}, [], 0, 0, 0, 0)
  }

  predicate Allows(config: Config, index: nat) {
    if !config.enabled then index == 0 else config.unlimited || index < config.count
  }

  predicate ReachedLimit(config: Config, streak: nat) {
    config.stopCount > 0 && streak >= config.stopCount
  }

  /** In this mode only a keyword the store does not know counts as progress. */
  predicate Strict(config: Config) {
    config.enabled && config.stopCount > 0 && StopMode(config.stopMode) != "normal"
  }

  // ----- progress of one response -------------------------------------------

  function Names(keywords: seq<Keyword>): set<string> {
    set k | k in keywords :: k.normalized
  }

  function ValuesOf(keywords: seq<Keyword>): seq<string> {
    seq(|keywords|, i requires 0 <= i < |keywords| => keywords[i].value)
  }

  /** The first occurrences of keywords that are not in seen. */
  function Firsts(keywords: seq<Keyword>, seen: set<string>): seq<Keyword> {
    if keywords == [] then []
    else
      var front := keywords[..|keywords| - 1];
      var last := keywords[|keywords| - 1];
      if last.normalized in seen + Names(front) then Firsts(front, seen) else Firsts(front, seen) + [last]
  }

  predicate Unknown(keywords: seq<Keyword>, existing: set<string>) {
    exists i :: 0 <= i < |keywords| && keywords[i].normalized !in existing
  }

  /** Whether a response counts as progress; None if the store fails to tell. */
  function Progress(config: Config, keywords: seq<Keyword>, seen: set<string>,
      existing: Option<set<string>>): Option<bool> {
    if !Strict(config) then Some(keywords != [])
    else if Firsts(keywords, seen) == [] then Some(false)
    else if existing.None? then None
    else Some(Unknown(Firsts(keywords, seen), existing.value))
  }

  lemma FirstsSnoc(keywords: seq<Keyword>, last: Keyword, seen: set<string>)
    ensures Firsts(keywords + [last], seen) ==
            Firsts(keywords, seen) + (if last.normalized in seen + Names(keywords) then [] else [last])
    ensures Names(keywords + [last]) == Names(keywords) + {last.normalized}
  {
    assert (keywords + [last])[..|keywords|] == keywords;
  }

  /** One more keyword: it is new, or everything stays as it was. */
  lemma OneMoreKeyword(keywords: seq<Keyword>, last: Keyword, seen: set<string>, found: seq<Keyword>,
      after: set<string>)
    requires after == seen + Names(keywords) && found == Firsts(keywords, seen)
    ensures last.normalized in after ==>
      seen + Names(keywords + [last]) == after && Firsts(keywords + [last], seen) == found
    ensures last.normalized !in after ==>
      seen + Names(keywords + [last]) == after + {last.normalized} && Firsts(keywords + [last], seen) == found + [last]
  {
    FirstsSnoc(keywords, last, seen);
  }

  /** Collects what was not seen before and remembers it. */
  method CollectNew(keywords: seq<Keyword>, seen: set<string>) returns (found: seq<Keyword>, after: set<string>)
    ensures after == seen + Names(keywords)
    ensures found == Firsts(keywords, seen)
  {
    found, after := [], seen;
    ghost var done: seq<Keyword> := [];
    for k := 0 to |keywords|
      invariant done == keywords[..k]
      invariant after == seen + Names(done)
      invariant found == Firsts(done, seen)
    {
      var keyword := keywords[k];
      OneMoreKeyword(done, keyword, seen, found, after);
      if keyword.normalized !in after {
        after := after + {keyword.normalized};
        found := found + [keyword];
      }
      done := done + [keyword];
    }
    assert done == keywords;
  }

  method EvaluateProgress(config: Config, keywords: seq<Keyword>, seen: set<string>, existing: Option<set<string>>)
    returns (found: seq<Keyword>, after: set<string>, progress: Option<bool>)
    ensures after == seen + Names(keywords)
    ensures found == Firsts(keywords, seen)
    ensures progress == Progress(config, keywords, seen, existing)
  {
    found, after := CollectNew(keywords, seen);
    if !Strict(config) {
      return found, after, Some(|keywords| > 0);
    }
    if |found| == 0 {
      return found, after, Some(false);
    }
    if existing.None? {
      return found, after, None;
    }
    for k := 0 to |found|
      invariant forall i :: 0 <= i < k ==> found[i].normalized in existing.value
    {
      if found[k].normalized !in existing.value {
        return found, after, Some(true);
      }
    }
    return found, after, Some(false);
  }

  // ----- one turn of the plain loop -------------------------------------------

  datatype Fate = Goes | Stops | CheckFails

  datatype Turn = Turn(tally: Tally, fate: Fate)

  function Judged(config: Config, t: Tally): Turn {
    Turn(t, if ReachedLimit(config, t.streak) then Stops else Goes)
  }

  /** A turn that never reached the source. */
  function Aborted(t: Tally, index: nat, cause: Cause): Tally {
    t.(requests := t.requests + 1, failures := t.failures + 1, errors := t.errors + [Failure(index, cause)])
  }

  /** A request that yielded nothing. */
  function Missed(t: Tally, index: nat, cause: Cause): Tally {
    Aborted(t, index, cause).(streak := t.streak + 1)
  }

  function Unchecked(t: Tally, keywords: seq<Keyword>): Tally {
    t.(requests := t.requests + 1, failures := t.failures + 1, seen := t.seen + Names(keywords))
  }

  function Gained(t: Tally, keywords: seq<Keyword>, progress: bool): Tally {
    t.(requests := t.requests + 1,
       successes := t.successes + 1,
       seen := t.seen + Names(keywords),
       values := t.values + ValuesOf(Firsts(keywords, t.seen)),
       streak := if progress then 0 else t.streak + 1)
  }

  /** A request cannot be derived if the value overflows or does not fit its place. */
  predicate Derives(config: Config, index: nat, reply: Reply) {
    ValueOf(config, index).Some? && !reply.NoRequest?
  }

  function PlainTurn(config: Config, index: nat, t: Tally, a: Answer): Turn {
    if a.cancelled then Turn(Aborted(t, index, Cancelled), Stops)
    else if index > 0 && a.waitFails then Turn(Aborted(t, index, WaitFailed), Stops)
    else if !Derives(config, index, a.reply) then Judged(config, Missed(t, index, NotDerived))
    else if a.reply.NoResponse? then
      var missed := Missed(t, index, NotExecuted);
      if a.reply.interrupted then Turn(missed, Stops) else Judged(config, missed)
    else if a.reply.NoValues? then Judged(config, Missed(t, index, NotExtracted))
    else
      var keywords := a.reply.keywords;
      var progress := Progress(config, keywords, t.seen, a.reply.existing);
      if progress.None? then Turn(Unchecked(t, keywords), CheckFails)
      else Judged(config, Gained(t, keywords, progress.value))
  }

  // ----- the plain loop ---------------------------------------------------------

  datatype Ending = Unfinished | Finished | CheckFailed

  datatype End = End(tally: Tally, ending: Ending)

  /** The run from one index on. It is unfinished if the answers end before the loop does. */
  function PlainRun(config: Config, index: nat, t: Tally, answers: seq<Answer>): End
    decreases answers
  {
    if !Allows(config, index) then End(t, Finished)
    else if answers == [] then End(t, Unfinished)
    else
      var turn := PlainTurn(config, index, t, answers[0]);
      match turn.fate
      case Goes => PlainRun(config, index + 1, turn.tally, answers[1..])
      case Stops => End(turn.tally, Finished)
      case CheckFails => End(turn.tally, CheckFailed)
  }

  /** The call that closes the synchronisation in the store. */
  datatype Outcome =
    | Rejected
    | Running
    | CheckError(requests: nat, failures: nat)
    | AllFailed(errors: seq<Failure>, requests: nat, failures: nat)
    | Synced(values: seq<string>, partially: bool, errors: seq<Failure>, requests: nat, successes: nat, failures: nat)

  function Concluded(t: Tally): Outcome {
    if t.successes == 0 then AllFailed(t.errors, t.requests, t.failures)
    else Synced(t.values, t.failures > 0, t.errors, t.requests, t.successes, t.failures)
  }

  function Outcomes(end: End): Outcome {
    match end.ending
    case Unfinished => Running
    case CheckFailed => CheckError(end.tally.requests, end.tally.failures)
    case Finished => Concluded(end.tally)
  }

  /** What is known of a source before its first request: whether its request and
      response path can be read, and whether the request has a place for the value. */
  datatype Source = Source(config: Config, readable: bool, targetFits: bool)

  predicate Runs(source: Source) {
    source.readable && Accepted(source.config, source.targetFits)
  }

  function PlainOutcome(source: Source, answers: seq<Answer>): Outcome {
    if !Runs(source) then Rejected
    else Outcomes(PlainRun(source.config, 0, NoTally(), answers))
  }

  /** The body of the plain loop. */
  method PlainStep(config: Config, index: nat, t: Tally, a: Answer) returns (r: Tally, fate: Fate)
    ensures Turn(r, fate) == PlainTurn(config, index, t, a)
  {
    r := t;
    if a.cancelled {
      r := r.(errors := r.errors + [Failure(index, Cancelled)], requests := r.requests + 1, failures := r.failures + 1);
      return r, Stops;
    }
    if index > 0 {
      if a.waitFails {
        r := r.(requests := r.requests + 1, failures := r.failures + 1,
            errors := r.errors + [Failure(index, WaitFailed)]);
        return r, Stops;
      }
    }
    r := r.(requests := r.requests + 1);
    if !Derives(config, index, a.reply) {
      r := r.(failures := r.failures + 1, streak := r.streak + 1, errors := r.errors + [Failure(index, NotDerived)]);
      return r, if ReachedLimit(config, r.streak) then Stops else Goes;
    }
    match a.reply {
      case NoResponse(interrupted) =>
        r := r.(failures := r.failures + 1, streak := r.streak + 1, errors := r.errors + [Failure(index, NotExecuted)]);
        return r, if interrupted || ReachedLimit(config, r.streak) then Stops else Goes;
      case NoValues =>
        r := r.(failures := r.failures + 1, streak := r.streak + 1,
            errors := r.errors + [Failure(index, NotExtracted)]);
        return r, if ReachedLimit(config, r.streak) then Stops else Goes;
      case Extracted(keywords, _, existing) =>
        var found, seen, progress := EvaluateProgress(config, keywords, r.seen, existing);
        r := r.(seen := seen);
        if progress.None? {
          r := r.(failures := r.failures + 1);
          return r, CheckFails;
        }
        r := r.(successes := r.successes + 1, streak := if progress.value then 0 else r.streak + 1);
        r := r.(values := r.values + ValuesOf(found));
        return r, if ReachedLimit(config, r.streak) then Stops else Goes;
    }
  }

  method SyncClaimed(source: Source, answers: seq<Answer>) returns (r: Outcome)
    ensures r == PlainOutcome(source, answers)
  {
    var config := source.config;
    var valid := Validate(config, source.targetFits);
    if !source.readable || !valid {
      return Rejected;
    }
    var t, index := NoTally(), 0;
    assert answers[0..] == answers;
    while Allows(config, index)
      invariant index <= |answers|
      invariant PlainRun(config, 0, NoTally(), answers) == PlainRun(config, index, t, answers[index..])
      decreases |answers| - index
    {
      if index == |answers| {
        return Running;
      }
      assert answers[index..][1..] == answers[index + 1..];
      var fate;
      t, fate := PlainStep(config, index, t, answers[index]);
      if fate == CheckFails {
        return CheckError(t.requests, t.failures);
      }
      if fate == Stops {
        return Concluded(t);
      }
      index := index + 1;
    }
    return Concluded(t);
  }
}
