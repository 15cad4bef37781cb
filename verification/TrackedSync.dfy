/** The tracked form of the synchronisation loop, which also records every iteration. */
module TrackedSync {
  import opened Iteration
  import opened KeywordSync

  // ----- one turn of the tracked loop --------------------------------------------

  /** What the store keeps of one iteration. */
  datatype Record = Record(sequence: nat, ok: bool, raw: nat, unique: nat, crossNew: nat)

  /** The tracked loop also remembers the iteration each value came from. */
  datatype Log = Log(tally: Tally, sequences: seq<nat>, raw: nat, records: seq<Record>)

  function NoLog(): Log {
    Log(NoTally(), [], 0, [])
  }

  datatype TrackedFate = Onward | Halts | ChecksFail | Interrupts | StoreFails

  datatype TrackedTurn = TrackedTurn(log: Log, fate: TrackedFate)

  /** Writes the iteration's record; if the store refuses it the run ends there. */
  function Recorded(l: Log, record: Record, a: Answer, fate: TrackedFate): TrackedTurn {
    if a.recorded then TrackedTurn(l.(records := l.records + [record]), fate)
    else TrackedTurn(l, StoreFails)
  }

  function Verdict(config: Config, streak: nat): TrackedFate {
    if ReachedLimit(config, streak) then Halts else Onward
  }

  function RecordedMiss(config: Config, index: nat, l: Log, cause: Cause, a: Answer): TrackedTurn {
    var missed := l.(tally := Missed(l.tally, index, cause));
    Recorded(missed, Record(index + 1, false, 0, 0, 0), a, Verdict(config, missed.tally.streak))
  }

  function Repeated(n: nat, times: nat): seq<nat> {
    seq(times, i requires 0 <= i < times => n)
  }

  function RecordedGain(config: Config, index: nat, l: Log, keywords: seq<Keyword>, raw: nat, progress: bool,
      a: Answer): TrackedTurn {
    var found := |Firsts(keywords, l.tally.seen)|;
    var gained := Log(Gained(l.tally, keywords, progress), l.sequences + Repeated(index + 1, found), l.raw + raw,
        l.records);
    Recorded(gained, Record(index + 1, true, raw, |keywords|, found), a, Verdict(config, gained.tally.streak))
  }

  function TrackedStep(config: Config, index: nat, l: Log, a: Answer): TrackedTurn {
    if a.cancelled then TrackedTurn(l, Interrupts)
    else if index > 0 && a.waitFails then TrackedTurn(l, Interrupts)
    else if !a.begun then TrackedTurn(l, StoreFails)
    else if !Derives(config, index, a.reply) then RecordedMiss(config, index, l, NotDerived, a)
    else if a.reply.NoResponse? then
      if a.reply.interrupted then TrackedTurn(l, Interrupts)
      else RecordedMiss(config, index, l, NotExecuted, a)
    else if a.reply.NoValues? then RecordedMiss(config, index, l, NotExtracted, a)
    else
      var keywords := a.reply.keywords;
      var progress := Progress(config, keywords, l.tally.seen, a.reply.existing);
      if progress.None? then
        Recorded(l.(tally := Unchecked(l.tally, keywords)), Record(index + 1, false, 0, 0, 0), a, ChecksFail)
      else RecordedGain(config, index, l, keywords, a.reply.raw, progress.value, a)
  }

  // ----- the tracked loop ----------------------------------------------------------

  datatype TrackedEnding = InProgress | Ended | FailedCheck | Interrupted | StoreFailed

  datatype TrackedEnd = TrackedEnd(log: Log, ending: TrackedEnding)

  function TrackedRun(config: Config, index: nat, l: Log, answers: seq<Answer>): TrackedEnd
    decreases answers
  {
    if !Allows(config, index) then TrackedEnd(l, Ended)
    else if answers == [] then TrackedEnd(l, InProgress)
    else
      var turn := TrackedStep(config, index, l, answers[0]);
      match turn.fate
      case Onward => TrackedRun(config, index + 1, turn.log, answers[1..])
      case Halts => TrackedEnd(turn.log, Ended)
      case ChecksFail => TrackedEnd(turn.log, FailedCheck)
      case Interrupts => TrackedEnd(turn.log, Interrupted)
      case StoreFails => TrackedEnd(turn.log, StoreFailed)
  }

  /** How a tracked run is closed; Saved carries what Synced does and where each value came from. */
  datatype TrackedOutcome =
    | Refused
    | Open
    | Aborts
    | Unsaved
    | Wrong(requests: nat, failures: nat)
    | Fruitless(errors: seq<Failure>, requests: nat, failures: nat)
    | Saved(synced: Outcome, sequences: seq<nat>, raw: nat, records: seq<Record>)

  function TrackedConclusion(l: Log, cancelledAtEnd: bool): TrackedOutcome {
    var t := l.tally;
    if cancelledAtEnd then Aborts
    else if t.successes == 0 then Fruitless(t.errors, t.requests, t.failures)
    else Saved(Synced(t.values, t.failures > 0, t.errors, t.requests, t.successes, t.failures), l.sequences, l.raw,
        l.records)
  }

  function TrackedOutcomes(end: TrackedEnd, cancelledAtEnd: bool): TrackedOutcome {
    match end.ending
    case InProgress => Open
    case FailedCheck => Wrong(end.log.tally.requests, end.log.tally.failures)
    case Interrupted => Aborts
    case StoreFailed => Unsaved
    case Ended => TrackedConclusion(end.log, cancelledAtEnd)
  }

  function TrackedResult(source: Source, answers: seq<Answer>, cancelledAtEnd: bool): TrackedOutcome {
    if !Runs(source) then Refused
    else TrackedOutcomes(TrackedRun(source.config, 0, NoLog(), answers), cancelledAtEnd)
  }

  lemma RepeatedSnoc(n: nat, times: nat)
    ensures Repeated(n, times + 1) == Repeated(n, times) + [n]
  {
  }

  /** Appends the new values, one by one, each with the number of its iteration. */
  method AppendFound(l: Log, found: seq<Keyword>, sequence: nat) returns (r: Log, crossNew: nat)
    ensures crossNew == |found|
    ensures r == l.(tally := l.tally.(values := l.tally.values + ValuesOf(found)),
                    sequences := l.sequences + Repeated(sequence, |found|))
  {
    var values, sequences := l.tally.values, l.sequences;
    crossNew := 0;
    for k := 0 to |found|
      invariant crossNew == k
      invariant values == l.tally.values + ValuesOf(found[..k])
      invariant sequences == l.sequences + Repeated(sequence, k)
    {
      assert ValuesOf(found[..k + 1]) == ValuesOf(found[..k]) + [found[k].value];
      RepeatedSnoc(sequence, k);
      values := values + [found[k].value];
      sequences := sequences + [sequence];
      crossNew := crossNew + 1;
    }
    assert found[..|found|] == found;
    r := l.(tally := l.tally.(values := values), sequences := sequences);
  }

  /** The part of the tracked body that follows a failed attempt. */
  method RecordMiss(config: Config, index: nat, l: Log, cause: Cause, a: Answer) returns (r: Log, fate: TrackedFate)
    ensures TrackedTurn(r, fate) == RecordedMiss(config, index, l, cause, a)
  {
    var t := l.tally;
    t := t.(requests := t.requests + 1);
    t := t.(failures := t.failures + 1, streak := t.streak + 1, errors := t.errors + [Failure(index, cause)]);
    r := l.(tally := t);
    if !a.recorded {
      return r, StoreFails;
    }
    r := r.(records := r.records + [Record(index + 1, false, 0, 0, 0)]);
    return r, if ReachedLimit(config, t.streak) then Halts else Onward;
  }

  /** A strict check that the store cannot answer ends the run. */
  method RecordUnchecked(index: nat, l: Log, keywords: seq<Keyword>, seen: set<string>, a: Answer)
      returns (r: Log, fate: TrackedFate)
    requires seen == l.tally.seen + Names(keywords)
    ensures TrackedTurn(r, fate) ==
      Recorded(l.(tally := Unchecked(l.tally, keywords)), Record(index + 1, false, 0, 0, 0), a, ChecksFail)
  {
    var t := l.tally;
    r := l.(tally := t.(requests := t.requests + 1, failures := t.failures + 1, seen := seen));
    if !a.recorded {
      return r, StoreFails;
    }
    r := r.(records := r.records + [Record(index + 1, false, 0, 0, 0)]);
    return r, ChecksFail;
  }

  method RecordGain(config: Config, index: nat, l: Log, keywords: seq<Keyword>, found: seq<Keyword>, seen: set<string>,
                    progress: bool, a: Answer)
      returns (r: Log, fate: TrackedFate)
    requires a.reply.Extracted? && seen == l.tally.seen + Names(keywords) && found == Firsts(keywords, l.tally.seen)
    ensures TrackedTurn(r, fate) == RecordedGain(config, index, l, keywords, a.reply.raw, progress, a)
  {
    var t := l.tally;
    t := t.(requests := t.requests + 1, seen := seen, successes := t.successes + 1);
    t := t.(streak := if progress then 0 else t.streak + 1);
    var crossNew;
    r, crossNew := AppendFound(l.(tally := t, raw := l.raw + a.reply.raw), found, index + 1);
    if !a.recorded {
      return r, StoreFails;
    }
    r := r.(records := r.records + [Record(index + 1, true, a.reply.raw, |keywords|, crossNew)]);
    return r, if ReachedLimit(config, t.streak) then Halts else Onward;
  }

  /** The part of the tracked body that follows an extraction. */
  method RecordExtraction(config: Config, index: nat, l: Log, a: Answer) returns (r: Log, fate: TrackedFate)
    requires a.reply.Extracted? && a.begun && !a.cancelled && !(index > 0 && a.waitFails)
    requires Derives(config, index, a.reply)
    ensures TrackedTurn(r, fate) == TrackedStep(config, index, l, a)
  {
    var keywords := a.reply.keywords;
    var found, seen, progress := EvaluateProgress(config, keywords, l.tally.seen, a.reply.existing);
    if progress.None? {
      r, fate := RecordUnchecked(index, l, keywords, seen, a);
    } else {
      r, fate := RecordGain(config, index, l, keywords, found, seen, progress.value, a);
    }
  }

  /** The body of the tracked loop. */
  method TrackedBody(config: Config, index: nat, l: Log, a: Answer) returns (r: Log, fate: TrackedFate)
    ensures TrackedTurn(r, fate) == TrackedStep(config, index, l, a)
  {
    if a.cancelled || (index > 0 && a.waitFails) {
      return l, Interrupts;
    }
    if !a.begun {
      return l, StoreFails;
    }
    if !Derives(config, index, a.reply) {
      r, fate := RecordMiss(config, index, l, NotDerived, a);
    } else if a.reply.NoResponse? {
      if a.reply.interrupted {
        return l, Interrupts;
      }
      r, fate := RecordMiss(config, index, l, NotExecuted, a);
    } else if a.reply.NoValues? {
      r, fate := RecordMiss(config, index, l, NotExtracted, a);
    } else {
      r, fate := RecordExtraction(config, index, l, a);
    }
  }

  method ExecuteTrackedRun(source: Source, answers: seq<Answer>, cancelledAtEnd: bool) returns (r: TrackedOutcome)
    ensures r == TrackedResult(source, answers, cancelledAtEnd)
  {
    var config := source.config;
    var valid := Validate(config, source.targetFits);
    if !source.readable || !valid {
      return Refused;
    }
    var l, index := NoLog(), 0;
    assert answers[0..] == answers;
    while Allows(config, index)
      invariant index <= |answers|
      invariant TrackedRun(config, 0, NoLog(), answers) == TrackedRun(config, index, l, answers[index..])
      decreases |answers| - index
    {
      if index == |answers| {
        return Open;
      }
      assert answers[index..][1..] == answers[index + 1..];
      var fate;
      l, fate := TrackedBody(config, index, l, answers[index]);
      match fate {
        case Interrupts => return Aborts;
        case StoreFails => return Unsaved;
        case ChecksFail => return Wrong(l.tally.requests, l.tally.failures);
        case Halts => return TrackedConclusion(l, cancelledAtEnd);
        case Onward => index := index + 1;
      }
    }
    return TrackedConclusion(l, cancelledAtEnd);
  }
}
