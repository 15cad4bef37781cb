/** LinkCheckQueue itself: mutable fields and the bodies of its locked sections. */
module LinkQueueObject {
  import opened Text
  import opened LinkQueue

  /** The queue with the head of platform p taken and the cursor moved behind index. */
  function HeadTaken(v: Queue, p: string, index: nat): Queue
    requires p in v.pending && v.pending[p] != [] && v.order != []
  {
    v.(pending := v.pending[p := v.pending[p][1..]],
       states := v.states[p := Claimed(StateOf(v, p))],
       active := v.active + 1,
       cursor := (index + 1) % |v.order|)
  }

  lemma ClaimTakesHead(q: Queue, v: Queue, k: nat)
    requires k < |q.order| && v == q.(states := v.states) && PendingOn(q, At(q, k)) != []
    ensures At(v, k) == At(q, k)
    ensures ClaimAt(v, k) == HeadTaken(v, At(q, k), (q.cursor + k) % |q.order|)
  {
  }

  /** A scan that claims: the visited queue with the head of the platform at k taken. */
  lemma ScanTakes(cfg: Config, q: Queue, now: Time, k: nat)
    requires k == FirstClaimable(cfg, q, now, 0) < |q.order|
    ensures var p := At(q, k);
      && p in q.pending && q.pending[p] != []
      && Scan(cfg, q, now) == ScanResult(HeadTaken(Visit(q, k + 1), p, (q.cursor + k) % |q.order|),
                                         Some(q.pending[p][0]), NextProbe(q, now, k))
  {
    ClaimTakesHead(q, Visit(q, k + 1), k);
  }

  class LinkCheckQueue {
    const config: Config
    var started: bool
    var stopping: bool
    var queued: set<int>
    var pending: map<string, seq<Candidate>>
    var platformOrder: seq<string>
    var platformCursor: nat
    var platformStates: map<string, PlatformState>
    var active: nat

    function View(): Queue
      reads this
    {
      Queue(started, queued, pending, platformOrder, platformCursor, platformStates, active)
    }

    constructor (raw: Config)
      ensures config == WithDefaults(raw) && config.Valid()
      ensures View() == EMPTY_QUEUE.(started := false) && !stopping
    {
      config := WithDefaults(raw);
      started, stopping, queued, pending := false, false, {}, map[];
      platformOrder, platformCursor, platformStates, active := [], 0, map[], 0;
    }

    /** The part of Start that resets the guarded state: nothing happens to a started
        queue, and one that is still stopping refuses. */
    method Start() returns (ok: bool)
      modifies this
      ensures ok == (old(started) || !old(stopping))
      ensures View() == if old(started) || old(stopping) then old(View()) else EMPTY_QUEUE
      ensures stopping == old(stopping)
    {
      if started {
        return true;
      }
      if stopping {
        return false;
      }
      started, active, queued, pending := true, 0, {}, map[];
      platformOrder, platformCursor, platformStates := [], 0, map[];
      return true;
    }

    /** The part of Stop under the lock; whether there is anything to wait for. */
    method Stop() returns (waits: bool)
      modifies this
      ensures waits == (old(started) || old(stopping))
      ensures stopping == waits
      ensures View() == old(View()).(started := false)
    {
      if !started && !stopping {
        return false;
      }
      if started {
        started, stopping := false, true;
      }
      return true;
    }

    method Enqueue(candidate: Candidate) returns (r: EnqueueResult)
      modifies this`pending, this`platformOrder, this`queued
      ensures r == EnqueueOutcome(config, old(View()), candidate)
      ensures View() == if r == Accepted then Accept(old(View()), Normalized(candidate)) else old(View())
    {
      if candidate.id == 0 || candidate.url == "" {
        return Invalid;
      }
      if !started {
        return NotStarted;
      }
      if candidate.id in queued {
        return Duplicate;
      }
      if |queued| - active >= config.buffer {
        return Full;
      }
      var platform := NormalizePlatform(candidate.platform);
      var c := candidate.(platform := platform);
      var waiting: seq<Candidate> := [];
      if platform !in pending {
        platformOrder := platformOrder + [platform];
      } else {
        waiting := pending[platform];
      }
      pending := pending[platform := waiting + [c]];
      queued := queued + {c.id};
      return Accepted;
    }

    /** One pass of claimNext under the lock: take the first claimable platform after
        the cursor, or report when the earliest open circuit may be probed. */
    method ScanOnce(now: Time) returns (claim: Option<Candidate>, nextProbe: Option<Time>)
      modifies this`pending, this`platformStates, this`platformCursor, this`active
      ensures ScanResult(View(), claim, nextProbe) == Scan(config, old(View()), now)
    {
      ghost var q := View();
      var offset;
      offset, nextProbe := FindClaimable(now);
      claim := None;
      if offset < |platformOrder| {
        ScanTakes(config, q, now, offset);
        claim := TakeHead((platformCursor + offset) % |platformOrder|);
      }
    }

    /** One turn of the loop: look at the platform at this offset. q is the queue before the scan. */
    method LookAt(ghost q: Queue, offset: nat, now: Time) returns (free: bool, until: Option<Time>)
      requires offset < |q.order| && View() == Visit(q, offset)
      modifies this`platformStates
      ensures View() == Visit(q, offset + 1)
      ensures free == Claimable(config, q, At(q, offset), now)
      ensures free ==> At(q, offset) in platformStates
      ensures until == OpenUntil(q, At(q, offset), now)
    {
      var platform := platformOrder[(platformCursor + offset) % |platformOrder|];
      assert platform == At(q, offset);
      VisitKeeps(q, offset, platform);
      free, until := Inspect(platform, now);
    }

    /** The cyclic loop of the scan, up to the first platform that may be claimed. */
    method FindClaimable(now: Time) returns (offset: nat, nextProbe: Option<Time>)
      modifies this`platformStates
      ensures var q := old(View());
              && offset == FirstClaimable(config, q, now, 0)
              && nextProbe == NextProbe(q, now, offset)
              && View() == Visit(q, if offset < |q.order| then offset + 1 else offset)
              && (offset < |q.order| ==> At(q, offset) in platformStates)
    {
      ghost var q := View();
      offset, nextProbe := 0, None;
      while offset < |platformOrder|
        invariant offset <= |platformOrder| == |q.order|
        invariant View() == Visit(q, offset)
        invariant nextProbe == NextProbe(q, now, offset)
        invariant FirstClaimable(config, q, now, 0) == FirstClaimable(config, q, now, offset)
      {
        var free, until := LookAt(q, offset, now);
        if free {
          return;
        }
        if until.Some? && (nextProbe.None? || until.value < nextProbe.value) {
          nextProbe := until;
        }
        offset := offset + 1;
      }
    }

    /** The end of the scan: take the first waiting candidate of the chosen platform. */
    method TakeHead(index: nat) returns (claim: Option<Candidate>)
      requires index < |platformOrder|
      requires platformOrder[index] in platformStates
      requires PendingOn(View(), platformOrder[index]) != []
      modifies this`pending, this`platformStates, this`platformCursor, this`active
      ensures claim == Some(old(pending)[old(platformOrder)[index]][0])
      ensures View() == HeadTaken(old(View()), old(platformOrder)[index], index)
    {
      var platform := platformOrder[index];
      var waiting := pending[platform];
      var state := platformStates[platform];
      if state.circuitUntil.Some? {
        state := state.(halfOpen := true);
      }
      pending := pending[platform := waiting[1..]];
      platformStates := platformStates[platform := state.(inUse := state.inUse + 1)];
      active := active + 1;
      platformCursor := (index + 1) % |platformOrder|;
      claim := Some(waiting[0]);
    }

    /** The tests of the scan's loop body: may the head of this platform be taken now,
        and if its circuit is still open, until when. */
    method Inspect(platform: string, now: Time) returns (free: bool, until: Option<Time>)
      modifies this`platformStates
      ensures View() == Touch(old(View()), platform)
      ensures free == Claimable(config, old(View()), platform, now)
      ensures free ==> platform in platformStates
      ensures until == OpenUntil(old(View()), platform, now)
    {
      if platform !in pending || |pending[platform]| == 0 {
        return false, None;
      }
      if platform !in platformStates {
        platformStates := platformStates[platform := IDLE_PLATFORM];
      }
      var state := platformStates[platform];
      if state.circuitUntil.Some? {
        if state.circuitUntil.value > now {
          return false, state.circuitUntil;
        }
        return !state.halfOpen && state.inUse == 0, None;
      }
      return state.inUse < config.platformLimit, None;
    }

    method ReleasePlatform(rawPlatform: string, circuitFailure: bool, now: Time)
      modifies this`platformStates, this`active
      ensures View() == Release(config, old(View()), rawPlatform, circuitFailure, now)
    {
      var platform := NormalizePlatform(rawPlatform);
      var state := if platform in platformStates then platformStates[platform] else IDLE_PLATFORM;
      if state.inUse > 0 {
        state := state.(inUse := state.inUse - 1);
      }
      if active > 0 {
        active := active - 1;
      }
      if circuitFailure {
        state := state.(failStreak := state.failStreak + 1);
        if state.halfOpen || state.failStreak >= config.circuitFailures {
          state := state.(circuitUntil := Some(now + config.circuitCooldown), halfOpen := false);
        }
      } else {
        state := state.(failStreak := 0, circuitUntil := None, halfOpen := false);
      }
      platformStates := platformStates[platform := state];
    }

    /** The deletion shared by finalizeCompletion and discardCompletion. */
    method DropQueued(id: int)
      modifies this`queued
      ensures View() == Forget(old(View()), id)
    {
      queued := queued - {id};
    }
  }
}
