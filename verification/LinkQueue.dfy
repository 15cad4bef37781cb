/** The state guarded by LinkCheckQueue.mu and what each locked section does to it.
    The functions are the specification; LinkQueueObject.dfy proves the imperative
    sections against them and LinkProtocol.dfy interleaves them. */
module LinkQueue {
  import opened Text

  type Time = int

  const SECOND: int := 1_000_000_000

  datatype Config = Config(
    workers: int,
    buffer: int,
    platformLimit: int,
    circuitFailures: int,
    circuitCooldown: Time,
    writeBatchSize: int,
    supportsBatch: bool)
  {
    predicate Valid() {
      && workers > 0 && buffer > 0 && platformLimit > 0
      && circuitFailures > 0 && circuitCooldown > 0 && writeBatchSize > 0
    }
  }

  /** NewLinkCheckQueue replaces every non-positive setting by its default. */
  function WithDefaults(c: Config): (r: Config)
    ensures r.Valid()
    ensures c.workers > 0 ==> r.workers == c.workers
    ensures c.buffer > 0 ==> r.buffer == c.buffer
    ensures c.platformLimit > 0 ==> r.platformLimit == c.platformLimit
    ensures c.circuitFailures > 0 ==> r.circuitFailures == c.circuitFailures
    ensures c.circuitCooldown > 0 ==> r.circuitCooldown == c.circuitCooldown
    ensures c.writeBatchSize > 0 ==> r.writeBatchSize == c.writeBatchSize
    ensures r.supportsBatch == c.supportsBatch
    ensures c.workers <= 0 ==> r.workers == 8
    ensures c.buffer <= 0 ==> r.buffer == 1024
    ensures c.platformLimit <= 0 ==> r.platformLimit == 2
    ensures c.circuitFailures <= 0 ==> r.circuitFailures == 5
    ensures c.circuitCooldown <= 0 ==> r.circuitCooldown == 300 * SECOND
    ensures c.writeBatchSize <= 0 ==> r.writeBatchSize == 16
  {
    Config(
      if c.workers <= 0 then 8 else c.workers,
      if c.buffer <= 0 then 1024 else c.buffer,
      if c.platformLimit <= 0 then 2 else c.platformLimit,
      if c.circuitFailures <= 0 then 5 else c.circuitFailures,
      if c.circuitCooldown <= 0 then 300 * SECOND else c.circuitCooldown,
      if c.writeBatchSize <= 0 then 16 else c.writeBatchSize,
      c.supportsBatch)
  }

  datatype Candidate = Candidate(id: int, url: string, platform: string)

  datatype PlatformState = PlatformState(
    inUse: nat,
    failStreak: nat,
    circuitUntil: Option<Time>,
    halfOpen: bool)

  const IDLE_PLATFORM := PlatformState(0, 0, None, false)

  datatype Queue = Queue(
    started: bool,
    queued: set<int>,
    pending: map<string, seq<Candidate>>,
    order: seq<string>,
    cursor: nat,
    states: map<string, PlatformState>,
    active: nat)

  const EMPTY_QUEUE := Queue(true, {}, map[], [], 0, map[], 0)

  function NormalizePlatform(platform: string): string {
    var p := ToLower(TrimSpace(platform));
    if p == "" then "unknown" else p
  }

  lemma NormalizePlatformIdempotent(platform: string)
    ensures NormalizePlatform(NormalizePlatform(platform)) == NormalizePlatform(platform)
  {
    TrimSpaceTrims(platform);
    LowerKeepsShape(TrimSpace(platform));
    var p := NormalizePlatform(platform);
    TrimSpaceFixes(p);
    LowerKeepsShape(p);
    assert ToLower("unknown") == "unknown";
  }

  /** Spaces around a platform's name and its case do not matter, and a blank one is "unknown". */
  lemma NormalizePlatformTold(platform: string)
    ensures TrimSpace(platform) == "" ==> NormalizePlatform(platform) == "unknown"
    ensures TrimSpace(platform) != "" ==> NormalizePlatform(platform) == ToLower(TrimSpace(platform))
    ensures NormalizePlatform(platform) != ""
  {
    LowerKeepsShape(TrimSpace(platform));
  }

  function PendingOn(q: Queue, p: string): seq<Candidate> {
    if p in q.pending then q.pending[p] else []
  }

  /** A platform never seen by a scan or a release has no record yet. */
  function StateOf(q: Queue, p: string): PlatformState {
    if p in q.states then q.states[p] else IDLE_PLATFORM
  }

  // ----- Enqueue ---------------------------------------------------------

  datatype EnqueueResult = Invalid | NotStarted | Duplicate | Full | Accepted

  function EnqueueOutcome(cfg: Config, q: Queue, c: Candidate): EnqueueResult {
    if c.id == 0 || c.url == "" then Invalid
    else if !q.started then NotStarted
    else if c.id in q.queued then Duplicate
    else if |q.queued| - q.active >= cfg.buffer then Full
    else Accepted
  }

  function Normalized(c: Candidate): Candidate {
    c.(platform := NormalizePlatform(c.platform))
  }

  function Accept(q: Queue, c: Candidate): Queue {
    var p := c.platform;
    q.(order := if p in q.pending then q.order else q.order + [p],
       pending := q.pending[p := PendingOn(q, p) + [c]],
       queued := q.queued + {c.id})
  }

  // ----- claimNext -------------------------------------------------------

  /** What the body of the scan loop checks before it takes the head of platform p. */
  predicate Claimable(cfg: Config, q: Queue, p: string, now: Time) {
    var st := StateOf(q, p);
    && PendingOn(q, p) != []
    && match st.circuitUntil
       case None => st.inUse < cfg.platformLimit
       case Some(d) => d <= now && !st.halfOpen && st.inUse == 0
  }

  /** The platform at cyclic distance k from the cursor. */
  function At(q: Queue, k: nat): string
    requires k < |q.order|
  {
    q.order[(q.cursor + k) % |q.order|]
  }

  /** The scan gives a platform with waiting work a record if it has none. */
  function Touch(q: Queue, p: string): Queue {
    if PendingOn(q, p) != [] && p !in q.states
    then q.(states := q.states[p := IDLE_PLATFORM])
    else q
  }

  /** The queue after the scan has looked at the first k platforms. */
  function Visit(q: Queue, k: nat): (r: Queue)
    requires k <= |q.order|
    ensures r == q.(states := r.states)
  {
    if k == 0 then q else Touch(Visit(q, k - 1), At(q, k - 1))
  }

  lemma {:induction false} VisitKeeps(q: Queue, k: nat, p: string)
    requires k <= |q.order|
    ensures StateOf(Visit(q, k), p) == StateOf(q, p)
  {
    if k > 0 {
      VisitKeeps(q, k - 1, p);
    }
  }

  /** The first claimable offset at or after k; |order| when there is none. */
  function FirstClaimable(cfg: Config, q: Queue, now: Time, k: nat): (r: nat)
    requires k <= |q.order|
    ensures k <= r <= |q.order|
    ensures r < |q.order| ==> Claimable(cfg, q, At(q, r), now)
    decreases |q.order| - k
  {
    if k == |q.order| || Claimable(cfg, q, At(q, k), now) then k
    else FirstClaimable(cfg, q, now, k + 1)
  }

  lemma {:induction false} FirstClaimableSkips(cfg: Config, q: Queue, now: Time, k: nat, j: nat)
    requires k <= j < |q.order| && Claimable(cfg, q, At(q, j), now)
    ensures FirstClaimable(cfg, q, now, k) <= j
    decreases j - k
  {
    if !Claimable(cfg, q, At(q, k), now) {
      FirstClaimableSkips(cfg, q, now, k + 1, j);
    }
  }

  /** Until when the circuit of a platform with waiting work is open, if it is. */
  function OpenUntil(q: Queue, p: string, now: Time): Option<Time> {
    var until := StateOf(q, p).circuitUntil;
    if PendingOn(q, p) != [] && until.Some? && until.value > now then until else None
  }

  function Earlier(a: Option<Time>, t: Time): Option<Time> {
    if a.None? || t < a.value then Some(t) else a
  }

  /** The earliest open-circuit deadline among the first k platforms with waiting work. */
  function NextProbe(q: Queue, now: Time, k: nat): Option<Time>
    requires k <= |q.order|
  {
    if k == 0 then None
    else
      var before := NextProbe(q, now, k - 1);
      var until := OpenUntil(q, At(q, k - 1), now);
      if until.Some? then Earlier(before, until.value) else before
  }

  lemma {:induction false} NextProbeCovers(q: Queue, now: Time, k: nat)
    requires k <= |q.order|
    ensures forall j :: 0 <= j < k && OpenUntil(q, At(q, j), now).Some? ==>
              NextProbe(q, now, k).Some? && NextProbe(q, now, k).value <= OpenUntil(q, At(q, j), now).value
  {
    if k > 0 {
      NextProbeCovers(q, now, k - 1);
    }
  }

  function Claimed(st: PlatformState): PlatformState {
    st.(inUse := st.inUse + 1, halfOpen := st.halfOpen || st.circuitUntil.Some?)
  }

  /** Take the head of the platform at offset k and move the cursor past it. */
  function ClaimAt(q: Queue, k: nat): Queue
    requires k < |q.order| && PendingOn(q, At(q, k)) != []
  {
    var p := At(q, k);
    q.(pending := q.pending[p := q.pending[p][1..]],
       states := q.states[p := Claimed(StateOf(q, p))],
       active := q.active + 1,
       cursor := ((q.cursor + k) % |q.order| + 1) % |q.order|)
  }

  datatype ScanResult = ScanResult(queue: Queue, claim: Option<Candidate>, nextProbe: Option<Time>)

  /** One pass of claimNext under the lock. */
  function Scan(cfg: Config, q: Queue, now: Time): ScanResult {
    var n := |q.order|;
    var k := FirstClaimable(cfg, q, now, 0);
    if k < n
    then ScanResult(ClaimAt(Visit(q, k + 1), k), Some(PendingOn(q, At(q, k))[0]), NextProbe(q, now, k))
    else ScanResult(Visit(q, n), None, NextProbe(q, now, n))
  }

  // ----- releasePlatform -------------------------------------------------

  function Pred(n: nat): nat {
    if n > 0 then n - 1 else n
  }

  function Released(cfg: Config, st: PlatformState, circuitFailure: bool, now: Time): PlatformState {
    var inUse := Pred(st.inUse);
    if circuitFailure then
      var streak := st.failStreak + 1;
      if st.halfOpen || streak >= cfg.circuitFailures
      then PlatformState(inUse, streak, Some(now + cfg.circuitCooldown), false)
      else PlatformState(inUse, streak, st.circuitUntil, st.halfOpen)
    else
      PlatformState(inUse, 0, None, false)
  }

  function Release(cfg: Config, q: Queue, platform: string, circuitFailure: bool, now: Time): Queue {
    var p := NormalizePlatform(platform);
    q.(states := q.states[p := Released(cfg, StateOf(q, p), circuitFailure, now)],
       active := Pred(q.active))
  }

  // ----- finalizeCompletion and discardCompletion ------------------------

  function Forget(q: Queue, id: int): Queue {
    q.(queued := q.queued - {id})
  }
}
