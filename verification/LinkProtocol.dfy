/** The link-check queue as a protocol: workers, the result writer and any number of
    enqueuers, interleaved at the granularity of one locked section or one channel
    operation per step. A clock reading belongs to the locked section that uses it. */
module LinkProtocol {
  import opened Text
  import opened LinkQueue

  datatype Completion = Completion(candidate: Candidate, checkFailed: bool, circuitFailure: bool, skip: bool)

  /** What the checker answers: a status (final or not), a cancellation, another error. */
  datatype CheckAnswer = Status(final: bool) | Canceled | Failed

  function Complete(c: Candidate, answer: CheckAnswer, cancelled: bool): Completion {
    var failed := !answer.Status? || !answer.final;
    Completion(c, failed, failed && !answer.Canceled?, cancelled && answer.Canceled?)
  }

  datatype Worker =
    | Scanning                       // about to take the lock and scan
    | Parked(timer: Option<Time>)    // scan found nothing: waiting in select
    | ClaimDebt(candidate: Candidate)   // claimed, lock dropped, signalWake still to come
    | Checking(candidate: Candidate)
    | Checked(done: Completion)      // about to release the platform
    | ReleaseDebt(done: Completion)  // released, signalWake still to come
    | Sending(done: Completion)      // about to send on results
    | Exited

  datatype Phase = Receiving | Draining | Finished

  /** The goroutine of writeResults: completions collected, completions being settled,
      and whether the settlement just made still owes its signal. */
  datatype Writer = Writer(phase: Phase, batch: seq<Completion>, inHand: seq<Completion>, owes: bool)

  datatype World = World(
    q: Queue,
    wake: bool,
    workers: seq<Worker>,
    results: seq<Completion>,
    writer: Writer,
    debts: nat,        // enqueuers that have left the lock and owe a signal
    clock: Time,
    cancelled: bool,
    stopping: bool)

  datatype Label =
    | Tick(elapsed: nat)
    | Start | CancelContext | Stop | FinishStop
    | Enqueue(candidate: Candidate) | PayEnqueue
    | ScanStep(worker: nat) | PayClaim(worker: nat) | CheckStep(worker: nat, answer: CheckAnswer)
    | ReleaseStep(worker: nat) | PayRelease(worker: nat) | Send(worker: nat)
    | TakeToken(worker: nat) | TimerFires(worker: nat) | LeaveOnCancel(worker: nat)
    | Receive | Flush | WorkersDone | Settle | PaySettle | WriterExit

  function Capacity(cfg: Config): int {
    cfg.buffer + cfg.workers
  }

  function Initial(cfg: Config): World
    requires cfg.Valid()
  {
    World(EMPTY_QUEUE.(started := false), false, seq(cfg.workers, _ => Exited), [],
          Writer(Finished, [], [], false), 0, 0, false, false)
  }

  predicate AllExited(ws: seq<Worker>) {
    forall i :: 0 <= i < |ws| ==> ws[i].Exited?
  }

  predicate WriterReady(wr: Writer) {
    !wr.phase.Finished? && wr.inHand == [] && !wr.owes
  }

  predicate Enabled(cfg: Config, w: World, l: Label) {
    match l
    case Tick(_) => true
    case Start => cfg.Valid() && !w.q.started && !w.stopping
    case CancelContext => true
    case Stop => w.q.started
    case FinishStop => w.stopping && AllExited(w.workers) && w.writer.phase.Finished?
    case Enqueue(_) => true
    case PayEnqueue => w.debts > 0
    case ScanStep(i) => i < |w.workers| && w.workers[i].Scanning?
    case PayClaim(i) => i < |w.workers| && w.workers[i].ClaimDebt?
    case CheckStep(i, _) => i < |w.workers| && w.workers[i].Checking?
    case ReleaseStep(i) => i < |w.workers| && w.workers[i].Checked?
    case PayRelease(i) => i < |w.workers| && w.workers[i].ReleaseDebt?
    case Send(i) => i < |w.workers| && w.workers[i].Sending? && |w.results| < Capacity(cfg)
    case TakeToken(i) => i < |w.workers| && w.workers[i].Parked? && w.wake
    case TimerFires(i) =>
      i < |w.workers| && w.workers[i].Parked? && w.workers[i].timer.Some? && w.workers[i].timer.value <= w.clock
    case LeaveOnCancel(i) => i < |w.workers| && w.workers[i].Parked? && w.cancelled
    case Receive => WriterReady(w.writer) && w.results != []
    case Flush => WriterReady(w.writer) && (w.writer.phase.Receiving? || w.results == [])
    case WorkersDone => WriterReady(w.writer) && w.writer.phase.Receiving? && AllExited(w.workers)
    case Settle => w.writer.inHand != [] && !w.writer.owes
    case PaySettle => w.writer.owes
    case WriterExit => WriterReady(w.writer) && w.writer.phase.Draining? && w.results == [] && w.writer.batch == []
  }

  function SetWorker(w: World, i: nat, x: Worker): World
    requires i < |w.workers|
  {
    w.(workers := w.workers[i := x])
  }

  function AfterScan(cfg: Config, w: World, i: nat): World
    requires i < |w.workers|
  {
    var r := Scan(cfg, w.q, w.clock);
    match r.claim
    case Some(c) => SetWorker(w.(q := r.queue), i, ClaimDebt(c))
    case None => SetWorker(w.(q := r.queue), i, Parked(r.nextProbe))
  }

  /** flush: hand the collected batch over for settlement. */
  function Flushed(wr: Writer): Writer {
    wr.(batch := [], inHand := wr.batch)
  }

  function AfterReceive(cfg: Config, w: World): World
    requires w.results != []
  {
    var c := w.results[0];
    var wr := w.writer;
    var collected := wr.(batch := wr.batch + [c]);
    w.(results := w.results[1..],
       writer := if c.skip then wr.(inHand := [c])
                 else if wr.phase.Receiving? && (!cfg.supportsBatch || |collected.batch| >= cfg.writeBatchSize)
                 then Flushed(collected)
                 else collected)
  }

  function Step(cfg: Config, w: World, l: Label): World
    requires Enabled(cfg, w, l)
  {
    match l
    case Tick(d) => w.(clock := w.clock + d)
    case Start =>
      w.(q := EMPTY_QUEUE, wake := true, workers := seq(cfg.workers, _ => Scanning),
         writer := Writer(Receiving, [], [], false), cancelled := false)
    case CancelContext => w.(cancelled := true)
    case Stop => w.(q := w.q.(started := false), cancelled := true, stopping := true)
    case FinishStop => w.(stopping := false)
    case Enqueue(c) =>
      if EnqueueOutcome(cfg, w.q, c).Accepted?
      then w.(q := Accept(w.q, Normalized(c)), debts := w.debts + 1)
      else w
    case PayEnqueue => w.(wake := true, debts := w.debts - 1)
    case ScanStep(i) => AfterScan(cfg, w, i)
    case PayClaim(i) => SetWorker(w.(wake := true), i, Checking(w.workers[i].candidate))
    case CheckStep(i, answer) =>
      SetWorker(w, i, Checked(Complete(w.workers[i].candidate, answer, w.cancelled)))
    case ReleaseStep(i) =>
      var done := w.workers[i].done;
      SetWorker(w.(q := Release(cfg, w.q, done.candidate.platform, done.circuitFailure, w.clock)), i, ReleaseDebt(done))
    case PayRelease(i) => SetWorker(w.(wake := true), i, Sending(w.workers[i].done))
    case Send(i) => SetWorker(w.(results := w.results + [w.workers[i].done]), i, Scanning)
    case TakeToken(i) => SetWorker(w.(wake := false), i, Scanning)
    case TimerFires(i) => SetWorker(w, i, Scanning)
    case LeaveOnCancel(i) => SetWorker(w, i, Exited)
    case Receive => AfterReceive(cfg, w)
    case Flush => w.(writer := Flushed(w.writer))
    case WorkersDone => w.(writer := w.writer.(phase := Draining))
    case Settle =>
      w.(q := Forget(w.q, w.writer.inHand[0].candidate.id),
         writer := w.writer.(inHand := w.writer.inHand[1..], owes := true))
    case PaySettle => w.(wake := true, writer := w.writer.(owes := false))
    case WriterExit => w.(writer := w.writer.(phase := Finished))
  }

  // ----- who holds what --------------------------------------------------

  function Holding(x: Worker): Option<Candidate> {
    match x
    case ClaimDebt(c) => Some(c)
    case Checking(c) => Some(c)
    case Checked(d) => Some(d.candidate)
    case ReleaseDebt(d) => Some(d.candidate)
    case Sending(d) => Some(d.candidate)
    case _ => None
  }

  /** A worker occupies its platform from the claim to the release. */
  predicate Engaged(x: Worker) {
    x.ClaimDebt? || x.Checking? || x.Checked?
  }

  predicate EngagedOn(x: Worker, p: string) {
    Engaged(x) && Holding(x).value.platform == p
  }

  function HoldsId(x: Worker, id: int): nat {
    if Holding(x).Some? && Holding(x).value.id == id then 1 else 0
  }

  function HeldCount(ws: seq<Worker>, id: int): nat {
    if ws == [] then 0 else HoldsId(ws[0], id) + HeldCount(ws[1..], id)
  }

  function DoneCount(s: seq<Completion>, id: int): nat {
    if s == [] then 0 else (if s[0].candidate.id == id then 1 else 0) + DoneCount(s[1..], id)
  }

  function WaitCount(s: seq<Candidate>, id: int): nat {
    if s == [] then 0 else (if s[0].id == id then 1 else 0) + WaitCount(s[1..], id)
  }

  function Line(pending: map<string, seq<Candidate>>, p: string): seq<Candidate> {
    if p in pending then pending[p] else []
  }

  function WaitingCount(order: seq<string>, pending: map<string, seq<Candidate>>, id: int): nat {
    if order == [] then 0 else WaitCount(Line(pending, order[0]), id) + WaitingCount(order[1..], pending, id)
  }

  /** In how many places an id is: waiting lines, workers, the channel, the writer. */
  function Copies(w: World, id: int): nat {
    WaitingCount(w.q.order, w.q.pending, id) + HeldCount(w.workers, id) + DoneCount(w.results, id)
    + DoneCount(w.writer.batch, id) + DoneCount(w.writer.inHand, id)
  }

  function Busy(ws: seq<Worker>): nat {
    if ws == [] then 0 else (if Engaged(ws[0]) then 1 else 0) + Busy(ws[1..])
  }

  function BusyOn(ws: seq<Worker>, p: string): nat {
    if ws == [] then 0 else (if EngagedOn(ws[0], p) then 1 else 0) + BusyOn(ws[1..], p)
  }

  // ----- invariants ------------------------------------------------------

  ghost predicate Distinct(order: seq<string>) {
    forall i, j :: 0 <= i < j < |order| ==> order[i] != order[j]
  }

  ghost predicate OrderOk(order: seq<string>, cursor: nat) {
    Distinct(order) && (if order == [] then cursor == 0 else cursor < |order|)
  }

  ghost predicate LinesOk(order: seq<string>, pending: map<string, seq<Candidate>>) {
    && (forall p :: p in order <==> p in pending)
    && (forall p :: p in pending ==> NormalizePlatform(p) == p)
    && (forall p, i :: p in pending && 0 <= i < |pending[p]| ==> pending[p][i].platform == p)
  }

  ghost predicate WorkersOk(ws: seq<Worker>, pending: map<string, seq<Candidate>>) {
    forall i :: 0 <= i < |ws| && Engaged(ws[i]) ==> Holding(ws[i]).value.platform in pending
  }

  ghost predicate QueueShape(q: Queue) {
    OrderOk(q.order, q.cursor) && LinesOk(q.order, q.pending)
  }

  ghost predicate Shape(cfg: Config, w: World) {
    |w.workers| == cfg.workers && QueueShape(w.q) && WorkersOk(w.workers, w.q.pending)
  }

  /** Every queued id is in exactly one place, and nothing else is anywhere. */
  ghost predicate Partition(w: World) {
    forall id :: Copies(w, id) == if id in w.q.queued then 1 else 0
  }

  ghost predicate Accounting(w: World) {
    && w.q.active == Busy(w.workers)
    && forall p :: StateOf(w.q, p).inUse == BusyOn(w.workers, p)
  }

  ghost predicate CircuitOk(cfg: Config, st: PlatformState, clock: Time) {
    && st.inUse <= cfg.platformLimit
    && (st.halfOpen ==> st.inUse == 1 && st.circuitUntil.Some?)
    && (st.circuitUntil.Some? <==> st.failStreak >= cfg.circuitFailures)
    && (st.circuitUntil.Some? ==> st.circuitUntil.value <= clock + cfg.circuitCooldown)
  }

  ghost predicate Circuits(cfg: Config, w: World) {
    forall p :: CircuitOk(cfg, StateOf(w.q, p), w.clock)
  }

  ghost predicate Bounded(cfg: Config, w: World) {
    |w.q.queued| <= Capacity(cfg)
  }

  ghost predicate Lifecycle(w: World) {
    && (!w.q.started && !w.stopping ==> w.writer.phase.Finished?)
    && (w.stopping ==> !w.q.started)
    && (!w.writer.phase.Receiving? ==> AllExited(w.workers))
    && (w.writer.phase.Finished? ==> w.results == [] && w.writer == Writer(Finished, [], [], false))
  }

  // ----- no lost wake-up -------------------------------------------------

  /** Someone is about to look at the queue: a token is buffered, a scan is under way,
      or an actor that changed the state has yet to signal. */
  predicate Watchful(x: Worker) {
    x.Scanning? || x.ClaimDebt? || x.ReleaseDebt?
  }

  ghost predicate Attentive(w: World) {
    || w.wake || w.debts > 0 || w.writer.owes
    || exists i :: 0 <= i < |w.workers| && Watchful(w.workers[i])
  }

  /** A waiting candidate that a scan would take at any clock reading. */
  predicate ReadyClosed(cfg: Config, q: Queue, p: string) {
    var st := StateOf(q, p);
    PendingOn(q, p) != [] && st.circuitUntil.None? && st.inUse < cfg.platformLimit
  }

  /** A waiting candidate that becomes the probe of an open circuit at its deadline. */
  predicate ReadyProbe(q: Queue, p: string) {
    var st := StateOf(q, p);
    PendingOn(q, p) != [] && st.circuitUntil.Some? && st.inUse == 0
  }

  predicate Alarm(x: Worker, deadline: Time) {
    x.Parked? && x.timer.Some? && x.timer.value <= deadline
  }

  ghost predicate SomeAlarm(w: World, deadline: Time) {
    exists j :: 0 <= j < |w.workers| && Alarm(w.workers[j], deadline)
  }

  ghost predicate Awake(cfg: Config, w: World) {
    forall i :: 0 <= i < |w.workers| && w.workers[i].Parked? ==>
      && (forall p :: ReadyClosed(cfg, w.q, p) ==> Attentive(w))
      && (forall p :: ReadyProbe(w.q, p) && !w.cancelled ==>
            Attentive(w) || SomeAlarm(w, StateOf(w.q, p).circuitUntil.value))
  }

  ghost predicate Inv(cfg: Config, w: World) {
    && cfg.Valid()
    && Shape(cfg, w)
    && Partition(w)
    && Accounting(w)
    && Circuits(cfg, w)
    && Bounded(cfg, w)
    && Lifecycle(w)
    && Awake(cfg, w)
  }
}
