/** The collection runner as a protocol: executors that run or resume items, calls that record
    an externally finished search, and recovery, on one store of pending, running and terminal items.
    Every repository call may fail, and a failed call may still have had its effect. */
module Runner {
  import opened Text

  datatype Status = Pending | Running | Terminal

  /** What came of a repository call: a failed one may have had its effect all the same. */
  datatype Call = NotMade | Succeeded | Failed(applied: bool)

  /** An item of a batch. create, mark and complete record what came of the calls
      by which an external item was recorded. */
  datatype Item = Item(external: bool, status: Status, create: Call, mark: Call, complete: Call)

  function Internal(status: Status): Item {
    Item(false, status, NotMade, NotMade, NotMade)
  }

  function Outcome(ok: bool, applied: bool): Call {
    if ok then Succeeded else Failed(applied)
  }

  /** The call changed the store. */
  predicate TookEffect(c: Call) {
    c == Succeeded || c == Failed(true)
  }

  /** Created and marked, and completed at least in the store. */
  predicate Recorded(item: Item) {
    item.create == Succeeded && item.mark == Succeeded && TookEffect(item.complete)
  }

  /** Where a goroutine stands. */
  datatype Place =
    | Idle
    | ExternalWaits              // about to take the persistence lock
    | ExternalCreates            // holds the lock from here ...
    | ExternalMarks(item: nat)
    | ExternalCompletes(item: nat)
    | ExternalLeaves(left: Option<nat>) // ... to here, with the item it has created in the store
    | Claims(starting: bool)     // has the active flag, about to claim: a starter or a running executor
    | HandsRun(item: nat)        // a starter, about to hand the flag and the claimed item to a new goroutine
    | Runs(item: nat)            // an executor with a claimed item
    | BatchRecovers              // a starter, about to recover, then to create its batch
    | BatchCreates
    | HandsBatch(todo: seq<nat>) // ... about to hand the flag and the batch to a new goroutine
    | BatchMarks(todo: seq<nat>) // an executor with items of its batch still to run
    | BatchRuns(item: nat, todo: seq<nat>)
    | Releases                   // about to give the active flag back

  datatype World = World(
    items: seq<Item>,
    threads: seq<Place>,
    persist: Option<nat>,        // who holds the persistence lock
    active: bool,
    recovered: bool)

  /** What one goroutine does next. ok: the repository call succeeds; applied: it had its effect although it failed. */
  datatype Event =
    | StartExternal
    | StartPending
    | StartBatch
    | Restart
    | Lock
    | FindFails
    | Create(ok: bool, applied: bool)
    | Mark(ok: bool, applied: bool)
    | Complete(ok: bool, applied: bool)
    | Unlock
    | Claim(taken: Option<nat>, ok: bool)
    | Recover(ok: bool, applied: bool)
    | CreateBatch(count: nat, ok: bool, applied: bool)
    | HandOver
    | Finish
    | Cancel
    | ReleaseActive

  predicate HoldsLock(p: Place) {
    p.ExternalCreates? || p.ExternalMarks? || p.ExternalCompletes? || p.ExternalLeaves?
  }

  /** The goroutine answers for the active flag. */
  predicate Executes(p: Place) {
    || p.Claims? || p.HandsRun? || p.Runs? || p.BatchRecovers? || p.BatchCreates? || p.HandsBatch?
    || p.BatchMarks? || p.BatchRuns? || p.Releases?
  }

  predicate HandsOver(p: Place) {
    p.HandsRun? || p.HandsBatch?
  }

  predicate ItemIn(items: seq<Item>, i: nat, status: Status) {
    i < |items| && items[i].status == status
  }

  /** The sections that lock and unlock around one repository call are one step and need the lock free. */
  predicate Enabled(w: World, t: nat, e: Event) {
    && t < |w.threads|
    && var p := w.threads[t];
      match e
      case StartExternal => p.Idle?
      case StartPending => p.Idle? && !w.active
      case StartBatch => p.Idle? && !w.active
      case Restart => p.Idle?
      case Lock => p.ExternalWaits? && w.persist.None?
      case FindFails => p.ExternalCreates?
      case Create(_, _) => p.ExternalCreates?
      case Mark(_, _) => p.ExternalMarks? || (p.BatchMarks? && p.todo != [])
      case Complete(_, _) => p.ExternalCompletes? || p.Runs? || p.BatchRuns?
      case Unlock => p.ExternalLeaves?
      case Claim(taken, _) => p.Claims? && w.persist.None? && (taken.Some? ==> ItemIn(w.items, taken.value, Pending))
      case Recover(_, _) => (p.BatchRecovers? || p.Idle?) && w.persist.None?
      case CreateBatch(_, _, _) => p.BatchCreates?
      case HandOver => HandsOver(p)
      case Finish => p.BatchMarks? && p.todo == []
      case Cancel => Executes(p) && !HandsOver(p) && !p.Releases?
      case ReleaseActive => p.Releases?
  }

  // ----- effects on the items ----------------------------------------------

  function SetStatus(items: seq<Item>, i: nat, status: Status): seq<Item> {
    if i < |items| then items[i := items[i].(status := status)] else items
  }

  /** Marking an external item. */
  function Marked(items: seq<Item>, i: nat, call: Call): seq<Item> {
    if i >= |items| then items
    else items[i := items[i].(mark := call, status := if TookEffect(call) then Running else items[i].status)]
  }

  /** Completing an external item. */
  function Completed(items: seq<Item>, i: nat, call: Call): seq<Item> {
    if i >= |items| then items
    else items[i := items[i].(complete := call, status := if TookEffect(call) then Terminal else items[i].status)]
  }

  /** Abandoned running items go back to pending. */
  function Reset(items: seq<Item>): seq<Item> {
    seq(|items|, i requires 0 <= i < |items| =>
      if items[i].status == Running then items[i].(status := Pending) else items[i])
  }

  function NewItems(count: nat): (r: seq<Item>)
    ensures |r| == count && forall i :: 0 <= i < count ==> r[i] == Internal(Pending)
  {
    seq(count, i requires 0 <= i < count => Internal(Pending))
  }

  function Ids(from: nat, count: nat): seq<nat> {
    seq(count, i requires 0 <= i < count => from + i)
  }

  function ItemsAfter(w: World, p: Place, e: Event): seq<Item> {
    var items := w.items;
    match e
    case Create(ok, applied) =>
      if ok || applied then items + [Item(true, Pending, Outcome(ok, applied), NotMade, NotMade)] else items
    case Mark(ok, applied) =>
      if p.ExternalMarks? then Marked(items, p.item, Outcome(ok, applied))
      else if p.BatchMarks? && p.todo != [] && (ok || applied) then SetStatus(items, p.todo[0], Running)
      else items
    case Complete(ok, applied) =>
      if p.ExternalCompletes? then Completed(items, p.item, Outcome(ok, applied))
      else if (p.Runs? || p.BatchRuns?) && (ok || applied) then SetStatus(items, p.item, Terminal)
      else items
    case Claim(taken, _) => if taken.Some? then SetStatus(items, taken.value, Running) else items
    case Recover(ok, applied) => if !w.recovered && (ok || applied) then Reset(items) else items
    case CreateBatch(count, ok, applied) => if ok || applied then items + NewItems(count) else items
    case _ => items
  }

  /** Where the goroutine is afterwards; whatever ends an executor or a starter leads to Releases. */
  function PlaceAfter(w: World, p: Place, e: Event): Place {
    match e
    case StartExternal => ExternalWaits
    case StartPending => Claims(true)
    case StartBatch => BatchRecovers
    case Restart => Idle
    case Lock => ExternalCreates
    case FindFails => ExternalLeaves(None)
    case Create(ok, applied) =>
      if ok then ExternalMarks(|w.items|) else ExternalLeaves(if applied then Some(|w.items|) else None)
    case Mark(ok, _) =>
      if p.ExternalMarks? then if ok then ExternalCompletes(p.item) else ExternalLeaves(Some(p.item))
      else if ok && p.BatchMarks? && p.todo != [] then BatchRuns(p.todo[0], p.todo[1..])
      else Releases
    case Complete(ok, _) =>
      if p.ExternalCompletes? then ExternalLeaves(Some(p.item))
      else if ok && p.Runs? then Claims(false)
      else if ok && p.BatchRuns? then BatchMarks(p.todo)
      else Releases
    case Unlock => Idle
    case Claim(taken, ok) =>
      if !ok || taken.None? then Releases
      else if p.Claims? && p.starting then HandsRun(taken.value)
      else Runs(taken.value)
    case Recover(ok, _) => if p.Idle? then Idle else if ok then BatchCreates else Releases
    case CreateBatch(count, ok, _) => if ok && count > 0 then HandsBatch(Ids(|w.items|, count)) else Releases
    case HandOver => Idle
    case Finish => Releases
    case Cancel => Releases
    case ReleaseActive => Idle
  }

  /** The goroutine that a hand-over starts. */
  function Spawned(p: Place, e: Event): seq<Place> {
    if !e.HandOver? then []
    else if p.HandsRun? then [Runs(p.item)]
    else if p.HandsBatch? then [BatchMarks(p.todo)]
    else []
  }

  function PersistAfter(w: World, t: nat, e: Event): Option<nat> {
    if e.Lock? then Some(t) else if e.Unlock? then None else w.persist
  }

  /** The flag changes in acquireActive and in releaseActive, and nowhere else. */
  function ActiveAfter(w: World, e: Event): bool {
    if e.StartPending? || e.StartBatch? then true else if e.ReleaseActive? then false else w.active
  }

  function RecoveredAfter(w: World, e: Event): bool {
    match e
    case Mark(ok, _) => w.recovered && ok
    case Complete(ok, _) => w.recovered && ok
    case Claim(_, ok) => w.recovered && ok
    case Recover(ok, _) => w.recovered || ok
    case Restart => false
    case _ => w.recovered
  }

  function Step(w: World, t: nat, e: Event): World
    requires Enabled(w, t, e)
  {
    var p := w.threads[t];
    World(
      ItemsAfter(w, p, e),
      w.threads[t := PlaceAfter(w, p, e)] + Spawned(p, e),
      PersistAfter(w, t, e),
      ActiveAfter(w, e),
      RecoveredAfter(w, e))
  }

  // ----- the invariant ---------------------------------------------------------

  /** The lock is with the goroutine that holds it. */
  ghost predicate LockExclusive(w: World) {
    && (forall t :: 0 <= t < |w.threads| && HoldsLock(w.threads[t]) ==> w.persist == Some(t))
    && (w.persist.Some? ==> w.persist.value < |w.threads| && HoldsLock(w.threads[w.persist.value]))
  }

  /** At most one goroutine answers for the flag, only while it is set, and one does whenever it is. */
  ghost predicate FlagExclusive(w: World) {
    && (forall t :: 0 <= t < |w.threads| && Executes(w.threads[t]) ==> w.active)
    && (forall t, u :: 0 <= t < u < |w.threads| ==> !(Executes(w.threads[t]) && Executes(w.threads[u])))
    && (w.active ==> exists t :: 0 <= t < |w.threads| && Executes(w.threads[t]))
  }

  /** The goroutine is the one that records this item. */
  predicate Records(p: Place, i: nat) {
    p == ExternalMarks(i) || p == ExternalCompletes(i) || p == ExternalLeaves(Some(i))
  }

  /** An external item is recorded, and then terminal, or in the hands of the holder of the lock, or its
      recording has failed and it is like any other item. */
  predicate Guarded(w: World, i: nat)
    requires i < |w.items|
  {
    w.items[i].external ==>
      || (w.persist.Some? && w.persist.value < |w.threads| && Records(w.threads[w.persist.value], i))
      || (Recorded(w.items[i]) ==> w.items[i].status == Terminal)
  }

  /** An item an executor may hold: not one whose recording is under way or went well. */
  predicate Abandoned(w: World, i: nat) {
    && i < |w.items|
    && (w.items[i].external ==> !Recorded(w.items[i]))
    && !(w.persist.Some? && w.persist.value < |w.threads| && Records(w.threads[w.persist.value], i))
  }

  predicate AllInternal(items: seq<Item>, todo: seq<nat>) {
    forall k :: 0 <= k < |todo| ==> todo[k] < |items| && !items[todo[k]].external
  }

  /** What a goroutine knows of the items it names. */
  predicate Knows(w: World, p: Place) {
    match p
    case ExternalMarks(i) => i < |w.items| && w.items[i] == Item(true, Pending, Succeeded, NotMade, NotMade)
    case ExternalCompletes(i) => i < |w.items| && w.items[i] == Item(true, Running, Succeeded, Succeeded, NotMade)
    case ExternalLeaves(Some(i)) =>
      i < |w.items| && w.items[i].external && (w.items[i].status == Terminal <==> Recorded(w.items[i]))
    case HandsRun(i) => Abandoned(w, i)
    case Runs(i) => Abandoned(w, i)
    case HandsBatch(todo) => AllInternal(w.items, todo)
    case BatchMarks(todo) => AllInternal(w.items, todo)
    case BatchRuns(i, todo) => AllInternal(w.items, [i]) && AllInternal(w.items, todo)
    case _ => true
  }

  ghost predicate Inv(w: World) {
    && LockExclusive(w) && FlagExclusive(w)
    && (forall i :: 0 <= i < |w.items| ==> Guarded(w, i))
    && (forall t :: 0 <= t < |w.threads| ==> Knows(w, w.threads[t]))
  }
}
