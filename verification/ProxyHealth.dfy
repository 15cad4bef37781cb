/** Which nodes can be leased, told from what happened to them: probes, releases, refreshes and their times. */
module ProxyHealth {
  import opened Text
  import Cooldown
  import opened ProxyPool

  type Time = Cooldown.Time

  /** An Acquire for the target may be given the node at this time. */
  predicate Leasable(cfg: Config, w: World, id: NodeId, target: string, excluded: set<NodeId>, now: Time) {
    Enabled(cfg, w, Label.Acquire(id, target, excluded, now, 0))
  }

  predicate Over(until: Option<Time>, now: Time) {
    until.Some? ==> until.value <= now
  }

  /** The target's cooldown on the node has passed, or there never was one. */
  predicate TargetRested(w: World, id: NodeId, target: string, now: Time) {
    id in w.nodes ==> Over(TargetOf(w.nodes[id], target).cooldownUntil, now)
  }

  // ----- what no lease does without --------------------------------------------

  /** A disabled, expired, excluded or full node is never leased, nor one that is not known. */
  lemma LeaseNeeds(cfg: Config, w: World, id: NodeId, target: string, excluded: set<NodeId>, now: Time)
    requires Inv(cfg, w) && Leasable(cfg, w, id, target, excluded, now)
    ensures id in w.nodes && w.nodes[id].enabled && now < w.nodes[id].expiresAt && id !in excluded
    ensures Held(w.leases, id) < cfg.maxPerNode
    ensures Over(w.nodes[id].failures.cooldownUntil, now) && TargetRested(w, id, target, now)
  {
    assert InflightOf(w.nodes, id) == Held(w.leases, id);
  }

  // ----- after a probe -----------------------------------------------------------

  /** After a successful probe the node can be leased exactly if it is enabled, not expired, has room, is not
      excluded, and the target is not cooling down on it. */
  lemma ProbedIsLeasable(cfg: Config, w: World, id: NodeId, probed: Node, target: string, excluded: set<NodeId>,
      now: Time)
    requires Inv(cfg, w)
    ensures Leasable(cfg, Step(cfg, w, Probe(id, probed, true, true)), id, target, excluded, now)
       <==> && probed.enabled && now < probed.expiresAt && Held(w.leases, id) < cfg.maxPerNode
            && id !in excluded && TargetRested(w, id, target, now)
  {
    assert InflightOf(w.nodes, id) == Held(w.leases, id);
  }

  /** After a failed one it cannot be leased, unless it is leased already and its last cooldown has passed. */
  lemma FailedProbeCloses(cfg: Config, w: World, id: NodeId, probed: Node, hasUrl: bool, target: string,
      excluded: set<NodeId>, now: Time)
    requires Inv(cfg, w) && Leasable(cfg, Step(cfg, w, Probe(id, probed, hasUrl, false)), id, target, excluded, now)
    ensures Held(w.leases, id) > 0 && id in w.nodes
    ensures w.nodes[id].failures.cooldownUntil.Some? && w.nodes[id].failures.cooldownUntil.value <= now
  {
    assert InflightOf(w.nodes, id) == Held(w.leases, id);
  }

  // ----- after a release ----------------------------------------------------------

  /** The lease is out, and its node is known and has room once it is back. */
  lemma ReleaseMakesRoom(cfg: Config, w: World, i: nat)
    requires Inv(cfg, w) && i < |w.leases| && !w.leases[i].released
    ensures var id := w.leases[i].id; id in w.nodes && 0 < w.nodes[id].inflight <= cfg.maxPerNode
  {
    ReleaseFindsItsLease(cfg, w, i);
    assert InflightOf(w.nodes, w.leases[i].id) <= cfg.maxPerNode;
  }

  /** After a release with success the node can be leased again exactly if it is enabled, not expired and not
      excluded; for another target, if that is not cooling down on it. */
  lemma SuccessIsLeasable(cfg: Config, w: World, i: nat, o: Outcome, at: Time, draws: Draws, target: string,
      excluded: set<NodeId>, now: Time)
    requires Inv(cfg, w) && i < |w.leases| && !w.leases[i].released && o.success
    ensures var id := w.leases[i].id;
      && id in w.nodes
      && (Leasable(cfg, Step(cfg, w, Release(i, o, at, draws)), id, target, excluded, now)
          <==> && w.nodes[id].enabled && now < w.nodes[id].expiresAt && id !in excluded
               && (target == w.leases[i].target || TargetRested(w, id, target, now)))
  {
    ReleaseMakesRoom(cfg, w, i);
  }

  /** A failure that does not say what failed is the node's; spaces and case of the scope do not matter. */
  lemma ScopeTold(o: Outcome)
    requires !o.success
    ensures ScopeOf(o) == "node" <==> TrimSpace(o.scope) == "" || ToLower(TrimSpace(o.scope)) == "node"
    ensures ScopeOf(o) == "target" <==> ToLower(TrimSpace(o.scope)) == "target"
  {
    LowerKeepsShape(TrimSpace(o.scope));
  }

  /** Until when a failure at this time makes its node or target rest. */
  function RestUntil(cfg: Config, st: Cooldown.FailureState, o: Outcome, at: Time,
      draw: Option<Cooldown.Duration>): Option<Time> {
    var law := Cooldown.CooldownOf(cfg.cooldown, st.consecutive + 1, draw);
    var wait := if o.retryAfter > law then o.retryAfter else law;
    if st.cooldownUntil.Some? && at < st.cooldownUntil.value then
      Some(if st.cooldownUntil.value < at + o.retryAfter then at + o.retryAfter else st.cooldownUntil.value)
    else if wait > 0 then Some(at + wait) else None
  }

  /** Outside a rest a failure starts one exactly from the threshold on, for at least what the law says, or if a wait
      was asked for, for at least that, provided its jitter does not leave 64 bits. */
  lemma RestsExactly(cfg: Config, st: Cooldown.FailureState, o: Outcome, at: Time, draw: Option<Cooldown.Duration>)
    requires cfg.Valid() && Over(st.cooldownUntil, at) && Cooldown.ValidDraw(cfg.cooldown, st.consecutive + 1, draw)
    requires draw.Some? ==> Cooldown.Law(cfg.cooldown, st.consecutive + 1) + draw.value <= MAX_INT64
    ensures var n, rest := st.consecutive + 1, RestUntil(cfg, st, o, at, draw);
      && (rest.Some? <==> n >= cfg.cooldown.threshold || o.retryAfter > 0)
      && (rest.Some? ==> rest.value >= at + Cooldown.Law(cfg.cooldown, n) && rest.value >= at + o.retryAfter)
      && (rest.Some? ==> rest.value <= at + cfg.cooldown.cooldownMax || rest.value == at + o.retryAfter)
  {
    var n := st.consecutive + 1;
    Cooldown.LawIsMonotone(cfg.cooldown, n, n);
    if n >= cfg.cooldown.threshold && draw.Some? {
      Cooldown.JitterStaysInRange(cfg.cooldown, n, draw.value);
    }
  }

  lemma RestIsNext(cfg: Config, st: Cooldown.FailureState, o: Outcome, at: Time, draw: Option<Cooldown.Duration>)
    ensures Cooldown.NextFailureState(cfg.cooldown, st, o.retryAfter, at, draw).cooldownUntil ==
            RestUntil(cfg, st, o, at, draw)
  {
  }

  /** After a failure of the node it cannot be leased for any target before its rest is over, and from then on
      exactly if it is enabled, not expired, not excluded and the target has rested too. Without a rest it can be
      leased as far as it was healthy. */
  lemma FailureRestsNode(cfg: Config, w: World, i: nat, o: Outcome, at: Time, draws: Draws, target: string,
      excluded: set<NodeId>, now: Time)
    requires Inv(cfg, w) && i < |w.leases| && !w.leases[i].released && !o.success && ScopeOf(o) == "node"
    ensures var id := w.leases[i].id;
      && id in w.nodes
      && var n := w.nodes[id];
         var rest := RestUntil(cfg, n.failures, o, at, draws.node);
         Leasable(cfg, Step(cfg, w, Release(i, o, at, draws)), id, target, excluded, now)
         <==> && n.enabled && now < n.expiresAt && id !in excluded
              && (if rest.Some? then rest.value <= now else n.status.Healthy?)
              && (if target != w.leases[i].target then TargetRested(w, id, target, now)
                  else Over(RestUntil(cfg, TargetOf(n, target), o, at, draws.target), now))
  {
    ReleaseMakesRoom(cfg, w, i);
    var n := w.nodes[w.leases[i].id];
    RestIsNext(cfg, n.failures, o, at, draws.node);
    RestIsNext(cfg, TargetOf(n, w.leases[i].target), o, at, draws.target);
  }

  /** After a failure of the target the node cannot be leased for it before its rest is over; for other targets
      nothing changes but that there is room. */
  lemma FailureRestsTarget(cfg: Config, w: World, i: nat, o: Outcome, at: Time, draws: Draws, target: string,
      excluded: set<NodeId>, now: Time)
    requires Inv(cfg, w) && i < |w.leases| && !w.leases[i].released && !o.success && ScopeOf(o) == "target"
    ensures var id := w.leases[i].id;
      && id in w.nodes
      && var n := w.nodes[id];
         Leasable(cfg, Step(cfg, w, Release(i, o, at, draws)), id, target, excluded, now)
         <==> && n.enabled && now < n.expiresAt && id !in excluded
              && Over(n.failures.cooldownUntil, now)
              && (n.status.Healthy? || (n.status.Cooling? && n.failures.cooldownUntil.Some?))
              && (if target != w.leases[i].target then TargetRested(w, id, target, now)
                  else Over(RestUntil(cfg, TargetOf(n, target), o, at, draws.target), now))
  {
    ReleaseMakesRoom(cfg, w, i);
    var n := w.nodes[w.leases[i].id];
    RestIsNext(cfg, TargetOf(n, w.leases[i].target), o, at, draws.target);
  }

  // ----- after a refresh -----------------------------------------------------------

  /** A node that a refresh loads can be leased right then exactly if its loaded record is enabled, not expired and
      healthy, or cooling with a past deadline, it has room, and neither the record nor what was known before has a
      cooldown running for it or for the target; where one was running, the old status counts. */
  lemma RefreshedIsLeasable(cfg: Config, w: World, loaded: Nodes, now: Time, id: NodeId, target: string,
      excluded: set<NodeId>)
    requires Inv(cfg, w) && Enabled(cfg, w, Refresh(loaded, now)) && id in loaded
    ensures var n := loaded[id];
      Leasable(cfg, Step(cfg, w, Refresh(loaded, now)), id, target, excluded, now)
      <==> && n.enabled && now < n.expiresAt && id !in excluded && Held(w.leases, id) < cfg.maxPerNode
           && (n.status.Healthy? || (n.status.Cooling? && n.failures.cooldownUntil.Some?))
           && Over(n.failures.cooldownUntil, now) && Over(TargetOf(n, target).cooldownUntil, now)
           && (id in w.nodes ==> Over(w.nodes[id].failures.cooldownUntil, now)) && TargetRested(w, id, target, now)
  {
    assert InflightOf(w.nodes, id) == Held(w.leases, id);
  }

  /** A node that is neither loaded nor leased is gone. */
  lemma DroppedIsGone(cfg: Config, w: World, loaded: Nodes, now: Time, id: NodeId)
    requires Inv(cfg, w) && Enabled(cfg, w, Refresh(loaded, now))
    ensures id in Step(cfg, w, Refresh(loaded, now)).nodes <==> id in loaded || Held(w.leases, id) > 0
  {
    assert InflightOf(w.nodes, id) == Held(w.leases, id);
  }

  // ----- rest over whole runs ---------------------------------------------------------

  predicate Before(l: Label, d: Time) {
    match l
    case Acquire(_, _, _, now, _) => now < d
    case Release(_, _, now, _) => now < d
    case Refresh(_, now) => now < d
    case Probe(_, _, _, _) => true
  }

  predicate AllBefore(run: seq<Label>, d: Time) {
    forall k :: 0 <= k < |run| ==> Before(run[k], d)
  }

  predicate SucceedsOn(w: World, l: Label, id: NodeId) {
    l.Release? && l.lease < |w.leases| && !w.leases[l.lease].released && w.leases[l.lease].id == id && l.outcome.success
  }

  /** What ends a node's rest early: a success on it, a successful probe, or its return after it was gone. */
  predicate Revives(w: World, l: Label, id: NodeId) {
    || SucceedsOn(w, l, id)
    || (l.Probe? && l.id == id && l.hasUrl && l.success)
    || (l.Refresh? && id in l.loaded && id !in w.nodes)
  }

  /** What ends a target's: a success for it, or the node's return. */
  predicate RevivesTarget(w: World, l: Label, id: NodeId, target: string) {
    || (SucceedsOn(w, l, id) && w.leases[l.lease].target == target)
    || (l.Probe? && l.id == id && l.hasUrl && l.success && id !in w.nodes)
    || (l.Refresh? && id in l.loaded && id !in w.nodes)
  }

  ghost predicate NothingRevives(cfg: Config, w: World, run: seq<Label>, id: NodeId)
    requires ValidRun(cfg, w, run)
    decreases run
  {
    run == [] || (!Revives(w, run[0], id) && NothingRevives(cfg, Step(cfg, w, run[0]), run[1..], id))
  }

  ghost predicate NothingRevivesTarget(cfg: Config, w: World, run: seq<Label>, id: NodeId, target: string)
    requires ValidRun(cfg, w, run)
    decreases run
  {
    run == [] || (
      && !RevivesTarget(w, run[0], id, target)
      && NothingRevivesTarget(cfg, Step(cfg, w, run[0]), run[1..], id, target))
  }

  predicate RestsUntil(st: Cooldown.FailureState, d: Time) {
    st.cooldownUntil.Some? && d <= st.cooldownUntil.value
  }

  predicate NodeRests(w: World, id: NodeId, d: Time) {
    id in w.nodes ==> RestsUntil(w.nodes[id].failures, d)
  }

  predicate TargetRests(w: World, id: NodeId, target: string, d: Time) {
    id in w.nodes ==> RestsUntil(TargetOf(w.nodes[id], target), d)
  }

  /** A failure during a rest does not shorten it. */
  lemma FailureKeepsRest(cfg: Config, st: Cooldown.FailureState, retryAfter: Cooldown.Duration, at: Time,
      draw: Option<Cooldown.Duration>, d: Time)
    requires RestsUntil(st, d) && at < d
    ensures RestsUntil(Cooldown.NextFailureState(cfg.cooldown, st, retryAfter, at, draw), d)
  {
  }

  lemma NodeRestsOnRelease(cfg: Config, w: World, l: Label, id: NodeId, d: Time)
    requires l.Release? && Enabled(cfg, w, l) && Before(l, d) && NodeRests(w, id, d) && !Revives(w, l, id)
    ensures NodeRests(Step(cfg, w, l), id, d)
  {
    if id in w.nodes && !w.leases[l.lease].released && w.leases[l.lease].id == id {
      FailureKeepsRest(cfg, w.nodes[id].failures, l.outcome.retryAfter, l.now, l.draws.node, d);
    }
  }

  lemma NodeRestsStep(cfg: Config, w: World, l: Label, id: NodeId, d: Time)
    requires Enabled(cfg, w, l) && Before(l, d) && NodeRests(w, id, d) && !Revives(w, l, id)
    ensures NodeRests(Step(cfg, w, l), id, d) && !(l.Acquire? && l.id == id)
  {
    if l.Release? {
      NodeRestsOnRelease(cfg, w, l, id, d);
    }
  }

  lemma TargetRestsOnRelease(cfg: Config, w: World, l: Label, id: NodeId, target: string, d: Time)
    requires l.Release? && Enabled(cfg, w, l) && Before(l, d) && TargetRests(w, id, target, d)
    requires !RevivesTarget(w, l, id, target)
    ensures TargetRests(Step(cfg, w, l), id, target, d)
  {
    if id in w.nodes && !w.leases[l.lease].released && w.leases[l.lease].id == id {
      FailureKeepsRest(cfg, TargetOf(w.nodes[id], target), l.outcome.retryAfter, l.now, l.draws.target, d);
    }
  }

  lemma TargetRestsStep(cfg: Config, w: World, l: Label, id: NodeId, target: string, d: Time)
    requires Enabled(cfg, w, l) && Before(l, d) && TargetRests(w, id, target, d) && !RevivesTarget(w, l, id, target)
    ensures TargetRests(Step(cfg, w, l), id, target, d) && !(l.Acquire? && l.id == id && l.target == target)
  {
    if l.Release? {
      TargetRestsOnRelease(cfg, w, l, id, target, d);
    } else if l.Refresh? && id in w.nodes && id in Step(cfg, w, l).nodes {
      RefreshKeepsCooldowns(w.nodes, l.loaded, l.now, id, target);
    }
  }

  /** Until its rest is over, a node is not leased, whatever else happens, unless something revives it. */
  lemma {:induction false} RestingNodeIsNotLeased(cfg: Config, w: World, run: seq<Label>, id: NodeId, d: Time)
    requires ValidRun(cfg, w, run) && AllBefore(run, d) && NodeRests(w, id, d) && NothingRevives(cfg, w, run, id)
    ensures forall k :: 0 <= k < |run| ==> !(run[k].Acquire? && run[k].id == id)
    decreases run
  {
    if run != [] {
      assert Before(run[0], d);
      NodeRestsStep(cfg, w, run[0], id, d);
      assert forall k :: 0 <= k < |run[1..]| ==> run[1..][k] == run[k + 1];
      RestingNodeIsNotLeased(cfg, Step(cfg, w, run[0]), run[1..], id, d);
      assert forall k :: 0 < k < |run| ==> run[k] == run[1..][k - 1];
    }
  }

  lemma {:induction false} RestingTargetIsNotLeased(cfg: Config, w: World, run: seq<Label>, id: NodeId, target: string,
      d: Time)
    requires ValidRun(cfg, w, run) && AllBefore(run, d) && TargetRests(w, id, target, d)
    requires NothingRevivesTarget(cfg, w, run, id, target)
    ensures forall k :: 0 <= k < |run| ==> !(run[k].Acquire? && run[k].id == id && run[k].target == target)
    decreases run
  {
    if run != [] {
      assert Before(run[0], d);
      TargetRestsStep(cfg, w, run[0], id, target, d);
      assert forall k :: 0 <= k < |run[1..]| ==> run[1..][k] == run[k + 1];
      RestingTargetIsNotLeased(cfg, Step(cfg, w, run[0]), run[1..], id, target, d);
      assert forall k :: 0 < k < |run| ==> run[k] == run[1..][k - 1];
    }
  }

  // ----- failures counted on the run ----------------------------------------------------

  predicate FailsOn(w: World, l: Label, id: NodeId) {
    && l.Release? && l.lease < |w.leases| && !w.leases[l.lease].released && w.leases[l.lease].id == id
    && !l.outcome.success && ScopeOf(l.outcome) == "node"
  }

  /** One more step. A success and a successful probe clear the failures, one during a rest does not count, and a
      refresh brings the store's count unless a rest is running. */
  function Struck(w: World, l: Label, id: NodeId, n: int): int {
    var rests := id in w.nodes && !l.Probe? && !Over(w.nodes[id].failures.cooldownUntil, l.now);
    if SucceedsOn(w, l, id) || (l.Probe? && l.id == id && l.hasUrl && l.success) then 0
    else if FailsOn(w, l, id) && !rests then n + 1
    else if l.Refresh? && id in l.loaded && !rests then l.loaded[id].failures.consecutive
    else n
  }

  /** The failures of a node in a row. */
  function Strikes(cfg: Config, w: World, run: seq<Label>, id: NodeId, n: int): int
    requires ValidRun(cfg, w, run)
    decreases run
  {
    if run == [] then n else Strikes(cfg, Step(cfg, w, run[0]), run[1..], id, Struck(w, run[0], id, n))
  }

  ghost predicate Counted(w: World, id: NodeId, n: int) {
    id in w.nodes ==> w.nodes[id].failures.consecutive == n
  }

  lemma StrikeStep(cfg: Config, w: World, l: Label, id: NodeId, n: int)
    requires Enabled(cfg, w, l) && Counted(w, id, n)
    ensures Counted(Step(cfg, w, l), id, Struck(w, l, id, n))
  {
  }

  lemma {:induction false} StrikesAreCounted(cfg: Config, w: World, run: seq<Label>, id: NodeId, n: int)
    requires ValidRun(cfg, w, run) && Counted(w, id, n)
    ensures Counted(After(cfg, w, run), id, Strikes(cfg, w, run, id, n))
    decreases run
  {
    if run != [] {
      StrikeStep(cfg, w, run[0], id, n);
      StrikesAreCounted(cfg, Step(cfg, w, run[0]), run[1..], id, Struck(w, run[0], id, n));
    }
  }

  /** The step is a failure of the node, outside a rest, that makes n in a row, at least the threshold; its jitter
      does not leave 64 bits. */
  ghost predicate LastStrike(cfg: Config, w: World, l: Label, id: NodeId, n: int) {
    && Enabled(cfg, w, l) && FailsOn(w, l, id)
    && id in w.nodes && Over(w.nodes[id].failures.cooldownUntil, l.now)
    && n >= cfg.cooldown.threshold && Cooldown.ValidDraw(cfg.cooldown, n, l.draws.node)
    && (l.draws.node.Some? ==> Cooldown.Law(cfg.cooldown, n) + l.draws.node.value <= MAX_INT64)
  }

  /** It makes the node rest at least as long as the law says for so many failures. */
  lemma StrikeRests(cfg: Config, w: World, l: Label, id: NodeId, n: int)
    requires cfg.Valid() && LastStrike(cfg, w, l, id, n + 1) && Counted(w, id, n)
    ensures NodeRests(Step(cfg, w, l), id, l.now + Cooldown.Law(cfg.cooldown, n + 1))
  {
    Cooldown.FailureNeverShortens(cfg.cooldown, w.nodes[id].failures, l.outcome.retryAfter, l.now, l.draws.node);
  }

  /** From the threshold-th failure of a node in a row on, counted on the run since it was first known, it is not
      leased for as long as the cooldown law says, unless something revives it. */
  lemma ThresholdFailuresRest(cfg: Config, run: seq<Label>, w: World, l: Label, v: World, id: NodeId,
      later: seq<Label>)
    requires cfg.Valid() && ValidRun(cfg, EMPTY, run) && w == After(cfg, EMPTY, run)
    requires LastStrike(cfg, w, l, id, Strikes(cfg, EMPTY, run, id, 0) + 1) && v == Step(cfg, w, l)
    requires ValidRun(cfg, v, later) && NothingRevives(cfg, v, later, id)
    requires AllBefore(later, l.now + Cooldown.Law(cfg.cooldown, Strikes(cfg, EMPTY, run, id, 0) + 1))
    ensures forall k :: 0 <= k < |later| ==> !(later[k].Acquire? && later[k].id == id)
  {
    var n := Strikes(cfg, EMPTY, run, id, 0);
    StrikesAreCounted(cfg, EMPTY, run, id, 0);
    StrikeRests(cfg, w, l, id, n);
    RestingNodeIsNotLeased(cfg, v, later, id, l.now + Cooldown.Law(cfg.cooldown, n + 1));
  }
}
