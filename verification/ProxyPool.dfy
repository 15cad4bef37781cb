/** Proxy leases: the in-flight counts of the node map across Acquire, Release, the
    wholesale replacement of the map by Refresh, and probe results. */
module ProxyPool {
  import opened Text
  import opened Cooldown

  datatype Status = Healthy | Cooling | Unusable

  datatype Node = Node(
    enabled: bool,
    expiresAt: Time,
    status: Status,
    failures: FailureState,
    inflight: nat,
    targets: map<string, FailureState>)

  type NodeId = n: int | InInt64(n) witness 0

  type Nodes = map<NodeId, Node>

  datatype Config = Config(maxPerNode: int, cooldown: Cooldown.Config)
  {
    predicate Valid() {
      maxPerNode > 0 && cooldown.Valid()
    }
  }

  const FRESH := FailureState(0, None)

  function TargetOf(n: Node, target: string): FailureState {
    if target in n.targets then n.targets[target] else FRESH
  }

  /** proxyAvailableLocked, for a node that is in the map. */
  predicate Available(cfg: Config, n: Node, target: string, excluded: bool, now: Time) {
    && n.enabled && n.expiresAt > now && n.inflight < cfg.maxPerNode
    && (n.status.Healthy? || n.status.Cooling?)
    && !Active(n.failures, now)
    && !(n.status.Cooling? && n.failures.cooldownUntil.None?)
    && !excluded
    && !Active(TargetOf(n, target), now)
  }

  // ----- the locked sections ---------------------------------------------

  function Leased(nodes: Nodes, id: NodeId): Nodes
    requires id in nodes
  {
    nodes[id := nodes[id].(inflight := nodes[id].inflight + 1)]
  }

  datatype Outcome = Outcome(success: bool, scope: string, retryAfter: Duration)

  /** The scope completeLease acts on: an unnamed failure is the node's. */
  function ScopeOf(o: Outcome): string {
    var scope := ToLower(TrimSpace(o.scope));
    if !o.success && scope == "" then "node" else scope
  }

  /** The random additions drawn for the node's and for the target's cooldown. */
  datatype Draws = Draws(node: Option<Duration>, target: Option<Duration>)

  function Pred(n: nat): nat {
    if n > 0 then n - 1 else n
  }

  function CompletedNode(cfg: Config, n: Node, target: string, o: Outcome, now: Time, draws: Draws): Node {
    var left := n.(inflight := Pred(n.inflight));
    var st := TargetOf(n, target);
    if o.success then
      left.(status := Healthy, failures := FRESH, targets := n.targets[target := FRESH])
    else if ScopeOf(o) == "node" then
      var failures := NextFailureState(cfg.cooldown, n.failures, o.retryAfter, now, draws.node);
      left.(failures := failures,
            status := if failures.cooldownUntil.Some? then Cooling else n.status,
            targets := n.targets[target := NextFailureState(cfg.cooldown, st, o.retryAfter, now, draws.target)])
    else if ScopeOf(o) == "target" then
      left.(targets := n.targets[target := NextFailureState(cfg.cooldown, st, o.retryAfter, now, draws.target)])
    else
      left.(targets := n.targets[target := st])
  }

  function Completed(cfg: Config, nodes: Nodes, id: NodeId, target: string, o: Outcome, now: Time,
      draws: Draws): Nodes {
    if id in nodes then nodes[id := CompletedNode(cfg, nodes[id], target, o, now, draws)] else nodes
  }

  /** Of two records of one target, keep the old one while it cools down longer. */
  function MergedTarget(loaded: Option<FailureState>, previous: FailureState, now: Time): Option<FailureState> {
    if !Active(previous, now) then loaded
    else if loaded.None? || loaded.value.cooldownUntil.None?
            || loaded.value.cooldownUntil.value < previous.cooldownUntil.value
    then Some(previous) else loaded
  }

  function Lookup(targets: map<string, FailureState>, target: string): Option<FailureState> {
    if target in targets then Some(targets[target]) else None
  }

  function MergedTargets(loaded: map<string, FailureState>, previous: map<string, FailureState>,
      now: Time): map<string, FailureState> {
    map t | t in loaded.Keys + previous.Keys && (t in loaded || Active(previous[t], now)) ::
      if t in previous then MergedTarget(Lookup(loaded, t), previous[t], now).value else loaded[t]
  }

  /** A node that stays: the loaded record, with the lease count and any running cooldown
      of the one it replaces. */
  function CarriedNode(loaded: Node, previous: Node, now: Time): Node {
    var n := loaded.(inflight := previous.inflight, targets := MergedTargets(loaded.targets, previous.targets, now));
    if Active(previous.failures, now) then n.(status := previous.status, failures := previous.failures) else n
  }

  /** Refresh under the lock: loaded replaces the map, except that leased nodes survive. */
  function Refreshed(nodes: Nodes, loaded: Nodes, now: Time): Nodes {
    map id | id in loaded.Keys + nodes.Keys && (id in loaded || nodes[id].inflight > 0) ::
      if id !in loaded then nodes[id].(status := Cooling)
      else if id in nodes then CarriedNode(loaded[id], nodes[id], now)
      else loaded[id]
  }

  /** recordProbeResult under the lock. probed is the node record the probe was given;
      hasUrl says whether its address could be decrypted. */
  function Probed(nodes: Nodes, id: NodeId, probed: Node, hasUrl: bool, success: bool): Nodes {
    if success then
      if !hasUrl then nodes
      else if id in nodes then
        nodes[id := probed.(status := Healthy, failures := FRESH, inflight := nodes[id].inflight,
            targets := nodes[id].targets)]
      else nodes[id := probed.(status := Healthy, failures := FRESH, inflight := 0, targets := map[])]
    else if id in nodes then
      if nodes[id].inflight > 0 then nodes[id := nodes[id].(status := Cooling)] else nodes - {id}
    else nodes
  }

  // ----- the protocol ----------------------------------------------------

  /** A lease, and whose it is: owners are the calls that acquire. */
  datatype Lease = Lease(id: NodeId, target: string, owner: nat, released: bool)

  datatype World = World(nodes: Nodes, inUse: nat, leases: seq<Lease>)

  datatype Label =
    | Acquire(id: NodeId, target: string, excluded: set<NodeId>, now: Time, owner: nat)
    | Release(lease: nat, outcome: Outcome, now: Time, draws: Draws)
    | Refresh(loaded: Nodes, now: Time)
    | Probe(id: NodeId, probed: Node, hasUrl: bool, success: bool)

  predicate Enabled(cfg: Config, w: World, l: Label) {
    match l
    case Acquire(id, target, excluded, now, _) =>
      id in w.nodes && Available(cfg, w.nodes[id], target, id in excluded, now)
    case Release(i, _, _, _) => i < |w.leases|
    case Refresh(loaded, _) => forall id :: id in loaded ==> loaded[id].inflight == 0
    case Probe(_, _, _, _) => true
  }

  function Step(cfg: Config, w: World, l: Label): World
    requires Enabled(cfg, w, l)
  {
    match l
    case Acquire(id, target, _, _, owner) =>
      World(Leased(w.nodes, id), w.inUse + 1, w.leases + [Lease(id, target, owner, false)])
    case Release(i, o, now, draws) =>
      // sync.Once: only the first Release of a lease reaches the pool.
      var x := w.leases[i];
      if x.released then w
      else World(Completed(cfg, w.nodes, x.id, x.target, o, now, draws), Pred(w.inUse),
                 w.leases[i := x.(released := true)])
    case Refresh(loaded, now) => w.(nodes := Refreshed(w.nodes, loaded, now))
    case Probe(id, probed, hasUrl, success) => w.(nodes := Probed(w.nodes, id, probed, hasUrl, success))
  }

  function Held(ls: seq<Lease>, id: NodeId): nat {
    if ls == [] then 0 else (if ls[0].id == id && !ls[0].released then 1 else 0) + Held(ls[1..], id)
  }

  function HeldTotal(ls: seq<Lease>): nat {
    if ls == [] then 0 else (if ls[0].released then 0 else 1) + HeldTotal(ls[1..])
  }

  function InflightOf(nodes: Nodes, id: NodeId): nat {
    if id in nodes then nodes[id].inflight else 0
  }

  /** Each node's in-flight count is its number of unreleased leases (so an id missing from
      the map has none), inUse is their total, and no node exceeds its limit. */
  ghost predicate Inv(cfg: Config, w: World) {
    && (forall id :: InflightOf(w.nodes, id) == Held(w.leases, id))
    && w.inUse == HeldTotal(w.leases)
    && (forall id :: InflightOf(w.nodes, id) <= cfg.maxPerNode)
  }

  // ----- counting --------------------------------------------------------

  lemma {:induction false} HeldSnoc(ls: seq<Lease>, x: Lease, id: NodeId)
    ensures Held(ls + [x], id) == Held(ls, id) + (if x.id == id && !x.released then 1 else 0)
    ensures HeldTotal(ls + [x]) == HeldTotal(ls) + (if x.released then 0 else 1)
  {
    if ls == [] {
      assert ls + [x] == [x];
    } else {
      HeldSnoc(ls[1..], x, id);
      assert (ls + [x])[1..] == ls[1..] + [x];
    }
  }

  lemma {:induction false} HeldRelease(ls: seq<Lease>, i: nat, id: NodeId)
    requires i < |ls| && !ls[i].released
    ensures var after := ls[i := ls[i].(released := true)];
            && Held(ls, id) == Held(after, id) + (if ls[i].id == id then 1 else 0)
            && HeldTotal(ls) == HeldTotal(after) + 1
  {
    var y := ls[i].(released := true);
    if i == 0 {
      assert ls[i := y][1..] == ls[1..];
    } else {
      HeldRelease(ls[1..], i - 1, id);
      assert ls[i := y][1..] == ls[1..][i - 1 := y];
    }
  }

  // ----- every step keeps the balance ------------------------------------

  lemma RefreshKeepsInflight(nodes: Nodes, loaded: Nodes, now: Time, id: NodeId)
    requires forall x :: x in loaded ==> loaded[x].inflight == 0
    ensures InflightOf(Refreshed(nodes, loaded, now), id) == InflightOf(nodes, id)
  {
  }

  lemma ProbeKeepsInflight(nodes: Nodes, id: NodeId, probed: Node, hasUrl: bool, success: bool, x: NodeId)
    ensures InflightOf(Probed(nodes, id, probed, hasUrl, success), x) == InflightOf(nodes, x)
  {
  }

  /** The `> 0` guards of completeLease never hide an underflow. */
  lemma ReleaseFindsItsLease(cfg: Config, w: World, i: nat)
    requires Inv(cfg, w) && i < |w.leases| && !w.leases[i].released
    ensures w.leases[i].id in w.nodes && w.nodes[w.leases[i].id].inflight > 0 && w.inUse > 0
  {
    var id := w.leases[i].id;
    HeldRelease(w.leases, i, id);
    assert InflightOf(w.nodes, id) == Held(w.leases, id);
  }

  lemma StepKeepsBalance(cfg: Config, w: World, l: Label, id: NodeId)
    requires Inv(cfg, w) && Enabled(cfg, w, l)
    ensures var r := Step(cfg, w, l);
            && InflightOf(r.nodes, id) == Held(r.leases, id) <= cfg.maxPerNode
            && r.inUse == HeldTotal(r.leases)
  {
    assert InflightOf(w.nodes, id) == Held(w.leases, id) <= cfg.maxPerNode;
    match l
    case Acquire(x, target, _, _, owner) => HeldSnoc(w.leases, Lease(x, target, owner, false), id);
    case Release(i, _, _, _) =>
      if !w.leases[i].released {
        ReleaseFindsItsLease(cfg, w, i);
        HeldRelease(w.leases, i, id);
      }
    case Refresh(loaded, now) => RefreshKeepsInflight(w.nodes, loaded, now, id);
    case Probe(x, probed, hasUrl, success) => ProbeKeepsInflight(w.nodes, x, probed, hasUrl, success, id);
  }

  lemma InvStep(cfg: Config, w: World, l: Label)
    requires Inv(cfg, w) && Enabled(cfg, w, l)
    ensures Inv(cfg, Step(cfg, w, l))
  {
    var r := Step(cfg, w, l);
    forall id
      ensures InflightOf(r.nodes, id) == Held(r.leases, id)
      ensures InflightOf(r.nodes, id) <= cfg.maxPerNode
    {
      StepKeepsBalance(cfg, w, l, id);
    }
    StepKeepsBalance(cfg, w, l, 0);
  }

  predicate ValidRun(cfg: Config, w: World, run: seq<Label>)
    decreases run
  {
    run == [] || (Enabled(cfg, w, run[0]) && ValidRun(cfg, Step(cfg, w, run[0]), run[1..]))
  }

  function After(cfg: Config, w: World, run: seq<Label>): World
    requires ValidRun(cfg, w, run)
    decreases run
  {
    if run == [] then w else After(cfg, Step(cfg, w, run[0]), run[1..])
  }

  const EMPTY := World(map[], 0, [])

  lemma {:induction false} InvAlongRun(cfg: Config, w: World, run: seq<Label>)
    requires Inv(cfg, w) && ValidRun(cfg, w, run)
    ensures Inv(cfg, After(cfg, w, run))
    decreases run
  {
    if run != [] {
      InvStep(cfg, w, run[0]);
      InvAlongRun(cfg, Step(cfg, w, run[0]), run[1..]);
    }
  }

  /** Lease conservation over every interleaving. */
  lemma LeasesAreConserved(cfg: Config, run: seq<Label>)
    requires cfg.Valid() && ValidRun(cfg, EMPTY, run)
    ensures Inv(cfg, After(cfg, EMPTY, run))
  {
    InvAlongRun(cfg, EMPTY, run);
  }

  /** Once every lease is back, the pool counts nothing in use. */
  lemma AllReleasedMeansIdle(cfg: Config, run: seq<Label>, id: NodeId)
    requires cfg.Valid() && ValidRun(cfg, EMPTY, run)
    requires forall i :: 0 <= i < |After(cfg, EMPTY, run).leases| ==> After(cfg, EMPTY, run).leases[i].released
    ensures var w := After(cfg, EMPTY, run);
            w.inUse == 0 && InflightOf(w.nodes, id) == 0
  {
    LeasesAreConserved(cfg, run);
    NoneHeld(After(cfg, EMPTY, run).leases, id);
  }

  lemma {:induction false} NoneHeld(ls: seq<Lease>, id: NodeId)
    requires forall i :: 0 <= i < |ls| ==> ls[i].released
    ensures Held(ls, id) == 0 && HeldTotal(ls) == 0
  {
    if ls != [] {
      NoneHeld(ls[1..], id);
    }
  }

  // ----- what Refresh keeps ----------------------------------------------

  /** A refresh never cuts a running cooldown short, neither the node's nor a target's. */
  lemma RefreshKeepsCooldowns(nodes: Nodes, loaded: Nodes, now: Time, id: NodeId, target: string)
    requires id in nodes && id in Refreshed(nodes, loaded, now)
    ensures var before, after := nodes[id], Refreshed(nodes, loaded, now)[id];
            && (Active(before.failures, now) ==> after.failures == before.failures)
            && (Active(TargetOf(before, target), now) ==>
                  && Active(TargetOf(after, target), now)
                  && TargetOf(after, target).cooldownUntil.value >= TargetOf(before, target).cooldownUntil.value)
  {
  }

  /** A node kept only because it is leased is closed to new leases exactly when it has no
      elapsed cooldown on record: with one, proxyAvailableLocked lets it through. */
  lemma DroppedNodeIsLeasable(cfg: Config, nodes: Nodes, loaded: Nodes, now: Time, id: NodeId, target: string)
    requires id in nodes && id !in loaded && 0 < nodes[id].inflight < cfg.maxPerNode
    requires nodes[id].enabled && nodes[id].expiresAt > now && !Active(TargetOf(nodes[id], target), now)
    ensures id in Refreshed(nodes, loaded, now)
    ensures Available(cfg, Refreshed(nodes, loaded, now)[id], target, false, now)
       <==> nodes[id].failures.cooldownUntil.Some? && nodes[id].failures.cooldownUntil.value <= now
  {
  }
}
