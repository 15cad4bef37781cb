/** The proxy service object: the node map and the sticky routes as its methods change
    them under the mutex. */
module ProxyService {
  import opened Text
  import opened Collections
  import opened Cooldown
  import opened ProxyPool

  datatype StickyEntry = StickyEntry(node: NodeId, expiresAt: Time, lastUsed: Time)

  type Sticky = map<string, StickyEntry>

  const SEPARATOR: string := "\0"

  /** The target part of a sticky key: everything before the first NUL. */
  function KeyTarget(key: string): string {
    if key == "" || key[0] == '\0' then "" else [key[0]] + KeyTarget(key[1..])
  }

  /** stickyNodeUsableLocked. */
  predicate NodeUsable(nodes: Nodes, id: NodeId, target: string, now: Time) {
    && id in nodes
    && var n := nodes[id];
       && n.enabled && n.expiresAt > now
       && (n.status.Healthy? || n.status.Cooling?)
       && !Active(n.failures, now)
       && !(n.status.Cooling? && n.failures.cooldownUntil.None?)
       && !Active(TargetOf(n, target), now)
  }

  predicate RouteUsable(nodes: Nodes, key: string, e: StickyEntry, now: Time) {
    e.expiresAt > now && NodeUsable(nodes, e.node, KeyTarget(key), now)
  }

  function UsableRoutes(nodes: Nodes, sticky: Sticky, now: Time): Sticky {
    map key | key in sticky && RouteUsable(nodes, key, sticky[key], now) :: sticky[key]
  }

  /** kept holds as many of the routes as the limit allows, and none of those it drops was
      used more recently than one it keeps. */
  ghost predicate KeepsRecent(routes: Sticky, kept: Sticky, limit: nat) {
    && kept.Keys <= routes.Keys
    && (forall key :: key in kept ==> kept[key] == routes[key])
    && |kept| == (if |routes| <= limit then |routes| else limit)
    && forall a, b :: a in routes && a !in kept && b in kept ==> routes[a].lastUsed <= kept[b].lastUsed
  }

  /** invalidateStickyLocked(id, target). */
  predicate Points(key: string, e: StickyEntry, id: NodeId, target: string) {
    e.node == id && (target == "" || target + SEPARATOR <= key)
  }

  function WithoutRoutes(sticky: Sticky, id: NodeId, target: string): Sticky {
    map key | key in sticky && !Points(key, sticky[key], id, target) :: sticky[key]
  }

  datatype ServiceConfig = ServiceConfig(enabled: bool, pool: ProxyPool.Config, stickyTTL: Duration, stickyMax: nat)

  datatype Request = Request(targetType: string, targetKey: string, stickyKey: string, excluded: set<NodeId>)
  {
    function Target(): string {
      targetType + ":" + targetKey
    }

    function Route(): string {
      Target() + SEPARATOR + stickyKey
    }
  }

  datatype AcquireResult = Granted(id: NodeId) | Disabled | Cancelled | NoProxy

  predicate Free(cfg: ServiceConfig, nodes: Nodes, id: NodeId, r: Request, now: Time) {
    id in nodes && Available(cfg.pool, nodes[id], r.Target(), id in r.excluded, now)
  }

  ghost predicate NobodyFree(cfg: ServiceConfig, nodes: Nodes, r: Request, now: Time) {
    forall id :: id in nodes ==> !Free(cfg, nodes, id, r, now)
  }

  /** A route to an available node survives the clean-up exactly if the target read back from its
      key is not cooling down, which is the request's own target if that holds no NUL. */
  lemma FreeRouteIsUsable(cfg: ServiceConfig, nodes: Nodes, r: Request, e: StickyEntry, now: Time)
    requires e.expiresAt > now && Free(cfg, nodes, e.node, r, now)
    ensures RouteUsable(nodes, r.Route(), e, now) <==> !Active(TargetOf(nodes[e.node], KeyTarget(r.Route())), now)
    ensures '\0' !in r.Target() ==> KeyTarget(r.Route()) == r.Target() && RouteUsable(nodes, r.Route(), e, now)
  {
    if '\0' !in r.Target() {
      KeyTargetPrefix(r.Target(), r.stickyKey);
    }
  }

  lemma {:induction false} KeyTargetPrefix(target: string, rest: string)
    requires '\0' !in target
    ensures KeyTarget(target + SEPARATOR + rest) == target
  {
    var key := target + SEPARATOR + rest;
    if target != "" {
      KeyTargetPrefix(target[1..], rest);
      assert key[1..] == target[1..] + SEPARATOR + rest;
    }
  }

  // ----- what Acquire does to the routes ------------------------------------

  /** The routes a clean-up leaves, when it is due and when it is not. */
  ghost predicate Cleaned(cfg: ServiceConfig, nodes: Nodes, before: Sticky, kept: Sticky, due: bool, now: Time) {
    if due then KeepsRecent(UsableRoutes(nodes, before, now), kept, cfg.stickyMax) else kept == before
  }

  /** The node to which the request's route leads, if that node is available. */
  function Followed(cfg: ServiceConfig, nodes: Nodes, kept: Sticky, r: Request, now: Time): Option<NodeId> {
    if r.stickyKey != "" && r.Route() in kept && kept[r.Route()].expiresAt > now
       && Free(cfg, nodes, kept[r.Route()].node, r, now)
    then Some(kept[r.Route()].node) else None
  }

  /** A followed route is renewed, and one that cannot be followed is forgotten. */
  function RoutesAfter(cfg: ServiceConfig, nodes: Nodes, kept: Sticky, r: Request, now: Time): Sticky {
    if r.stickyKey == "" || r.Route() !in kept then kept
    else if Followed(cfg, nodes, kept, r, now).Some? then
      kept[r.Route() := StickyEntry(kept[r.Route()].node, now + cfg.stickyTTL, now)]
    else kept - {r.Route()}
  }

  /** The route a granted request leaves. */
  function Remembering(cfg: ServiceConfig, routes: Sticky, r: Request, id: NodeId, now: Time): Sticky {
    if r.stickyKey == "" then routes else routes[r.Route() := StickyEntry(id, now + cfg.stickyTTL, now)]
  }

  // ----- policies -------------------------------------------------------------

  datatype Policy = Policy(targetType: string, targetKey: string, mode: string)

  type Policies = map<string, string>

  /** The policy map of a list; of two policies for one target the later counts. */
  function PoliciesOf(list: seq<Policy>): Policies {
    if list == [] then map[]
    else
      var last := list[|list| - 1];
      PoliciesOf(list[..|list| - 1])[last.targetType + SEPARATOR + last.targetKey := last.mode]
  }

  class Service {
    const cfg: ServiceConfig
    var nodes: Nodes
    var sticky: Sticky
    var inUse: nat
    var lastCleanup: Option<Time>
    var policies: Policies

    constructor (cfg: ServiceConfig)
      ensures this.cfg == cfg && nodes == map[] && sticky == map[] && inUse == 0
      ensures lastCleanup == None && policies == map[]
    {
      this.cfg := cfg;
      nodes, sticky, inUse, lastCleanup, policies := map[], map[], 0, None, map[];
    }

    predicate CleanupDue(now: Time, force: bool)
      reads this
    {
      var half := cfg.stickyTTL / 2;
      var interval := if 0 < half < 5 * MINUTE then half else 5 * MINUTE;
      force || |sticky| > cfg.stickyMax || lastCleanup.None? || now - lastCleanup.value >= interval
    }

    /** Unless forced, and while the table is within its limit, the clean-up waits until five minutes, or half the life
        of a route if that is less, have passed since the last. */
    lemma CleanupIsRegular(now: Time, force: bool)
      ensures !CleanupDue(now, force) <==>
        && !force && |sticky| <= cfg.stickyMax && lastCleanup.Some?
        && now - lastCleanup.value < 300 * SECOND
        && (cfg.stickyTTL >= 2 ==> now - lastCleanup.value < cfg.stickyTTL / 2)
    {
    }

    /** cleanupStickyLocked: drop unusable routes, then the least recently used overflow. */
    method CleanupSticky(now: Time, force: bool)
      modifies this`sticky, this`lastCleanup
      ensures !old(CleanupDue(now, force)) ==> sticky == old(sticky) && lastCleanup == old(lastCleanup)
      ensures old(CleanupDue(now, force)) ==>
                lastCleanup == Some(now) && KeepsRecent(UsableRoutes(nodes, old(sticky), now), sticky, cfg.stickyMax)
    {
      if !CleanupDue(now, force) {
        return;
      }
      DropUnusable(now);
      DropOldest();
      lastCleanup := Some(now);
    }

    method DropUnusable(now: Time)
      modifies this`sticky
      ensures sticky == UsableRoutes(nodes, old(sticky), now)
    {
      var todo := sticky.Keys;
      while todo != {}
        invariant todo <= old(sticky).Keys
        invariant forall key :: key in sticky <==>
                    key in old(sticky) && (key in todo || RouteUsable(nodes, key, old(sticky)[key], now))
        invariant forall key :: key in sticky ==> sticky[key] == old(sticky)[key]
        decreases todo
      {
        var key := Pick(todo);
        if !RouteUsable(nodes, key, sticky[key], now) {
          sticky := sticky - {key};
        }
        todo := todo - {key};
      }
    }

    method DropOldest()
      modifies this`sticky
      ensures KeepsRecent(old(sticky), sticky, cfg.stickyMax)
    {
      while |sticky| > cfg.stickyMax
        invariant sticky.Keys <= old(sticky).Keys
        invariant forall key :: key in sticky ==> sticky[key] == old(sticky)[key]
        invariant |sticky| <= |old(sticky)|
        invariant |old(sticky)| > cfg.stickyMax ==> |sticky| >= cfg.stickyMax
        invariant |old(sticky)| <= cfg.stickyMax ==> sticky == old(sticky)
        invariant forall a, b :: a in old(sticky) && a !in sticky && b in sticky ==>
                    old(sticky)[a].lastUsed <= sticky[b].lastUsed
        decreases |sticky|
      {
        ghost var before := sticky;
        var oldest := Oldest();
        sticky := sticky - {oldest};
        assert sticky.Keys == before.Keys - {oldest};
        assert |sticky| == |sticky.Keys| && |before| == |before.Keys|;
      }
      if |old(sticky)| > cfg.stickyMax {
        assert |sticky| == cfg.stickyMax;
      }
    }

    /** The head of the list sorted by last use. */
    method Oldest() returns (oldest: string)
      requires |sticky| > 0
      ensures oldest in sticky
      ensures forall key :: key in sticky ==> sticky[oldest].lastUsed <= sticky[key].lastUsed
    {
      var todo := sticky.Keys;
      oldest := Pick(todo);
      while todo != {}
        invariant todo <= sticky.Keys && oldest in sticky
        invariant forall key :: key in sticky && key !in todo ==> sticky[oldest].lastUsed <= sticky[key].lastUsed
        decreases todo
      {
        var key := Pick(todo);
        if sticky[key].lastUsed < sticky[oldest].lastUsed {
          oldest := key;
        }
        todo := todo - {key};
      }
    }

    method InvalidateSticky(id: NodeId, target: string)
      modifies this`sticky
      ensures sticky == WithoutRoutes(old(sticky), id, target)
    {
      var todo := sticky.Keys;
      while todo != {}
        invariant todo <= old(sticky).Keys
        invariant forall key :: key in sticky <==>
                    key in old(sticky) && (key in todo || !Points(key, old(sticky)[key], id, target))
        invariant forall key :: key in sticky ==> sticky[key] == old(sticky)[key]
        decreases todo
      {
        var key := Pick(todo);
        if Points(key, sticky[key], id, target) {
          sticky := sticky - {key};
        }
        todo := todo - {key};
      }
    }

    /** Acquire. The selector may return any candidate; a route that can be followed wins. */
    method Acquire(request: Request, cancelled: bool, now: Time) returns (r: AcquireResult)
      modifies this`nodes, this`inUse, this`sticky, this`lastCleanup
      ensures r.Disabled? <==> !cfg.enabled
      ensures r.Cancelled? <==> cfg.enabled && cancelled
      ensures r.NoProxy? <==> cfg.enabled && !cancelled && NobodyFree(cfg, old(nodes), request, now)
      ensures r.Granted? ==> Free(cfg, old(nodes), r.id, request, now)
      ensures r.Granted? ==> nodes == Leased(old(nodes), r.id) && inUse == old(inUse) + 1
      ensures !r.Granted? ==> nodes == old(nodes) && inUse == old(inUse)
      ensures r.Disabled? || r.Cancelled? ==> sticky == old(sticky) && lastCleanup == old(lastCleanup)
      ensures r.Granted? || r.NoProxy? ==>
        lastCleanup == if old(CleanupDue(now, false)) then Some(now) else old(lastCleanup)
      ensures r.Granted? || r.NoProxy? ==> exists kept ::
        && Cleaned(cfg, old(nodes), old(sticky), kept, old(CleanupDue(now, false)), now)
        && (r.NoProxy? ==> sticky == RoutesAfter(cfg, old(nodes), kept, request, now))
        && (r.Granted? ==>
              && sticky == Remembering(cfg, RoutesAfter(cfg, old(nodes), kept, request, now), request, r.id, now)
              && (Followed(cfg, old(nodes), kept, request, now).Some? ==>
                    r.id == Followed(cfg, old(nodes), kept, request, now).value))
    {
      if !cfg.enabled {
        return Disabled;
      }
      if cancelled {
        return Cancelled;
      }
      ghost var kept;
      var selected;
      selected, kept := FollowRoute(request, now);
      if selected.None? {
        selected := PickAny(request, now);
        if selected.None? {
          return NoProxy;
        }
      }
      Grant(selected.value, request, now);
      return Granted(selected.value);
    }

    /** The end of Acquire: count the lease and remember the choice. */
    method Grant(id: NodeId, request: Request, now: Time)
      requires id in nodes
      modifies this`nodes, this`inUse, this`sticky
      ensures nodes == Leased(old(nodes), id) && inUse == old(inUse) + 1
      ensures sticky == Remembering(cfg, old(sticky), request, id, now)
    {
      nodes := nodes[id := nodes[id].(inflight := nodes[id].inflight + 1)];
      inUse := inUse + 1;
      if request.stickyKey != "" {
        sticky := sticky[request.Route() := StickyEntry(id, now + cfg.stickyTTL, now)];
      }
    }

    /** Clean up, then follow the sticky route or forget it; kept is what the clean-up left. */
    method FollowRoute(request: Request, now: Time) returns (selected: Option<NodeId>, ghost kept: Sticky)
      modifies this`sticky, this`lastCleanup
      ensures Cleaned(cfg, nodes, old(sticky), kept, old(CleanupDue(now, false)), now)
      ensures selected == Followed(cfg, nodes, kept, request, now)
      ensures sticky == RoutesAfter(cfg, nodes, kept, request, now)
      ensures lastCleanup == if old(CleanupDue(now, false)) then Some(now) else old(lastCleanup)
    {
      CleanupSticky(now, false);
      kept := sticky;
      selected := FollowKept(request, now);
    }

    method FollowKept(request: Request, now: Time) returns (selected: Option<NodeId>)
      modifies this`sticky
      ensures selected == Followed(cfg, nodes, old(sticky), request, now)
      ensures sticky == RoutesAfter(cfg, nodes, old(sticky), request, now)
    {
      var route := request.Route();
      selected := None;
      if request.stickyKey != "" && route in sticky {
        var entry := sticky[route];
        if entry.expiresAt > now && Free(cfg, nodes, entry.node, request, now) {
          selected := Some(entry.node);
          sticky := sticky[route := StickyEntry(entry.node, now + cfg.stickyTTL, now)];
        } else {
          sticky := sticky - {route};
        }
      }
    }

    /** The selector: some available node, if there is one. */
    method PickAny(request: Request, now: Time) returns (selected: Option<NodeId>)
      ensures selected.Some? ==> Free(cfg, nodes, selected.value, request, now)
      ensures selected.None? <==> NobodyFree(cfg, nodes, request, now)
    {
      var candidates := set id | id in nodes && Free(cfg, nodes, id, request, now);
      if candidates == {} {
        assert forall id :: id in nodes && Free(cfg, nodes, id, request, now) ==> id in candidates;
        return None;
      }
      var id := Pick(candidates);
      return Some(id);
    }

    /** While the table is within its limit, a route to an available node is followed exactly if no clean-up is due
        or the target read back from its key is not cooling down. */
    lemma RouteIsFollowed(request: Request, kept: Sticky, due: bool, now: Time)
      requires request.stickyKey != "" && request.Route() in sticky
      requires |sticky| <= cfg.stickyMax && sticky[request.Route()].expiresAt > now
      requires Free(cfg, nodes, sticky[request.Route()].node, request, now)
      requires Cleaned(cfg, nodes, sticky, kept, due, now)
      ensures var node := sticky[request.Route()].node;
        && (Followed(cfg, nodes, kept, request, now) == Some(node)
            <==> !due || !Active(TargetOf(nodes[node], KeyTarget(request.Route())), now))
        && ('\0' !in request.Target() ==> Followed(cfg, nodes, kept, request, now) == Some(node))
    {
      var route := request.Route();
      FreeRouteIsUsable(cfg, nodes, request, sticky[route], now);
      if due {
        var usable := UsableRoutes(nodes, sticky, now);
        SubsetSize(usable.Keys, sticky.Keys);
        SameSizeSubset(kept.Keys, usable.Keys);
      }
    }

    /** completeLease under the lock. */
    method CompleteLease(id: NodeId, target: string, o: Outcome, now: Time, draws: Draws)
      modifies this`nodes, this`inUse, this`sticky
      ensures nodes == Completed(cfg.pool, old(nodes), id, target, o, now, draws)
      ensures inUse == Pred(old(inUse))
      ensures sticky ==
              if id !in old(nodes) || o.success then old(sticky)
              else if ScopeOf(o) == "node" && nodes[id].failures.cooldownUntil.Some? then
                WithoutRoutes(old(sticky), id, "")
              else if ScopeOf(o) == "target" && Active(nodes[id].targets[target], now) then
                WithoutRoutes(old(sticky), id, target)
              else old(sticky)
    {
      if inUse > 0 {
        inUse := inUse - 1;
      }
      if id !in nodes {
        return;
      }
      var node := nodes[id];
      var st := TargetOf(node, target);
      if node.inflight > 0 {
        node := node.(inflight := node.inflight - 1);
      }
      var scope := ScopeOf(o);
      var invalidate: Option<string> := None;
      if o.success {
        node := node.(status := Healthy, failures := FRESH);
        st := FRESH;
      } else if scope == "node" {
        node := node.(failures := NextFailureState(cfg.pool.cooldown, node.failures, o.retryAfter, now, draws.node));
        st := NextFailureState(cfg.pool.cooldown, st, o.retryAfter, now, draws.target);
        if node.failures.cooldownUntil.Some? {
          node := node.(status := Cooling);
          invalidate := Some("");
        }
      } else if scope == "target" {
        st := NextFailureState(cfg.pool.cooldown, st, o.retryAfter, now, draws.target);
        if Active(st, now) {
          invalidate := Some(target);
        }
      }
      node := node.(targets := node.targets[target := st]);
      nodes := nodes[id := node];
      if invalidate.Some? {
        InvalidateSticky(id, invalidate.value);
      }
    }

    /** Refresh under the lock; loaded is what the repository and the cipher yielded. */
    method Refresh(loaded: Nodes, list: seq<Policy>, now: Time)
      requires forall id :: id in loaded ==> loaded[id].inflight == 0
      modifies this
      ensures nodes == Refreshed(old(nodes), loaded, now) && inUse == old(inUse)
      ensures policies == PoliciesOf(list)
      ensures KeepsRecent(UsableRoutes(nodes, old(sticky), now), sticky, cfg.stickyMax) && lastCleanup == Some(now)
    {
      var next := CarryOver(loaded, now);
      next := KeepLeased(loaded, next, now);
      nodes := next;
      ReplacePolicies(list);
      CleanupSticky(now, true);
    }

    method ReplacePolicies(list: seq<Policy>)
      modifies this`policies
      ensures policies == PoliciesOf(list)
    {
      policies := map[];
      for k := 0 to |list|
        invariant policies == PoliciesOf(list[..k])
      {
        assert list[..k + 1][..k] == list[..k];
        policies := policies[list[k].targetType + SEPARATOR + list[k].targetKey := list[k].mode];
      }
      assert list[..|list|] == list;
    }

    function Carried(loaded: Nodes, id: NodeId, now: Time): Node
      requires id in loaded
      reads this
    {
      if id in nodes then CarriedNode(loaded[id], nodes[id], now) else loaded[id]
    }

    /** The first loop: nodes that stay take over their lease count and cooldowns. */
    method CarryOver(loaded: Nodes, now: Time) returns (next: Nodes)
      ensures next.Keys == loaded.Keys
      ensures forall id :: id in loaded ==> next[id] == Carried(loaded, id, now)
    {
      next := loaded;
      var todo: set<NodeId> := loaded.Keys;
      while todo != {}
        invariant todo <= loaded.Keys && next.Keys == loaded.Keys
        invariant forall id :: id in loaded && id !in todo ==> next[id] == Carried(loaded, id, now)
        invariant forall id :: id in todo ==> next[id] == loaded[id]
        decreases todo
      {
        var id := Pick(todo);
        if id in nodes {
          next := next[id := CarriedNode(next[id], nodes[id], now)];
        }
        todo := todo - {id};
      }
    }

    /** The second loop: nodes that would go but are leased stay, cooling. */
    method KeepLeased(loaded: Nodes, carried: Nodes, now: Time) returns (next: Nodes)
      requires carried.Keys == loaded.Keys
      requires forall id :: id in loaded ==> carried[id] == Carried(loaded, id, now)
      ensures next == Refreshed(nodes, loaded, now)
    {
      next := carried;
      var todo: set<NodeId> := nodes.Keys;
      while todo != {}
        invariant todo <= nodes.Keys
        invariant forall id :: id in next <==> id in loaded || (id in nodes && id !in todo && nodes[id].inflight > 0)
        invariant forall id :: id in next ==>
                    next[id] == if id in loaded then Carried(loaded, id, now) else nodes[id].(status := Cooling)
        decreases todo
      {
        var id := Pick(todo);
        if id !in next && nodes[id].inflight > 0 {
          next := next[id := nodes[id].(status := Cooling)];
        }
        todo := todo - {id};
      }
      SameMap(next, Refreshed(nodes, loaded, now));
    }

    /** recordProbeResult under the lock. */
    method RecordProbe(id: NodeId, probed: Node, hasUrl: bool, success: bool)
      modifies this`nodes, this`sticky
      ensures nodes == Probed(old(nodes), id, probed, hasUrl, success)
      ensures sticky == if !success && id in old(nodes) then WithoutRoutes(old(sticky), id, "") else old(sticky)
    {
      if success {
        if !hasUrl {
          return;
        }
        var healthy := probed.(status := Healthy, failures := FRESH);
        if id in nodes {
          nodes := nodes[id := healthy.(inflight := nodes[id].inflight, targets := nodes[id].targets)];
        } else {
          nodes := nodes[id := healthy.(inflight := 0, targets := map[])];
        }
        return;
      }
      if id in nodes {
        if nodes[id].inflight > 0 {
          nodes := nodes[id := nodes[id].(status := Cooling)];
        } else {
          nodes := nodes - {id};
        }
        InvalidateSticky(id, "");
      }
    }
  }
}
