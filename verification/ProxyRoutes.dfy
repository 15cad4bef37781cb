/** Sticky routes told from what they are for: a request keeps its node as long as that can be leased, and no route
    leads to a node that had to rest. */
module ProxyRoutes {
  import opened Text
  import Cooldown
  import opened ProxyPool
  import opened ProxyService
  import opened ProxyHealth

  /** A route is usable exactly if it has not expired and its node could be leased for its target if it had room. */
  lemma UsableIsLeasable(cfg: Config, w: World, key: string, e: StickyEntry, now: Time)
    requires cfg.Valid()
    ensures RouteUsable(w.nodes, key, e, now) <==>
            && now < e.expiresAt && e.node in w.nodes
            && Leasable(cfg, w.(nodes := w.nodes[e.node := w.nodes[e.node].(inflight := 0)]), e.node, KeyTarget(key),
                        {}, now)
  {
  }

  /** Invalidating a node leaves exactly the routes to other nodes. */
  lemma NodeInvalidated(sticky: Sticky, id: NodeId, key: string)
    ensures key in WithoutRoutes(sticky, id, "") <==> key in sticky && sticky[key].node != id
    ensures key in WithoutRoutes(sticky, id, "") ==> WithoutRoutes(sticky, id, "")[key] == sticky[key]
  {
  }

  /** Invalidating a node for a target leaves exactly the routes to other nodes and for other targets. */
  lemma TargetInvalidated(sticky: Sticky, id: NodeId, target: string, r: Request)
    requires target != "" && '\0' !in target && '\0' !in r.Target()
    ensures r.Route() in WithoutRoutes(sticky, id, target) <==>
            r.Route() in sticky && !(sticky[r.Route()].node == id && r.Target() == target)
  {
    KeyTargetPrefix(r.Target(), r.stickyKey);
    var lead := target + SEPARATOR;
    if lead <= r.Route() {
      KeyTargetPrefix(target, r.Route()[|lead|..]);
      assert r.Route() == target + SEPARATOR + r.Route()[|lead|..];
    }
    if r.Target() == target {
      assert r.Route()[..|lead|] == lead;
    }
  }

  /** The route of a granted request leads back to the node, until it expires, whenever the node can be leased. */
  lemma RouteLeadsBack(cfg: ServiceConfig, nodes: Nodes, routes: Sticky, r: Request, id: NodeId, at: Time, now: Time)
    requires r.stickyKey != ""
    ensures Followed(cfg, nodes, Remembering(cfg, routes, r, id, at), r, now) ==
            if now < at + cfg.stickyTTL
               && Leasable(cfg.pool, World(nodes, 0, []), id, r.Target(), r.excluded, now)
            then Some(id) else None
  {
  }

  /** A route that cannot be followed is forgotten, and no other route changes. */
  lemma UselessRouteIsForgotten(cfg: ServiceConfig, nodes: Nodes, kept: Sticky, r: Request, now: Time, key: string)
    requires r.stickyKey != ""
    ensures var after := RoutesAfter(cfg, nodes, kept, r, now);
      && (r.Route() in after <==> Followed(cfg, nodes, kept, r, now).Some?)
      && (key != r.Route() ==> (key in after <==> key in kept) && (key in kept ==> after[key] == kept[key]))
  {
  }

  /** Requests for different targets or under different keys do not share a route. */
  lemma RoutesAreApart(a: Request, b: Request)
    requires '\0' !in a.Target() && '\0' !in b.Target()
    ensures a.Route() == b.Route() <==> a.Target() == b.Target() && a.stickyKey == b.stickyKey
  {
    KeyTargetPrefix(a.Target(), a.stickyKey);
    KeyTargetPrefix(b.Target(), b.stickyKey);
    if a.Route() == b.Route() {
      assert a.Route()[|a.Target()| + 1..] == a.stickyKey;
      assert b.Route()[|b.Target()| + 1..] == b.stickyKey;
    }
  }

  function PolicyKey(p: Policy): string {
    p.targetType + SEPARATOR + p.targetKey
  }

  /** Of the policies for one target the last in the list is in force. */
  lemma {:induction false} LastPolicyCounts(list: seq<Policy>, i: nat)
    requires i < |list| && forall j :: i < j < |list| ==> PolicyKey(list[j]) != PolicyKey(list[i])
    ensures PolicyKey(list[i]) in PoliciesOf(list) && PoliciesOf(list)[PolicyKey(list[i])] == list[i].mode
  {
    if i + 1 < |list| {
      LastPolicyCounts(list[..|list| - 1], i);
    }
  }
}
