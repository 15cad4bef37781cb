/** One link check through the proxy pool: checkWithProxyPolicy, with other threads using
    the pool before every acquisition and during every check. */
module ProxyRetry {
  import opened Text
  import Cooldown
  import opened ProxyPool
  import opened ProxyService

  type Time = Cooldown.Time

  datatype Mode = BaselineFirst | ProxyFirst | ProxyOnly | StickyProxy

  /** What the world does around one attempt: the other threads' steps and the routes they leave,
      whether Acquire is refused because the context ended, and how the check turns out. */
  datatype Attempt = Attempt(
    before: seq<Label>,
    routesBefore: Sticky,
    cancelled: bool,
    acquireAt: Time,
    during: seq<Label>,
    routesDuring: Sticky,
    outcome: Outcome,
    retryable: bool,
    releaseAt: Time,
    draws: Draws)

  datatype Answer =
    | OfAttempt(index: nat)   // result and error of that attempt
    | Baseline                // the caller's baseline result
    | Refused                 // baseline result with the error of the first Acquire

  // ----- the other threads ------------------------------------------------------

  /** A step another thread may take: it neither leases nor releases for this check. */
  predicate Foreign(w: World, l: Label, me: nat) {
    && (l.Acquire? ==> l.owner != me)
    && (l.Release? && l.lease < |w.leases| ==> w.leases[l.lease].owner != me)
  }

  /** Run those of the other threads' steps that are possible. */
  function Others(cfg: Config, w: World, steps: seq<Label>, me: nat): World
    decreases steps
  {
    if steps == [] then w
    else
      var l := steps[0];
      Others(cfg, if Enabled(cfg, w, l) && Foreign(w, l, me) then Step(cfg, w, l) else w, steps[1..], me)
  }

  /** Leases are only added, none of them for this check; its own and the returned ones stay as they are. */
  ghost predicate Kept(before: seq<Lease>, after: seq<Lease>, me: nat) {
    && |before| <= |after|
    && (forall i :: 0 <= i < |before| ==> after[i].owner == before[i].owner)
    && (forall i :: 0 <= i < |before| && (before[i].released || before[i].owner == me) ==> after[i] == before[i])
    && (forall i :: |before| <= i < |after| ==> after[i].owner != me)
  }

  lemma StepKeeps(cfg: Config, w: World, l: Label, me: nat)
    requires Enabled(cfg, w, l) && Foreign(w, l, me)
    ensures Kept(w.leases, Step(cfg, w, l).leases, me)
  {
  }

  lemma {:induction false} OthersKeep(cfg: Config, w: World, steps: seq<Label>, me: nat)
    requires Inv(cfg, w)
    ensures var r := Others(cfg, w, steps, me);
            Inv(cfg, r) && Kept(w.leases, r.leases, me)
    decreases steps
  {
    if steps != [] {
      var l := steps[0];
      if Enabled(cfg, w, l) && Foreign(w, l, me) {
        InvStep(cfg, w, l);
        StepKeeps(cfg, w, l, me);
        OthersKeep(cfg, Step(cfg, w, l), steps[1..], me);
      } else {
        OthersKeep(cfg, w, steps[1..], me);
      }
    }
  }

  // ----- the run of one check ---------------------------------------------------

  function Taking(a: Attempt, target: string, tried: set<NodeId>, id: NodeId, me: nat): Label {
    Label.Acquire(id, target, tried, a.acquireAt, me)
  }

  /** One attempt on a node: the others' steps, one lease, the others' steps during the check, one release. */
  function Attempted(cfg: Config, w: World, target: string, tried: set<NodeId>, a: Attempt, id: NodeId, me: nat): World
  {
    var u := Others(cfg, w, a.before, me);
    if !Enabled(cfg, u, Taking(a, target, tried, id, me)) then u
    else
      var v := Others(cfg, Step(cfg, u, Taking(a, target, tried, id, me)), a.during, me);
      var give := Label.Release(|u.leases|, a.outcome, a.releaseAt, a.draws);
      if Enabled(cfg, v, give) then Step(cfg, v, give) else v
  }

  function IdSet(ids: seq<NodeId>): set<NodeId> {
    set id | id in ids
  }

  /** The attempts on these nodes, one after the other, each excluding the nodes before it. */
  function Rounds(cfg: Config, w: World, target: string, world: seq<Attempt>, ids: seq<NodeId>, me: nat): World
    requires |ids| <= |world|
  {
    if ids == [] then w
    else
      var n := |ids| - 1;
      Attempted(cfg, Rounds(cfg, w, target, world, ids[..n], me), target, IdSet(ids[..n]), world[n], ids[n], me)
  }

  /** Every one of these leases could be granted. */
  predicate Grantable(cfg: Config, w: World, target: string, world: seq<Attempt>, ids: seq<NodeId>, me: nat)
    requires |ids| <= |world|
  {
    ids == [] || (
      var n := |ids| - 1;
      && Grantable(cfg, w, target, world, ids[..n], me)
      && Enabled(cfg, Others(cfg, Rounds(cfg, w, target, world, ids[..n], me), world[n].before, me),
                 Taking(world[n], target, IdSet(ids[..n]), ids[n], me)))
  }

  // ----- which leases are this check's --------------------------------------------

  /** Since base, the leases of this check are exactly those listed, on these nodes, and all are returned. */
  ghost predicate Owns(leases: seq<Lease>, base: nat, mine: seq<nat>, ids: seq<NodeId>, me: nat) {
    && |mine| == |ids|
    && (forall k :: 0 <= k < |mine| ==>
          base <= mine[k] < |leases| && leases[mine[k]].owner == me && leases[mine[k]].released
          && leases[mine[k]].id == ids[k])
    && (forall i :: base <= i < |leases| && leases[i].owner == me ==> i in mine)
  }

  lemma OwnsKept(before: seq<Lease>, after: seq<Lease>, base: nat, mine: seq<nat>, ids: seq<NodeId>, me: nat)
    requires Owns(before, base, mine, ids, me) && Kept(before, after, me) && base <= |before|
    ensures Owns(after, base, mine, ids, me)
  {
  }

  /** One lease more, taken at position lease and returned. */
  ghost predicate OneMore(before: seq<Lease>, after: seq<Lease>, lease: nat, id: NodeId, me: nat) {
    && |before| <= lease < |after|
    && after[lease].owner == me && after[lease].id == id && after[lease].released
    && (forall i :: 0 <= i < |before| ==> after[i].owner == before[i].owner)
    && (forall i :: 0 <= i < |before| && (before[i].released || before[i].owner == me) ==> after[i] == before[i])
    && (forall i :: |before| <= i < |after| && i != lease ==> after[i].owner != me)
  }

  lemma OwnsOneMore(before: seq<Lease>, after: seq<Lease>, base: nat, mine: seq<nat>, ids: seq<NodeId>, me: nat,
      lease: nat, id: NodeId)
    requires Owns(before, base, mine, ids, me) && base <= |before| && OneMore(before, after, lease, id, me)
    ensures Owns(after, base, mine + [lease], ids + [id], me)
  {
  }

  /** An attempt takes one lease for this check, on its node, and returns it. */
  lemma AttemptTakesOne(cfg: Config, w: World, target: string, tried: set<NodeId>, a: Attempt, id: NodeId, me: nat)
    requires Inv(cfg, w) && Enabled(cfg, Others(cfg, w, a.before, me), Taking(a, target, tried, id, me))
    ensures var u, r := Others(cfg, w, a.before, me), Attempted(cfg, w, target, tried, a, id, me);
      Inv(cfg, r) && |w.leases| <= |u.leases| && OneMore(w.leases, r.leases, |u.leases|, id, me)
  {
    OthersKeep(cfg, w, a.before, me);
    var u := Others(cfg, w, a.before, me);
    var take := Taking(a, target, tried, id, me);
    InvStep(cfg, u, take);
    var t := Step(cfg, u, take);
    OthersKeep(cfg, t, a.during, me);
    var v := Others(cfg, t, a.during, me);
    assert v.leases[|u.leases|] == t.leases[|u.leases|] == Lease(id, target, me, false);
    InvStep(cfg, v, Label.Release(|u.leases|, a.outcome, a.releaseAt, a.draws));
  }

  /** Without other threads' steps an attempt adds one lease and leaves as many in use as before. */
  lemma QuietAttempt(cfg: Config, w: World, target: string, tried: set<NodeId>, a: Attempt, id: NodeId, me: nat)
    requires Inv(cfg, w) && Enabled(cfg, w, Taking(a, target, tried, id, me)) && a.before == [] && a.during == []
    ensures var r := Attempted(cfg, w, target, tried, a, id, me);
      |r.leases| == |w.leases| + 1 && r.inUse == w.inUse
  {
    AttemptTakesOne(cfg, w, target, tried, a, id, me);
  }

  // ----- the service's methods are the protocol's steps -------------------------

  /** The service finds a node to grant exactly if the protocol can lease one. */
  lemma FreeIsEnabled(cfg: ServiceConfig, w: World, id: NodeId, r: Request, now: Time, me: nat)
    ensures Free(cfg, w.nodes, id, r, now) <==> Enabled(cfg.pool, w, Label.Acquire(id, r.Target(), r.excluded, now, me))
  {
  }

  /** The other threads use the pool for a while, and its routes with it. */
  method LetOthers(pool: Service, leases: seq<Lease>, steps: seq<Label>, routes: Sticky, me: nat)
      returns (after: seq<Lease>)
    modifies pool`nodes, pool`inUse, pool`sticky
    ensures World(pool.nodes, pool.inUse, after) ==
            Others(pool.cfg.pool, old(World(pool.nodes, pool.inUse, leases)), steps, me)
  {
    var w := Others(pool.cfg.pool, World(pool.nodes, pool.inUse, leases), steps, me);
    pool.nodes, pool.inUse, pool.sticky := w.nodes, w.inUse, routes;
    return w.leases;
  }

  /** Acquire through the service is the protocol's step, or no such step is possible. */
  method Take(pool: Service, leases: seq<Lease>, request: Request, a: Attempt, me: nat)
      returns (id: Option<NodeId>, after: seq<Lease>)
    requires pool.cfg.enabled
    modifies pool`nodes, pool`inUse, pool`sticky, pool`lastCleanup
    ensures var w := old(World(pool.nodes, pool.inUse, leases));
      && (id.Some? ==>
            && Enabled(pool.cfg.pool, w, Taking(a, request.Target(), request.excluded, id.value, me))
            && World(pool.nodes, pool.inUse, after) ==
               Step(pool.cfg.pool, w, Taking(a, request.Target(), request.excluded, id.value, me)))
      && (id.None? ==> World(pool.nodes, pool.inUse, after) == w)
      && (id.None? <==> a.cancelled || Exhausted(pool.cfg.pool, w, request.Target(), request.excluded, a, me))
  {
    ghost var w := World(pool.nodes, pool.inUse, leases);
    var r := pool.Acquire(request, a.cancelled, a.acquireAt);
    forall x
      ensures Free(pool.cfg, w.nodes, x, request, a.acquireAt) <==>
              Enabled(pool.cfg.pool, w, Taking(a, request.Target(), request.excluded, x, me))
    {
      FreeIsEnabled(pool.cfg, w, x, request, a.acquireAt, me);
    }
    if !r.Granted? {
      return None, leases;
    }
    return Some(r.id), leases + [Lease(r.id, request.Target(), me, false)];
  }

  /** No node can be leased. */
  ghost predicate Exhausted(cfg: Config, w: World, target: string, tried: set<NodeId>, a: Attempt, me: nat) {
    forall id :: id in w.nodes ==> !Enabled(cfg, w, Taking(a, target, tried, id, me))
  }

  /** Release through the service is the protocol's step. */
  method Give(pool: Service, leases: seq<Lease>, lease: nat, a: Attempt) returns (after: seq<Lease>)
    requires lease < |leases| && !leases[lease].released
    modifies pool`nodes, pool`inUse, pool`sticky
    ensures World(pool.nodes, pool.inUse, after) ==
            Step(pool.cfg.pool, old(World(pool.nodes, pool.inUse, leases)),
                 Label.Release(lease, a.outcome, a.releaseAt, a.draws))
  {
    pool.CompleteLease(leases[lease].id, leases[lease].target, a.outcome, a.releaseAt, a.draws);
    after := leases[lease := leases[lease].(released := true)];
  }

  /** One turn of the loop. Granted, the pool is left as by one attempt on the node: exactly one lease
      taken for this check and returned. Refused, it is left as by the others' steps alone. */
  method TryOnce(pool: Service, leases: seq<Lease>, request: Request, a: Attempt, me: nat)
      returns (id: Option<NodeId>, lease: nat, after: seq<Lease>)
    requires pool.cfg.enabled && Inv(pool.cfg.pool, World(pool.nodes, pool.inUse, leases))
    modifies pool`nodes, pool`inUse, pool`sticky, pool`lastCleanup
    ensures var cfg, w := pool.cfg.pool, old(World(pool.nodes, pool.inUse, leases));
      var u := Others(cfg, w, a.before, me);
      && lease == |u.leases|
      && (id.Some? ==>
            && Enabled(cfg, u, Taking(a, request.Target(), request.excluded, id.value, me))
            && World(pool.nodes, pool.inUse, after) ==
               Attempted(cfg, w, request.Target(), request.excluded, a, id.value, me))
      && (id.None? ==> World(pool.nodes, pool.inUse, after) == u)
      && (id.None? <==> a.cancelled || Exhausted(cfg, u, request.Target(), request.excluded, a, me))
  {
    ghost var w := World(pool.nodes, pool.inUse, leases);
    OthersKeep(pool.cfg.pool, w, a.before, me);
    after := LetOthers(pool, leases, a.before, a.routesBefore, me);
    lease := |after|;
    ghost var u := World(pool.nodes, pool.inUse, after);
    id, after := Take(pool, after, request, a, me);
    if id.None? {
      return;
    }
    ghost var t := World(pool.nodes, pool.inUse, after);
    InvStep(pool.cfg.pool, u, Taking(a, request.Target(), request.excluded, id.value, me));
    OthersKeep(pool.cfg.pool, t, a.during, me);
    after := LetOthers(pool, after, a.during, a.routesDuring, me);
    assert after[lease] == t.leases[lease];
    after := Give(pool, after, lease, a);
  }

  // ----- the check -----------------------------------------------------------------

  /** What the caller is told, given the attempts made and whether the last one succeeded. */
  function AnswerOf(mode: Mode, attempts: nat, success: bool): Answer {
    if success && attempts > 0 then OfAttempt(attempts - 1)
    else if mode.ProxyOnly? || mode.StickyProxy? then
      if attempts > 0 then OfAttempt(attempts - 1) else Refused
    else Baseline
  }

  /** A success is always told. Without one, a mode that may fall back gives the baseline result, and one that insists
      on proxies the last attempt, or the refusal if there was none. */
  lemma AnswerLaws(mode: Mode, attempts: nat, success: bool)
    requires success ==> attempts > 0
    ensures var answer, insists := AnswerOf(mode, attempts, success), mode == ProxyOnly || mode == StickyProxy;
      && (answer.OfAttempt? <==> attempts > 0 && (success || insists))
      && (answer.OfAttempt? ==> answer.index + 1 == attempts)
      && (answer == Refused <==> attempts == 0 && insists)
      && (answer == Baseline <==> !success && !insists)
  {
  }

  /** Only a sticky policy asks for a route, by the address of the link. */
  function RequestFor(mode: Mode, platform: string, url: string, tried: set<NodeId>): Request {
    Request("platform", platform, if mode.StickyProxy? then url else "", tried)
  }

  /** Only a sticky policy follows a route and leaves one, under its target and the address of the link. */
  lemma OnlyStickyUsesRoutes(cfg: ServiceConfig, nodes: Nodes, routes: Sticky, mode: Mode, platform: string,
      url: string, tried: set<NodeId>, id: NodeId, now: Time)
    ensures var r := RequestFor(mode, platform, url, tried);
      && (mode != StickyProxy ==>
            && Followed(cfg, nodes, routes, r, now) == None && RoutesAfter(cfg, nodes, routes, r, now) == routes
            && Remembering(cfg, routes, r, id, now) == routes)
      && (mode == StickyProxy && url != "" ==>
            var key := TargetFor(platform) + SEPARATOR + url;
            var after := Remembering(cfg, routes, r, id, now);
            key in after && after[key] == StickyEntry(id, now + cfg.stickyTTL, now))
  {
  }

  /** The target of every such request. */
  function TargetFor(platform: string): string {
    Request("platform", platform, "", {}).Target()
  }

  lemma TargetTold(platform: string)
    ensures TargetFor(platform) == "platform:" + platform
  {
  }

  lemma RequestsShareTarget(mode: Mode, platform: string, url: string, tried: set<NodeId>)
    ensures RequestFor(mode, platform, url, tried).Target() == TargetFor(platform)
    ensures RequestFor(mode, platform, url, tried).excluded == tried
  {
  }

  predicate Alone(world: seq<Attempt>) {
    forall k :: 0 <= k < |world| ==> world[k].before == [] && world[k].during == []
  }

  /** What holds of the attempts made so far. w is the pool before the check. */
  ghost predicate Progress(cfg: Config, w: World, target: string, world: seq<Attempt>, ids: seq<NodeId>, mine: seq<nat>,
      now: World, me: nat)
    requires |ids| <= |world|
  {
    && Inv(cfg, now) && |w.leases| <= |now.leases|
    && now == Rounds(cfg, w, target, world, ids, me) && Grantable(cfg, w, target, world, ids, me)
    && Owns(now.leases, |w.leases|, mine, ids, me)
    && (forall j, k :: 0 <= j < k < |ids| ==> ids[j] != ids[k])
    && (Alone(world) ==> |now.leases| == |w.leases| + |ids| && now.inUse == w.inUse)
  }

  lemma ProgressStart(cfg: Config, w: World, target: string, world: seq<Attempt>, me: nat)
    requires Inv(cfg, w)
    ensures Progress(cfg, w, target, world, [], [], w, me)
  {
  }

  lemma ProgressStep(cfg: Config, w: World, target: string, world: seq<Attempt>, ids: seq<NodeId>, mine: seq<nat>,
      now: World, me: nat, id: NodeId)
    requires |ids| < |world| && Progress(cfg, w, target, world, ids, mine, now, me)
    requires Enabled(cfg, Others(cfg, now, world[|ids|].before, me), Taking(world[|ids|], target, IdSet(ids), id, me))
    ensures var a := world[|ids|];
      Progress(cfg, w, target, world, ids + [id], mine + [|Others(cfg, now, a.before, me).leases|],
               Attempted(cfg, now, target, IdSet(ids), a, id, me), me)
  {
    var a, n := world[|ids|], |ids|;
    var lease, next := |Others(cfg, now, a.before, me).leases|, Attempted(cfg, now, target, IdSet(ids), a, id, me);
    AttemptTakesOne(cfg, now, target, IdSet(ids), a, id, me);
    OwnsOneMore(now.leases, next.leases, |w.leases|, mine, ids, me, lease, id);
    assert (ids + [id])[..n] == ids;
    assert id !in IdSet(ids);
    if Alone(world) {
      QuietAttempt(cfg, now, target, IdSet(ids), a, id, me);
    }
  }

  /** How the attempts end: after the last one, or with the others' steps before a refused Acquire. */
  ghost predicate Ends(cfg: Config, w: World, target: string, world: seq<Attempt>, ids: seq<NodeId>, mine: seq<nat>,
      now: World, refused: bool, me: nat)
  {
    && |ids| <= |world| && (refused ==> |ids| < |world|)
    && Inv(cfg, now)
    && Grantable(cfg, w, target, world, ids, me)
    && (!refused ==> now == Rounds(cfg, w, target, world, ids, me))
    && (refused ==> now == Others(cfg, Rounds(cfg, w, target, world, ids, me), world[|ids|].before, me))
    && (refused ==> world[|ids|].cancelled || Exhausted(cfg, now, target, IdSet(ids), world[|ids|], me))
    && Owns(now.leases, |w.leases|, mine, ids, me)
    && (forall j, k :: 0 <= j < k < |ids| ==> ids[j] != ids[k])
    && (Alone(world) ==> |now.leases| == |w.leases| + |ids| && now.inUse == w.inUse)
  }

  lemma EndsRefused(cfg: Config, w: World, target: string, world: seq<Attempt>, ids: seq<NodeId>, mine: seq<nat>,
      now: World, me: nat)
    requires |ids| < |world| && Progress(cfg, w, target, world, ids, mine, now, me)
    requires world[|ids|].cancelled
      || Exhausted(cfg, Others(cfg, now, world[|ids|].before, me), target, IdSet(ids), world[|ids|], me)
    ensures Ends(cfg, w, target, world, ids, mine, Others(cfg, now, world[|ids|].before, me), true, me)
  {
    var a := world[|ids|];
    OthersKeep(cfg, now, a.before, me);
    OwnsKept(now.leases, Others(cfg, now, a.before, me).leases, |w.leases|, mine, ids, me);
  }

  lemma EndsDone(cfg: Config, w: World, target: string, world: seq<Attempt>, ids: seq<NodeId>, mine: seq<nat>,
      now: World, me: nat)
    requires |ids| <= |world| && Progress(cfg, w, target, world, ids, mine, now, me)
    ensures Ends(cfg, w, target, world, ids, mine, now, false, me)
  {
  }

  /** Why the check made no further attempt. */
  predicate Stopped(world: seq<Attempt>, attempts: nat, refused: bool)
    requires attempts <= |world|
  {
    && (forall k :: 0 <= k < attempts - 1 ==> !world[k].outcome.success && world[k].retryable)
    && (!refused && attempts < |world| ==>
          attempts > 0 && (world[attempts - 1].outcome.success || !world[attempts - 1].retryable))
  }

  /** One turn of the loop, seen from the attempts made so far. */
  method Turn(pool: Service, leases: seq<Lease>, request: Request, world: seq<Attempt>, ids: seq<NodeId>,
              ghost mine: seq<nat>, ghost w: World, me: nat)
      returns (id: Option<NodeId>, lease: nat, after: seq<Lease>)
    requires pool.cfg.enabled && |ids| < |world| && request.excluded == IdSet(ids)
    requires Progress(pool.cfg.pool, w, request.Target(), world, ids, mine, World(pool.nodes, pool.inUse, leases), me)
    modifies pool`nodes, pool`inUse, pool`sticky, pool`lastCleanup
    ensures id.Some? ==> Progress(pool.cfg.pool, w, request.Target(), world, ids + [id.value], mine + [lease],
                                  World(pool.nodes, pool.inUse, after), me)
    ensures id.None? ==> Ends(pool.cfg.pool, w, request.Target(), world, ids, mine,
                              World(pool.nodes, pool.inUse, after), true, me)
  {
    ghost var now := World(pool.nodes, pool.inUse, leases);
    id, lease, after := TryOnce(pool, leases, request, world[|ids|], me);
    if id.None? {
      EndsRefused(pool.cfg.pool, w, request.Target(), world, ids, mine, now, me);
    } else {
      ProgressStep(pool.cfg.pool, w, request.Target(), world, ids, mine, now, me, id.value);
    }
  }

  /** All attempts before the last one made failed in a way that allows another. */
  predicate AllRetried(world: seq<Attempt>, attempts: nat)
    requires attempts <= |world|
  {
    forall k :: 0 <= k < attempts ==> !world[k].outcome.success && world[k].retryable
  }

  lemma RetriedOnce(world: seq<Attempt>, attempts: nat)
    requires attempts < |world| && AllRetried(world, attempts)
    ensures world[attempts].outcome.success || !world[attempts].retryable ==> Stopped(world, attempts + 1, false)
    ensures !world[attempts].outcome.success && world[attempts].retryable ==> AllRetried(world, attempts + 1)
    ensures Stopped(world, attempts, true)
  {
  }

  /** The loop over the attempts. */
  method Attempts(pool: Service, mode: Mode, platform: string, url: string, leases: seq<Lease>, world: seq<Attempt>,
                  me: nat)
      returns (after: seq<Lease>, ids: seq<NodeId>, mine: seq<nat>, refused: bool)
    requires pool.cfg.enabled && Inv(pool.cfg.pool, World(pool.nodes, pool.inUse, leases))
    modifies pool`nodes, pool`inUse, pool`sticky, pool`lastCleanup
    ensures Ends(pool.cfg.pool, old(World(pool.nodes, pool.inUse, leases)), TargetFor(platform), world, ids, mine,
                 World(pool.nodes, pool.inUse, after), refused, me)
    ensures Stopped(world, |ids|, refused)
    ensures refused ==> AllRetried(world, |ids|)
  {
    after, ids, mine := leases, [], [];
    ghost var cfg, w, target := pool.cfg.pool, World(pool.nodes, pool.inUse, leases), TargetFor(platform);
    ProgressStart(cfg, w, target, world, me);
    while |ids| < |world|
      invariant |ids| <= |world| && AllRetried(world, |ids|)
      invariant Progress(cfg, w, target, world, ids, mine, World(pool.nodes, pool.inUse, after), me)
      decreases |world| - |ids|
    {
      var a := world[|ids|];
      RetriedOnce(world, |ids|);
      RequestsShareTarget(mode, platform, url, IdSet(ids));
      var id, lease;
      id, lease, after := Turn(pool, after, RequestFor(mode, platform, url, IdSet(ids)), world, ids, mine, w, me);
      if id.None? {
        return after, ids, mine, true;
      }
      ids, mine := ids + [id.value], mine + [lease];
      if a.outcome.success || !a.retryable {
        break;
      }
    }
    EndsDone(cfg, w, target, world, ids, mine, World(pool.nodes, pool.inUse, after), me);
    return after, ids, mine, false;
  }

  /** checkWithProxyPolicy, on a pool with routes. The pool is left exactly as by the other threads' steps and one
      attempt after the other on the nodes ids: pairwise different, at most MaxAttempts, each leased once and returned,
      wherever the check's route points. The check goes on only after a retryable failure, and stops early only if
      Acquire is refused. */
  method CheckWithProxyPolicy(pool: Service, mode: Mode, platform: string, url: string, maxAttempts: nat,
                              leases: seq<Lease>, world: seq<Attempt>, me: nat)
      returns (after: seq<Lease>, ids: seq<NodeId>, mine: seq<nat>, refused: bool, answer: Answer)
    requires Inv(pool.cfg.pool, World(pool.nodes, pool.inUse, leases)) && |world| == maxAttempts
    modifies pool`nodes, pool`inUse, pool`sticky, pool`lastCleanup
    ensures Ends(pool.cfg.pool, old(World(pool.nodes, pool.inUse, leases)), TargetFor(platform), world, ids, mine,
                 World(pool.nodes, pool.inUse, after), refused, me)
    ensures pool.cfg.enabled ==> Stopped(world, |ids|, refused)
    ensures pool.cfg.enabled ==> answer == AnswerOf(mode, |ids|, |ids| > 0 && world[|ids| - 1].outcome.success)
    ensures !pool.cfg.enabled ==> after == leases && ids == [] && !refused && answer == Baseline
    ensures !pool.cfg.enabled ==> pool.nodes == old(pool.nodes) && pool.sticky == old(pool.sticky)
  {
    if !pool.cfg.enabled {
      ghost var w := World(pool.nodes, pool.inUse, leases);
      ProgressStart(pool.cfg.pool, w, TargetFor(platform), world, me);
      EndsDone(pool.cfg.pool, w, TargetFor(platform), world, [], [], w, me);
      return leases, [], [], false, Baseline;
    }
    after, ids, mine, refused := Attempts(pool, mode, platform, url, leases, world, me);
    var success := |ids| > 0 && world[|ids| - 1].outcome.success;
    answer := AnswerOf(mode, |ids|, success);
  }
}
