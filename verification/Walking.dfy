/** walkShipmentTo: how far a walk gets, for every role and every answer of the geofence, and how
    the order follows the shipment. */
module Walking {
  import opened Status
  import opened Stops
  import opened Journey

  // ---- The order follows the shipment --------------------------------------------------------

  function Image(s: ShipmentStatus): OrderStatus {
    if s == SHIPMENT_ASSIGNED then OrderAssigned
    else if s == SHIPMENT_FINISHED then OrderCompleted
    else OrderInTransit
  }

  predicate Linked(w: World) {
    if OnChain(w.shipment.status) then w.order.status == Image(w.shipment.status)
    else
      && w.shipment.status == SHIPMENT_CANCELLED
      && (w.order.status == OrderAssigned || w.order.status == OrderInTransit)
  }

  /** The order status held in memory is current, or is what the order was before this very walk
      put it in transit; either way a step to `finished` must not meet a stale copy. */
  predicate CanSync(w: World, known: OrderStatus, to: ShipmentStatus) {
    if known == w.order.status then w.shipment.status == SHIPMENT_ASSIGNED ==> to != SHIPMENT_FINISHED
    else known == OrderAssigned && w.order.status == OrderInTransit && to != SHIPMENT_FINISHED
  }

  // ---- How far a walk gets -------------------------------------------------------------------

  predicate Permits(actor: Actor, from: ShipmentStatus, to: ShipmentStatus, role: Role, fence: Fence) {
    CanTransitionShipment(from, to, role) == Allowed && !FenceRefuses(actor, fence, to, role)
  }

  /** The furthest status on the way to `to` whose every step is let through. */
  function Reach(actor: Actor, from: ShipmentStatus, to: ShipmentStatus, role: Role, fence: Fence): ShipmentStatus
    decreases SHIPMENT_UNKNOWN - from
  {
    var next := NextTowards(from, to);
    if next.None? || !Permits(actor, from, next.value, role, fence) then from
    else Reach(actor, next.value, to, role, fence)
  }

  /** A status a climb from one status to another enters. */
  predicate ClimbsThrough(from: ShipmentStatus, s: ShipmentStatus, to: ShipmentStatus) {
    from < s <= to && !IsLegacy(s)
  }

  /** Exactly the statuses climbed through are stamped, with `now`. */
  ghost predicate StampedBetween(before: map<ShipmentStatus, Time>, from: ShipmentStatus, to: ShipmentStatus,
      after: map<ShipmentStatus, Time>, now: Time) {
    forall s :: if ClimbsThrough(from, s, to) then s in after && after[s] == now
                else (s in after <==> s in before) && (s in before ==> after[s] == before[s])
  }

  /** What one step towards `to` leaves behind when it is let through. */
  ghost predicate Followed(w: World, known: OrderStatus, s: ShipmentStatus, to: ShipmentStatus, v: World, now: Time) {
    && v.shipment.status == s
    && v.shipment.reachedAt == w.shipment.reachedAt[s := now]
    && SameButMoved(w, v)
    && Linked(v)
    && (s == SHIPMENT_FINISHED || CanSync(v, known, to))
  }

  lemma StepIsPermittedAndSynced(w: World, known: OrderStatus, actor: Actor, to: ShipmentStatus, role: Role,
      fence: Fence, now: Time)
    requires Linked(w) && CanSync(w, known, to) && !IsLegacy(to)
    requires NextTowards(w.shipment.status, to).Some?
    ensures var s := NextTowards(w.shipment.status, to).value;
            var r := Step(w, known, actor, s, role, fence, now);
            if Permits(actor, w.shipment.status, s, role, fence) then
              r.failure.None? && Followed(w, known, s, to, r.world, now)
            else r.world == w && r.failure.Some?
  {
  }

  lemma StampsJoin(before: map<ShipmentStatus, Time>, from: ShipmentStatus, to: ShipmentStatus, mid: ShipmentStatus,
      after: map<ShipmentStatus, Time>, target: ShipmentStatus, now: Time)
    requires NextTowards(from, target) == Some(mid) && !IsLegacy(target) && mid <= to
    requires StampedBetween(before[mid := now], mid, to, after, now)
    ensures StampedBetween(before, from, to, after, now)
  {
  }

  /** What the walk guarantees: it stands exactly at its reach, has stamped exactly the statuses it
      climbed through, has kept the order in step and everything else as it was, and fails exactly
      when a step towards the target remains. */
  ghost predicate WalkedTo(w: World, to: ShipmentStatus, reach: ShipmentStatus, r: Reply, now: Time) {
    && r.world.shipment.status == reach
    && w.shipment.status <= reach
    && StampedBetween(w.shipment.reachedAt, w.shipment.status, reach, r.world.shipment.reachedAt, now)
    && SameButMoved(w, r.world)
    && Linked(r.world)
    && (r.failure.None? <==> NextTowards(reach, to).None?)
  }

  lemma {:induction false} WalkGoesAsFarAsItMay(w: World, known: OrderStatus, actor: Actor, to: ShipmentStatus,
      role: Role, fence: Fence, now: Time)
    requires Linked(w) && !IsLegacy(to)
    requires NextTowards(w.shipment.status, to).None? || CanSync(w, known, to)
    ensures WalkedTo(w, to, Reach(actor, w.shipment.status, to, role, fence),
            Walk(w, known, actor, to, role, fence, now), now)
    decreases SHIPMENT_UNKNOWN - w.shipment.status
  {
    var from := w.shipment.status;
    var next := NextTowards(from, to);
    if next.Some? {
      StepIsPermittedAndSynced(w, known, actor, to, role, fence, now);
      if Permits(actor, from, next.value, role, fence) {
        var moved := Step(w, known, actor, next.value, role, fence, now).world;
        WalkGoesAsFarAsItMay(moved, known, actor, to, role, fence, now);
        var r := Walk(moved, known, actor, to, role, fence, now);
        StampsJoin(w.shipment.reachedAt, from, r.world.shipment.status, next.value, r.world.shipment.reachedAt, to,
            now);
      }
    }
  }

  /** The reach lies between the start and the target, and a step that remains is a refused one. */
  lemma {:induction false} ReachFacts(actor: Actor, from: ShipmentStatus, to: ShipmentStatus, role: Role, fence: Fence)
    ensures var reach := Reach(actor, from, to, role, fence);
            && from <= reach
            && (reach != from ==> reach <= to && !IsLegacy(reach) && OnChain(reach))
            && (NextTowards(reach, to).Some? ==> !Permits(actor, reach, NextTowards(reach, to).value, role, fence))
    decreases SHIPMENT_UNKNOWN - from
  {
    var next := NextTowards(from, to);
    if next.Some? && Permits(actor, from, next.value, role, fence) {
      LiveStepsOnly(from, to);
      ReachFacts(actor, next.value, to, role, fence);
    }
  }

  lemma LiveStepsOnly(from: ShipmentStatus, to: ShipmentStatus)
    requires NextTowards(from, to).Some?
    ensures !IsLegacy(NextTowards(from, to).value)
  {
  }

  /** Every status the walk stands at, from its start to its reach. */
  function Path(actor: Actor, from: ShipmentStatus, to: ShipmentStatus, role: Role,
      fence: Fence): (path: seq<ShipmentStatus>)
    ensures |path| > 0 && path[0] == from
    decreases SHIPMENT_UNKNOWN - from
  {
    var next := NextTowards(from, to);
    if next.None? || !Permits(actor, from, next.value, role, fence) then [from]
    else [from] + Path(actor, next.value, to, role, fence)
  }

  /** The walk takes edges of the table the role may take, each to a later status that is no legacy
      state, and ends at its reach. */
  lemma {:induction false} WalkTakesItsEdges(actor: Actor, from: ShipmentStatus, to: ShipmentStatus, role: Role,
      fence: Fence, i: nat)
    requires i < |Path(actor, from, to, role, fence)|
    ensures var path := Path(actor, from, to, role, fence);
            if i + 1 == |path| then path[i] == Reach(actor, from, to, role, fence)
            else
              && path[i] < path[i + 1] <= to && !IsLegacy(path[i + 1])
              && CanTransitionShipment(path[i], path[i + 1], role) == Allowed
    decreases i
  {
    var next := NextTowards(from, to);
    if next.Some? && Permits(actor, from, next.value, role, fence) {
      LiveStepsOnly(from, to);
      if i > 0 { WalkTakesItsEdges(actor, next.value, to, role, fence, i - 1); }
    }
  }

  /** The statuses the stored shipment has during a walk, from its start to where the walk leaves it. */
  function Passed(w: World, known: OrderStatus, actor: Actor, to: ShipmentStatus, role: Role, fence: Fence,
      now: Time): (passed: seq<ShipmentStatus>)
    decreases SHIPMENT_UNKNOWN - w.shipment.status
  {
    match NextTowards(w.shipment.status, to)
    case None => [w.shipment.status]
    case Some(next) =>
      var moved := Step(w, known, actor, next, role, fence, now);
      if moved.failure.None? then [w.shipment.status] + Passed(moved.world, known, actor, to, role, fence, now)
      else if moved.world.shipment.status == w.shipment.status then [w.shipment.status]
      else [w.shipment.status, moved.world.shipment.status]
  }

  ghost predicate Follows(passed: seq<ShipmentStatus>, path: seq<ShipmentStatus>, r: Reply) {
    && passed <= path && passed != [] && passed[|passed| - 1] == r.world.shipment.status
    && (passed != path ==> r.failure.Some? && OrderFollowsInto(r.world.shipment.status))
  }

  lemma FollowsFromBefore(s: ShipmentStatus, passed: seq<ShipmentStatus>, path: seq<ShipmentStatus>, r: Reply)
    requires Follows(passed, path, r)
    ensures Follows([s] + passed, [s] + path, r)
  {
  }

  /** Whatever state the order is in, a walk takes the edges of Path in turn, from its start to the
      status it leaves stored; the order failing to follow is all that can keep it from the rest. */
  lemma {:induction false} WalkFollowsPath(w: World, known: OrderStatus, actor: Actor, to: ShipmentStatus, role: Role,
      fence: Fence, now: Time)
    ensures Follows(Passed(w, known, actor, to, role, fence, now), Path(actor, w.shipment.status, to, role, fence),
                    Walk(w, known, actor, to, role, fence, now))
    decreases SHIPMENT_UNKNOWN - w.shipment.status
  {
    var from := w.shipment.status;
    var next := NextTowards(from, to);
    if next.Some? {
      StepStandsWhereItStepped(w, known, actor, next.value, role, fence, now);
      var moved := Step(w, known, actor, next.value, role, fence, now);
      if moved.failure.None? {
        WalkFollowsPath(moved.world, known, actor, to, role, fence, now);
        var rest := Walk(moved.world, known, actor, to, role, fence, now);
        FollowsFromBefore(from, Passed(moved.world, known, actor, to, role, fence, now),
                          Path(actor, next.value, to, role, fence), rest);
      }
    }
  }

  /** walkShipmentTo, for every start on the chain, every non-legacy target on it, every role and
      every fence: it climbs (by the edges WalkTakesItsEdges names), never passes the target, stops
      at the first step the role or the fence refuses and at no other place, and reports no failure
      exactly when it stands at or past the target. */
  lemma {:induction false} WalkTheorem(w: World, actor: Actor, to: ShipmentStatus, role: Role, fence: Fence, now: Time)
    requires Linked(w) && OnChain(w.shipment.status) && OnChain(to) && !IsLegacy(to)
    requires !(w.shipment.status == SHIPMENT_ASSIGNED && to == SHIPMENT_FINISHED)
    ensures var r := Walk(w, w.order.status, actor, to, role, fence, now);
            var reach := r.world.shipment.status;
            && w.shipment.status <= reach && (reach != w.shipment.status ==> reach <= to && !IsLegacy(reach))
            && (r.failure.None? <==> AtOrPast(reach, to))
            && (r.failure.Some? ==> !Permits(actor, reach, NextTowards(reach, to).value, role, fence))
            && WalkedTo(w, to, reach, r, now)
  {
    WalkGoesAsFarAsItMay(w, w.order.status, actor, to, role, fence, now);
    ReachFacts(actor, w.shipment.status, to, role, fence);
    NextTowardsIsAnEdge(Reach(actor, w.shipment.status, to, role, fence), to);
  }

  /** The two statuses the order has to follow the shipment into. */
  predicate OrderFollowsInto(s: ShipmentStatus) { s == SHIPMENT_TO_LOADING || s == SHIPMENT_FINISHED }

  ghost predicate StoppedRightly(from: ShipmentStatus, actor: Actor, to: ShipmentStatus, role: Role, fence: Fence,
      r: Reply) {
    var reach := r.world.shipment.status;
    && from <= reach && (reach != from ==> reach <= to && !IsLegacy(reach))
    && (r.failure.None? ==> NextTowards(reach, to).None?)
    && (r.failure.Some? ==>
          (NextTowards(reach, to).Some? && !Permits(actor, reach, NextTowards(reach, to).value, role, fence))
          || (reach != from && OrderFollowsInto(reach)))
  }

  lemma OnlyTheOrderFollows(w: World, known: OrderStatus, actor: Actor, reached: ShipmentStatus)
    ensures var r := SyncOrder(w, known, actor, reached);
            && r.world == w.(order := r.world.order) && SameButMoved(w, r.world)
            && (r.failure.Some? ==> OrderFollowsInto(reached))
  {
  }

  lemma {:induction false} StepStandsWhereItStepped(w: World, known: OrderStatus, actor: Actor, s: ShipmentStatus,
      role: Role,
      fence: Fence, now: Time)
    ensures var r := Step(w, known, actor, s, role, fence, now);
            && SameButMoved(w, r.world)
            && r.world.shipment.status
                 == (if Permits(actor, w.shipment.status, s, role, fence) then s else w.shipment.status)
            && (!Permits(actor, w.shipment.status, s, role, fence) ==> r.failure.Some?)
            && (Permits(actor, w.shipment.status, s, role, fence) && r.failure.Some? ==> OrderFollowsInto(s))
  {
    if Permits(actor, w.shipment.status, s, role, fence) { OnlyTheOrderFollows(Entered(w, s, now), known, actor, s); }
  }

  /** Whatever state the order is in: a walk stops on its target, at the first step the role or the
      fence refuses, or where the order fails to follow, which is at `toLoading` or `finished` with
      the shipment already there. */
  lemma {:induction false} EveryWalkStopsRightly(w: World, known: OrderStatus, actor: Actor, to: ShipmentStatus,
      role: Role, fence: Fence, now: Time)
    requires !IsLegacy(to)
    ensures StoppedRightly(w.shipment.status, actor, to, role, fence, Walk(w, known, actor, to, role, fence, now))
    decreases SHIPMENT_UNKNOWN - w.shipment.status
  {
    var from := w.shipment.status;
    var next := NextTowards(from, to);
    if next.Some? {
      LiveStepsOnly(from, to);
      StepStandsWhereItStepped(w, known, actor, next.value, role, fence, now);
      var moved := Step(w, known, actor, next.value, role, fence, now);
      if moved.failure.None? { EveryWalkStopsRightly(moved.world, known, actor, to, role, fence, now); }
    }
  }

  // ---- The one walk the order cannot follow --------------------------------------------------

  lemma NextTowardsEither(from: ShipmentStatus, to: ShipmentStatus, further: ShipmentStatus)
    requires from < to < further && OnChain(further) && !IsLegacy(to) && !IsLegacy(further)
    ensures NextTowards(from, to).Some? && NextTowards(from, to) == NextTowards(from, further)
  {
  }

  /** A walk is its first step and then the walk from there. */
  lemma WalkUnfolds(w: World, known: OrderStatus, actor: Actor, to: ShipmentStatus, next: ShipmentStatus, role: Role,
      fence: Fence, now: Time)
    requires NextTowards(w.shipment.status, to) == Some(next)
    ensures var moved := Step(w, known, actor, next, role, fence, now);
            && (moved.failure.None? ==> moved.world.shipment.status == next)
            && Walk(w, known, actor, to, role, fence, now) ==
               if moved.failure.Some? then moved else Walk(moved.world, known, actor, to, role, fence, now)
  {
  }

  ghost predicate SplitsAt(w: World, known: OrderStatus, actor: Actor, to: ShipmentStatus, further: ShipmentStatus,
      role: Role, fence: Fence, now: Time) {
    var first := Walk(w, known, actor, to, role, fence, now);
    Walk(w, known, actor, further, role, fence, now) ==
    if first.failure.Some? then first else Walk(first.world, known, actor, further, role, fence, now)
  }

  lemma {:induction false} WalkInTwoParts(w: World, known: OrderStatus, actor: Actor, to: ShipmentStatus,
      further: ShipmentStatus, role: Role, fence: Fence, now: Time)
    requires to < further && OnChain(further) && !IsLegacy(to) && !IsLegacy(further)
    ensures SplitsAt(w, known, actor, to, further, role, fence, now)
    decreases SHIPMENT_UNKNOWN - w.shipment.status
  {
    var from := w.shipment.status;
    if from < to {
      NextTowardsEither(from, to, further);
      var next := NextTowards(from, to).value;
      WalkUnfolds(w, known, actor, to, next, role, fence, now);
      WalkUnfolds(w, known, actor, further, next, role, fence, now);
      var moved := Step(w, known, actor, next, role, fence, now);
      if moved.failure.None? { WalkInTwoParts(moved.world, known, actor, to, further, role, fence, now); }
    } else {
      assert NextTowards(from, to).None?;
    }
  }

  lemma {:induction false} ReachInTwoParts(actor: Actor, from: ShipmentStatus, to: ShipmentStatus,
      further: ShipmentStatus, role: Role, fence: Fence)
    requires from <= to < further && OnChain(further) && !IsLegacy(to) && !IsLegacy(further)
    requires Reach(actor, from, further, role, fence) == further
    ensures Reach(actor, from, to, role, fence) == to && Reach(actor, to, further, role, fence) == further
    decreases SHIPMENT_UNKNOWN - from
  {
    if from < to {
      NextTowardsEither(from, to, further);
      ReachInTwoParts(actor, NextTowards(from, to).value, to, further, role, fence);
    }
  }

  /** The one walk whose steps are all let through and that still fails: from the very first status
      to the very last, because the order in memory still reads `assigned` when `finished` asks it
      to complete. No caller asks for it; the shipment would stay finished, the order in transit. */
  lemma {:induction false} StaleOrderFailsTheFullWalkOnly(w: World, actor: Actor, to: ShipmentStatus, role: Role,
      fence: Fence, now: Time)
    requires Linked(w) && OnChain(w.shipment.status) && OnChain(to) && !IsLegacy(to)
    requires w.shipment.status <= to && Reach(actor, w.shipment.status, to, role, fence) == to
    ensures var r := Walk(w, w.order.status, actor, to, role, fence, now);
            && (r.failure.Some? <==> w.shipment.status == SHIPMENT_ASSIGNED && to == SHIPMENT_FINISHED)
            && (r.failure.Some? ==>
                 r.world.shipment.status == SHIPMENT_FINISHED && r.world.order.status == OrderInTransit)
  {
    if w.shipment.status == SHIPMENT_ASSIGNED && to == SHIPMENT_FINISHED {
      ReachInTwoParts(actor, SHIPMENT_ASSIGNED, SHIPMENT_UNLOADED, SHIPMENT_FINISHED, role, fence);
      WalkGoesAsFarAsItMay(w, w.order.status, actor, SHIPMENT_UNLOADED, role, fence, now);
      WalkInTwoParts(w, w.order.status, actor, SHIPMENT_UNLOADED, SHIPMENT_FINISHED, role, fence, now);
      StaleFinish(Walk(w, w.order.status, actor, SHIPMENT_UNLOADED, role, fence, now).world, actor, role, fence, now);
    } else {
      WalkTheorem(w, actor, to, role, fence, now);
      WalkGoesAsFarAsItMay(w, w.order.status, actor, to, role, fence, now);
    }
  }

  lemma StaleFinish(w: World, actor: Actor, role: Role, fence: Fence, now: Time)
    requires w.shipment.status == SHIPMENT_UNLOADED && Linked(w)
    requires Reach(actor, SHIPMENT_UNLOADED, SHIPMENT_FINISHED, role, fence) == SHIPMENT_FINISHED
    ensures var r := Walk(w, OrderAssigned, actor, SHIPMENT_FINISHED, role, fence, now);
            r.failure.Some? && r.world.shipment.status == SHIPMENT_FINISHED && r.world.order.status == OrderInTransit
  {
  }

  // ---- Every call keeps the link -------------------------------------------------------------

  lemma StepKeepsLink(w: World, actor: Actor, to: ShipmentStatus, role: Role, fence: Fence, now: Time)
    requires Linked(w)
    ensures Linked(Step(w, w.order.status, actor, to, role, fence, now).world)
  {
  }

  /** The system never takes the first step of the chain, so it never makes the order in memory stale. */
  lemma SystemNeverStarts(actor: Actor, to: ShipmentStatus, fence: Fence)
    ensures Reach(actor, SHIPMENT_ASSIGNED, to, RoleSystem, fence) == SHIPMENT_ASSIGNED
  {
  }

  lemma EndStageKeepsLink(w: World, actor: Actor, stage: Kind, now: Time)
    requires Linked(w)
    ensures Linked(EndStage(w, w.order.status, actor, stage, now).world)
    ensures SameButMoved(w, EndStage(w, w.order.status, actor, stage, now).world)
  {
    var ends := StageEnds(stage);
    SystemNeverStarts(actor, ends.0, NO_POSITION);
    WalkGoesAsFarAsItMay(w, w.order.status, actor, ends.0, RoleSystem, NO_POSITION, now);
    var first := Walk(w, w.order.status, actor, ends.0, RoleSystem, NO_POSITION, now);
    ReachFacts(actor, w.shipment.status, ends.0, RoleSystem, NO_POSITION);
    if first.failure.None? {
      WalkGoesAsFarAsItMay(first.world, w.order.status, actor, ends.1, RoleSystem, NO_POSITION, now);
    }
  }

  lemma StartKeepsLink(w: World, actor: Actor, stop: StopId, handover: bool, fence: Fence, now: Time)
    requires Linked(w)
    ensures Linked(StartStop(w, actor, stop, handover, fence, now).world)
  {
    var i := IndexOf(w.stops, stop);
    if i >= 0 {
      var started := WithStop(w, i, w.stops[i].(startedAt := Some(now)));
      WalkGoesAsFarAsItMay(started, w.order.status, actor, StatusForStop(w.stops[i].kind), MachineRole(actor, w.order),
          fence, now);
    }
  }

  /** The order is the fixed image of its shipment after every call by anybody, administrators and
      the testing bypass included, as long as the order moves only along with the shipment. */
  lemma {:induction false} EveryCallKeepsLink(w: World, e: Event, now: Time)
    requires Linked(w)
    ensures Linked(Apply(w, e, now).world)
  {
    match e
    case Start(a, stop, handover, fence) => StartKeepsLink(w, a, stop, handover, fence, now);
    case Move(a, to, handover, fence) => StepKeepsLink(w, a, to, MachineRole(a, w.order), fence, now);
    case Review(a, pod, approve, reason) =>
      if pod in w.pods {
        EndStageKeepsLink(Closed(Decided(w, pod, PodApproved), pod, now), a, w.pods[pod].stage, now);
      }
    case _ =>
  }

  lemma {:induction false} EveryRunKeepsLink(w: World, events: seq<Event>)
    requires Linked(w)
    ensures Linked(Run(w, events))
    decreases |events|
  {
    if events != [] {
      var before := events[..|events| - 1];
      EveryRunKeepsLink(w, before);
      EveryCallKeepsLink(Run(w, before), events[|events| - 1], |before|);
    }
  }

  // ---- A stale order, shown ------------------------------------------------------------------

  lemma {:induction false} AdministratorsGoAllTheWay(actor: Actor, from: ShipmentStatus, to: ShipmentStatus,
      fence: Fence)
    requires IsPlatform(actor.role) && from <= to && OnChain(to) && !IsLegacy(to)
    ensures Reach(actor, from, to, actor.role, fence) == to
    decreases SHIPMENT_UNKNOWN - from
  {
    if from < to {
      NextTowardsIsAnEdge(from, to);
      AdministratorPasses(actor, from, NextTowards(from, to).value, fence);
      AdministratorsGoAllTheWay(actor, NextTowards(from, to).value, to, fence);
    }
  }

  lemma AdministratorPasses(actor: Actor, from: ShipmentStatus, to: ShipmentStatus, fence: Fence)
    requires IsPlatform(actor.role) && ShipmentEdge(from, to) != NoEdge
    ensures Permits(actor, from, to, actor.role, fence)
  {
  }

  /** An administrator's walk from `assigned` to `finished`: the shipment ends finished, the order in
      transit, and the call fails. */
  lemma StaleOrderShown() returns (w: World, actor: Actor)
    ensures Linked(w) && w.shipment.status == SHIPMENT_ASSIGNED
    ensures var r := Walk(w, w.order.status, actor, SHIPMENT_FINISHED, actor.role, NO_POSITION, 0);
            r.failure.Some? && r.world.shipment.status == SHIPMENT_FINISHED && r.world.order.status == OrderInTransit
  {
    actor := Actor(0, 1, RoleAdmin, false);
    w := World([], map[], Shipment(SHIPMENT_ASSIGNED, None, map[], None, None), Order(OrderAssigned, 1, None), false);
    AdministratorsGoAllTheWay(actor, SHIPMENT_ASSIGNED, SHIPMENT_FINISHED, NO_POSITION);
    StaleOrderFailsTheFullWalkOnly(w, actor, SHIPMENT_FINISHED, RoleAdmin, NO_POSITION, 0);
  }
}
