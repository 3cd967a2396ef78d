/** What each call of a journey does, said of the rows themselves: who may make it, what it records
    and when it is refused. Nothing here speaks of how the calls are written. */
module JourneyLaws {
  import opened Status
  import opened Stops
  import opened Journey
  import opened Walking
  import opened JourneySafety
  import opened JourneyResults
  import opened JourneyLimits

  // ---- Who is who ----------------------------------------------------------------------------

  /** Of one of the two companies on the order. */
  predicate IsParty(w: World, a: Actor) {
    a.company == w.order.shipper || w.order.transporter == Some(a.company)
  }

  predicate IsItsDriver(w: World, a: Actor) { w.shipment.driver == Some(a.user) }

  /** Neither the testing bypass nor an administrator. */
  predicate IsOrdinary(a: Actor) { !a.bypass && a.role != RoleAdmin && a.role != RoleSuperadmin }

  /** A driver at work, whom the gates bind. */
  predicate IsPlainDriver(a: Actor) { a.role == RoleDriver && !a.bypass }

  /** May report what happens at a stop. */
  predicate ReportsAtStops(w: World, a: Actor) { IsItsDriver(w, a) || a.bypass || a.role == RoleAdmin }

  /** May act for the shipment: a driver for their own, a party's other people for theirs. */
  predicate ActsForShipment(w: World, a: Actor) {
    IsParty(w, a) && (IsPlainDriver(a) ==> IsItsDriver(w, a))
  }

  // ---- Visits --------------------------------------------------------------------------------

  /** An arrival is recorded exactly when its driver, or one who may stand in, reports the next point
      of the journey from within its fence. Nothing else changes. */
  lemma ArrivalIsRecordedIff(w: World, a: Actor, k: nat, fence: Fence, now: Time)
    requires DistinctIds(w.stops) && k < |w.stops| && w.stops[k].arrivedAt.None?
    ensures var r := ArriveAtStop(w, a, w.stops[k].id, fence, now);
            var allowed := && ReportsAtStops(w, a) && (IsOrdinary(a) ==> !fence.stop)
                           && forall j :: 0 <= j < k ==> w.stops[j].arrivedAt.Some? || w.stops[j].finishedAt.Some?;
            && (r.failure.None? <==> allowed)
            && (r.failure == Some(Forbidden) <==> !ReportsAtStops(w, a))
            && (r.failure == Some(Invalid) <==> ReportsAtStops(w, a) && !allowed)
            && r.world == if allowed then w.(stops := w.stops[k := w.stops[k].(arrivedAt := Some(now))]) else w
  {
    DistinctRows(w, IndexOf(w.stops, w.stops[k].id), k);
  }

  /** The first report of an arrival stands. */
  lemma ArrivalStands(w: World, a: Actor, stop: StopId, fence: Fence, now: Time, k: nat)
    requires k < |w.stops| && w.stops[k].arrivedAt.Some?
    ensures var v := ArriveAtStop(w, a, stop, fence, now).world;
            k < |v.stops| && v.stops[k].arrivedAt == w.stops[k].arrivedAt
  {
  }

  /** Work at a stop begins exactly when it has been arrived at and its driver, or one who may stand
      in, reports from within its fence; a driver unloads only with the receiver's code confirmed. The
      answer is about the stop: the shipment that may not follow is no failure. */
  lemma StartIsRecordedIff(w: World, a: Actor, k: nat, handover: bool, fence: Fence, now: Time)
    requires DistinctIds(w.stops) && k < |w.stops| && w.stops[k].startedAt.None?
    ensures var r := StartStop(w, a, w.stops[k].id, handover, fence, now);
            var allowed := && ReportsAtStops(w, a) && w.stops[k].arrivedAt.Some? && (IsOrdinary(a) ==> !fence.stop)
                           && (w.stops[k].kind == Unload && IsPlainDriver(a) ==> handover);
            && (r.failure.None? <==> allowed)
            && (r.failure == Some(Forbidden) <==> !ReportsAtStops(w, a))
            && (r.failure == Some(Invalid) <==> ReportsAtStops(w, a) && !allowed)
            && r.world.stops == (if allowed then w.stops[k := w.stops[k].(startedAt := Some(now))] else w.stops)
            && (!allowed ==> r.world == w)
  {
    DistinctRows(w, IndexOf(w.stops, w.stops[k].id), k);
    WalkOnlyClimbs(WithStop(w, k, w.stops[k].(startedAt := Some(now))), w.order.status, a,
                   StatusForStop(w.stops[k].kind), MachineRole(a, w.order), fence, now);
  }

  /** The first report of a start stands, and a second one is no failure. */
  lemma StartStands(w: World, a: Actor, k: nat, handover: bool, fence: Fence, now: Time)
    requires DistinctIds(w.stops) && k < |w.stops| && w.stops[k].startedAt.Some? && w.stops[k].arrivedAt.Some?
    ensures var r := StartStop(w, a, w.stops[k].id, handover, fence, now);
            r.world == w && (r.failure.None? <==> ReportsAtStops(w, a))
  {
    DistinctRows(w, IndexOf(w.stops, w.stops[k].id), k);
  }

  /** With the work, the shipment walks as far as the caller's role and the fence let it, and no further
      than the status of that work. */
  lemma {:induction false} StartTakesItsWalk(w: World, a: Actor, k: nat, handover: bool, fence: Fence, now: Time)
    requires Linked(w) && DistinctIds(w.stops) && k < |w.stops| && w.stops[k].startedAt.None?
    requires StartStop(w, a, w.stops[k].id, handover, fence, now).failure.None?
    ensures var v := StartStop(w, a, w.stops[k].id, handover, fence, now).world;
            var to := if w.stops[k].kind == Load then SHIPMENT_LOADING else SHIPMENT_UNLOADING;
            && v.shipment.status == Reach(a, w.shipment.status, to, MachineRole(a, w.order), fence)
            && StampedBetween(w.shipment.reachedAt, w.shipment.status, v.shipment.status, v.shipment.reachedAt, now)
  {
    DistinctRows(w, IndexOf(w.stops, w.stops[k].id), k);
    WalkGoesAsFarAsItMay(WithStop(w, k, w.stops[k].(startedAt := Some(now))), w.order.status, a,
                         StatusForStop(w.stops[k].kind), MachineRole(a, w.order), fence, now);
  }

  lemma StopCheckIsRecordedIff(w: World, a: Actor, k: nat, answered: bool, now: Time)
    requires DistinctIds(w.stops) && k < |w.stops|
    ensures var r := CheckStopCargo(w, a, w.stops[k].id, answered, now);
            var allowed := ReportsAtStops(w, a) && answered && w.stops[k].startedAt.Some?;
            && (r.failure.None? <==> allowed)
            && (r.failure == Some(Forbidden) <==> !ReportsAtStops(w, a))
            && r.world == if allowed then w.(stops := w.stops[k := w.stops[k].(cargoCheckedAt := Some(now))]) else w
  {
    DistinctRows(w, IndexOf(w.stops, w.stops[k].id), k);
  }

  /** Another journey's stop is nobody's to report from. */
  lemma UnknownStopIsRefused(w: World, a: Actor, stop: StopId, handover: bool, answered: bool, fence: Fence, now: Time)
    requires forall k :: 0 <= k < |w.stops| ==> w.stops[k].id != stop
    ensures var arrive := ArriveAtStop(w, a, stop, fence, now); arrive.failure.Some? && arrive.world == w
    ensures var start := StartStop(w, a, stop, handover, fence, now); start.failure.Some? && start.world == w
    ensures var check := CheckStopCargo(w, a, stop, answered, now); check.failure.Some? && check.world == w
  {
  }

  // ---- The shipment --------------------------------------------------------------------------

  /** The working and arrival statuses a fence guards, and whom it binds. */
  predicate FenceAllows(a: Actor, to: ShipmentStatus, role: Role, fence: Fence) {
    && (to == SHIPMENT_AT_LOADING && IsOrdinary(a) ==> !fence.atLoading)
    && (to == SHIPMENT_AT_UNLOADING && IsOrdinary(a) ==> !fence.atUnloading)
    && (to == SHIPMENT_LOADING && role == RoleDriver && !a.bypass ==> !fence.loading)
    && (to == SHIPMENT_UNLOADING && role == RoleDriver && !a.bypass ==> !fence.unloading)
  }

  /** A shipment-level report moves the shipment exactly when an entitled party asks for a move its
      table allows it, from within the fence, and, for a driver about to unload, with the receiver's
      code confirmed. */
  lemma MoveIsMadeIff(w: World, a: Actor, to: ShipmentStatus, handover: bool, fence: Fence, now: Time)
    requires to != w.shipment.status
    ensures var r := Advance(w, a, to, handover, fence, now);
            var v, role := r.world, MachineRole(a, w.order);
            var allowed := && ActsForShipment(w, a)
                           && (to == SHIPMENT_UNLOADING && IsPlainDriver(a) ==> handover)
                           && CanTransitionShipment(w.shipment.status, to, role) == Allowed
                           && FenceAllows(a, to, role, fence);
            && v.shipment.status == (if allowed then to else w.shipment.status)
            && v.stops == w.stops && v.pods == w.pods && (!allowed ==> v == w && r.failure.Some?)
            && (r.failure == Some(Forbidden) <==> !ActsForShipment(w, a))
  {
    StepFacts(w, w.order.status, a, to, MachineRole(a, w.order), fence, now);
    StepStandsWhereItStepped(w, w.order.status, a, to, MachineRole(a, w.order), fence, now);
  }

  /** The role a caller moves shipments and orders under. */
  lemma RoleOfCaller(w: World, a: Actor)
    ensures var role := MachineRole(a, w.order);
            && (a.bypass ==> role == RoleAdmin)
            && (!a.bypass && a.role in {RoleAdmin, RoleSuperadmin, RoleDriver, RoleWarehousePic, RoleManager} ==>
                  role == a.role)
            && (!a.bypass && a.role !in {RoleAdmin, RoleSuperadmin, RoleDriver, RoleWarehousePic, RoleManager} ==>
                  role == if w.order.transporter == Some(a.company) then RoleTransporter
                          else if w.order.shipper == a.company then RoleShipper else a.role)
  {
  }

  /** A step moves its order only along the order's own table, only from the status remembered, and
      only into transit or to completion; when the order may not follow, the step says so. */
  lemma {:induction false} OrderFollowsLawfully(w: World, known: OrderStatus, a: Actor, to: ShipmentStatus, role: Role,
      fence: Fence, now: Time)
    ensures var r := Step(w, known, a, to, role, fence, now);
            var target := if to == SHIPMENT_TO_LOADING then OrderInTransit else OrderCompleted;
            && (r.world.order.status != w.order.status ==>
                  && (to == SHIPMENT_TO_LOADING || to == SHIPMENT_FINISHED)
                  && r.world.order.status == target && w.order.status == known
                  && CanTransitionOrder(known, target, MachineRole(a, w.order)) == Allowed)
            && (r.world.shipment.status != w.shipment.status && r.failure.None?
                && (to == SHIPMENT_TO_LOADING || to == SHIPMENT_FINISHED) ==>
                  known == target || r.world.order.status == target)
  {
  }

  // ---- Cargo checks and crossings ------------------------------------------------------------

  /** The shipment's loading check is taken while it loads, from its driver or a party's other people;
      the unloading one while it unloads, from a party's people other than a driver. */
  lemma CargoCheckIsRecordedIff(w: World, a: Actor, stage: Kind, now: Time)
    ensures var r := CargoCheck(w, a, stage, now);
            var allowed := && IsParty(w, a)
                           && (stage == Load ==> w.shipment.status == SHIPMENT_LOADING && ActsForShipment(w, a))
                           && (stage == Unload ==> w.shipment.status == SHIPMENT_UNLOADING && !IsPlainDriver(a));
            && (r.failure.None? <==> allowed)
            && r.world == if !allowed then w
                          else if stage == Load then w.(shipment := w.shipment.(loadingCheckedAt := Some(now)))
                          else w.(shipment := w.shipment.(unloadingCheckedAt := Some(now)))
  {
  }

  lemma AuditIsRecordedIff(w: World, open: bool, now: Time)
    ensures var r := FieldAudit(w, open, now);
            var allowed := open && w.shipment.status == SHIPMENT_UNLOADING;
            && (r.failure.None? <==> allowed)
            && r.world == if allowed then w.(shipment := w.shipment.(unloadingCheckedAt := Some(now))) else w
  {
  }

  /** A crossing stamps the arrival at its own end, on entering, if none is stamped yet. */
  lemma CrossingStampsFirstArrival(w: World, side: Kind, entering: bool, now: Time, s: ShipmentStatus)
    ensures var v := Evidence(w, side, entering, now).world;
            var its := if side == Load then SHIPMENT_AT_LOADING else SHIPMENT_AT_UNLOADING;
            && v == w.(shipment := w.shipment.(reachedAt := v.shipment.reachedAt))
            && (s in v.shipment.reachedAt <==> s in w.shipment.reachedAt || (s == its && entering))
            && (s in w.shipment.reachedAt ==> v.shipment.reachedAt[s] == w.shipment.reachedAt[s])
            && (s in v.shipment.reachedAt && s !in w.shipment.reachedAt ==> v.shipment.reachedAt[s] == now)
  {
  }

  // ---- Each record has one call that makes it ------------------------------------------------

  predicate SameVisit(s: Stop, t: Stop, e: Event) {
    && (!e.Arrive? ==> t.arrivedAt == s.arrivedAt)
    && (!e.Start? ==> t.startedAt == s.startedAt)
    && (!e.CheckStop? ==> t.cargoCheckedAt == s.cargoCheckedAt)
    && (!Approves(e) ==> t.finishedAt == s.finishedAt && t.podId == s.podId)
  }

  ghost predicate SameVisits(w: World, v: World, e: Event) {
    |v.stops| == |w.stops| && forall k :: 0 <= k < |w.stops| ==> SameVisit(w.stops[k], v.stops[k], e)
  }

  predicate SameChecks(w: World, v: World, e: Event) {
    && (!(e.Check? && e.stage == Load) ==> v.shipment.loadingCheckedAt == w.shipment.loadingCheckedAt)
    && (!e.Audit? && !(e.Check? && e.stage == Unload) ==>
         v.shipment.unloadingCheckedAt == w.shipment.unloadingCheckedAt)
    && v.shipment.driver == w.shipment.driver && v.order.shipper == w.order.shipper
    && v.order.transporter == w.order.transporter && v.webField == w.webField
  }

  lemma {:induction false} OneRowAtMost(w: World, e: Event, now: Time)
    requires !e.Start? && !e.Review? && !e.Move?
    ensures SameVisits(w, Apply(w, e, now).world, e)
  {
  }

  /** What is recorded at a stop, only the call for it records. */
  lemma {:induction false} OnlyItsOwnVisit(w: World, e: Event, now: Time)
    ensures SameVisits(w, Apply(w, e, now).world, e)
  {
    match e
    case Start(a, stop, handover, fence) => StartTouches(w, a, stop, handover, fence, now);
    case Move(a, to, handover, fence) => StepFacts(w, w.order.status, a, to, MachineRole(a, w.order), fence, now);
    case Review(a, pod, approve, reason) => ReviewTouches(w, a, pod, approve, reason, now);
    case _ => OneRowAtMost(w, e, now);
  }

  /** The same of the shipment's checks; who the parties and the driver are, no call changes. */
  lemma {:induction false} OnlyItsOwnCheck(w: World, e: Event, now: Time)
    ensures SameChecks(w, Apply(w, e, now).world, e)
  {
    if e.Start? {
      StartTouches(w, e.actor, e.stop, e.handover, e.fence, now);
    } else if e.Review? {
      ReviewTouches(w, e.actor, e.pod, e.approve, e.reason, now);
    } else if e.Move? {
      StepFacts(w, w.order.status, e.actor, e.to, MachineRole(e.actor, w.order), e.fence, now);
    }
  }

  lemma StartTouches(w: World, a: Actor, stop: StopId, handover: bool, fence: Fence, now: Time)
    ensures var v := StartStop(w, a, stop, handover, fence, now).world;
            && SameButMoved(w.(stops := v.stops), v) && |v.stops| == |w.stops|
            && forall k :: 0 <= k < |w.stops| ==> v.stops[k] == w.stops[k].(startedAt := v.stops[k].startedAt)
  {
    var i := IndexOf(w.stops, stop);
    if i >= 0 {
      WalkOnlyClimbs(WithStop(w, i, w.stops[i].(startedAt := Some(now))), w.order.status, a,
                     StatusForStop(w.stops[i].kind), MachineRole(a, w.order), fence, now);
    }
  }

  lemma {:induction false} ReviewTouches(w: World, a: Actor, pod: PodId, approve: bool, reason: bool, now: Time)
    ensures var v := ReviewPod(w, a, pod, approve, reason, now).world;
            && SameButMoved(w.(stops := v.stops, pods := v.pods), v) && |v.stops| == |w.stops|
            && (!approve ==> v.stops == w.stops)
            && forall k :: 0 <= k < |w.stops| ==>
                 v.stops[k] == w.stops[k].(finishedAt := v.stops[k].finishedAt, podId := v.stops[k].podId)
  {
    if approve && pod in w.pods && w.pods[pod].status == PodSubmitted {
      ClosingTouches(w, pod, now);
      EndStageOnlyClimbs(Approved(w, pod, now), w.order.status, a, w.pods[pod].stage, now);
    }
  }

  lemma ClosingTouches(w: World, pod: PodId, now: Time)
    requires pod in w.pods
    ensures var c := Approved(w, pod, now);
            && c == w.(stops := c.stops, pods := c.pods) && |c.stops| == |w.stops|
            && forall k :: 0 <= k < |w.stops| ==>
                 c.stops[k] == w.stops[k].(finishedAt := c.stops[k].finishedAt, podId := c.stops[k].podId)
  {
  }
}
