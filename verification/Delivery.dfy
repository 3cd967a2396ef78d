/** The journey in the form the services have it: one order's rows, updated in place by the calls.
    Every method is proved to leave exactly the state, and to fail exactly as, the function of
    module Journey says of the state before. */
module Delivery {
  import opened Status
  import opened Stops
  import opened Journey
  import opened Walking
  import opened JourneySafety

  class Delivery {
    var stops: seq<Stop>
    var pods: map<PodId, Pod>
    var status: ShipmentStatus
    var reachedAt: map<ShipmentStatus, Time>
    var loadingCheckedAt: Option<Time>
    var unloadingCheckedAt: Option<Time>
    var orderStatus: OrderStatus
    const driver: Option<UserId>
    const shipper: CompanyId
    const transporter: Option<CompanyId>
    const webField: bool

    function ShipmentView(): Shipment reads this {
      Shipment(status, driver, reachedAt, loadingCheckedAt, unloadingCheckedAt)
    }

    function OrderView(): Order reads this { Order(orderStatus, shipper, transporter) }

    function View(): World reads this { World(stops, pods, ShipmentView(), OrderView(), webField) }

    /** What every clean run of calls keeps: see module JourneySafety for what it says. */
    ghost predicate Valid() reads this { Safe(View()) }

    constructor (stops: seq<Stop>, driver: Option<UserId>, shipper: CompanyId, transporter: Option<CompanyId>,
        webField: bool)
      ensures View()
              == World(stops, map[], Shipment(SHIPMENT_ASSIGNED, driver, map[], None, None),
              Order(OrderAssigned, shipper, transporter), webField)
      ensures Fresh(View()) ==> Valid()
    {
      this.stops, this.pods := stops, map[];
      this.status, this.reachedAt := SHIPMENT_ASSIGNED, map[];
      this.loadingCheckedAt, this.unloadingCheckedAt := None, None;
      this.orderStatus := OrderAssigned;
      this.driver, this.shipper, this.transporter, this.webField := driver, shipper, transporter, webField;
      new;
      if Fresh(View()) { FreshIsSafe(View()); }
    }

    // ---- The shipment and its order --------------------------------------------------------

    method SyncOrderStatus(known: OrderStatus, actor: Actor, reached: ShipmentStatus) returns (failure: Option<Failure>)
      modifies this`orderStatus
      ensures Reply(View(), failure) == SyncOrder(old(View()), known, actor, reached)
    {
      var target;
      if reached == SHIPMENT_TO_LOADING {
        target := OrderInTransit;
      } else if reached == SHIPMENT_FINISHED {
        target := OrderCompleted;
      } else {
        return None;
      }
      if known == target { return None; }
      if CanTransitionOrder(known, target, MachineRole(actor, OrderView())) != Allowed { return Some(BadTransition); }
      if orderStatus != known { return Some(Conflict); }
      orderStatus := target;
      failure := None;
    }

    method EnterStatus(to: ShipmentStatus, now: Time)
      modifies this`status, this`reachedAt
      ensures View() == Entered(old(View()), to, now)
    {
      if IsStamped(to) { reachedAt := reachedAt[to := now]; }
      status := to;
    }

    /** One edge of the table: status and stamp first, the order after. */
    method AdvanceTo(known: OrderStatus, actor: Actor, to: ShipmentStatus, role: Role, fence: Fence, now: Time)
        returns (failure: Option<Failure>)
      modifies this`status, this`reachedAt, this`orderStatus
      ensures Reply(View(), failure) == Step(old(View()), known, actor, to, role, fence, now)
    {
      if CanTransitionShipment(status, to, role) != Allowed { return Some(BadTransition); }
      if FenceRefuses(actor, fence, to, role) { return Some(Invalid); }
      EnterStatus(to, now);
      failure := SyncOrderStatus(known, actor, to);
    }

    /** The bounded loop takes the whole walk: its bound of twelve never cuts one short. */
    method WalkShipmentTo(known: OrderStatus, actor: Actor, to: ShipmentStatus, role: Role, fence: Fence, now: Time)
        returns (failure: Option<Failure>)
      modifies this`status, this`reachedAt, this`orderStatus
      ensures Reply(View(), failure) == Walk(old(View()), known, actor, to, role, fence, now)
    {
      if status == to || AtOrPast(status, to) { return None; }
      ghost var whole := Walk(View(), known, actor, to, role, fence, now);
      var i := 0;
      while i < 12 && status != to
        invariant 0 <= i <= status
        invariant i > 0 ==> status <= to && OnChain(to)
        invariant Walk(View(), known, actor, to, role, fence, now) == whole
      {
        var next := NextTowards(status, to);
        if next.None? { return None; }
        WalkUnfolds(View(), known, actor, to, next.value, role, fence, now);
        failure := AdvanceTo(known, actor, next.value, role, fence, now);
        if failure.Some? { return; }
        i := i + 1;
      }
      failure := None;
    }

    // ---- Lists of stops --------------------------------------------------------------------

    method FindStop(stop: StopId) returns (at: int)
      ensures at == IndexOf(stops, stop)
    {
      for i := 0 to |stops|
        invariant IndexOf(stops, stop) == IndexOf(stops, stop, i)
      {
        if stops[i].id == stop { return i; }
      }
      return -1;
    }

    method StopIsNext(at: nat) returns (next: bool)
      requires at < |stops|
      ensures next == IsNext(stops, at)
    {
      for i := 0 to at
        invariant forall k :: 0 <= k < i ==> stops[k].Visited()
      {
        if stops[i].finishedAt.None? && stops[i].arrivedAt.None? { return false; }
      }
      return true;
    }

    method IsFirstStopOfKind(at: nat) returns (first: bool)
      requires at < |stops|
      ensures first == (FirstOfKind(stops, stops[at].kind) == at)
    {
      var kind := stops[at].kind;
      for i := 0 to |stops|
        invariant FirstOfKind(stops, kind) == FirstOfKind(stops, kind, i)
      {
        if stops[i].kind == kind { return i == at; }
      }
      return false;
    }

    method ResolvedStop(stage: Kind, named: Option<StopId>) returns (stop: Option<StopId>)
      ensures stop == ResolveStop(View(), stage, named)
    {
      if named.Some? { return named; }
      for i := 0 to |stops|
        invariant FirstOpen(stops, stage) == FirstOpen(stops, stage, i)
      {
        if stops[i].kind == stage && stops[i].finishedAt.None? { return Some(stops[i].id); }
      }
      return None;
    }

    // ---- Visits ----------------------------------------------------------------------------

    method Arrive(actor: Actor, stop: StopId, fence: Fence, now: Time) returns (failure: Option<Failure>)
      modifies this`stops
      ensures Reply(View(), failure) == ArriveAtStop(old(View()), actor, stop, fence, now)
      ensures old(Valid()) ==> Valid()
    {
      if Valid() { ArriveKeepsSafe(View(), actor, stop, fence, now); }
      if !MayReportFromStop(actor, ShipmentView()) { return Some(Forbidden); }
      var at := FindStop(stop);
      if at < 0 { return Some(Invalid); }
      if stops[at].arrivedAt.Some? { return None; }
      var next := StopIsNext(at);
      if !next { return Some(Invalid); }
      if fence.stop && FenceBinds(actor) { return Some(Invalid); }
      stops := stops[at := stops[at].(arrivedAt := Some(now))];
      return None;
    }

    method Start(actor: Actor, stop: StopId, handover: bool, fence: Fence, now: Time) returns (failure: Option<Failure>)
      modifies this`stops, this`status, this`reachedAt, this`orderStatus
      ensures Reply(View(), failure) == StartStop(old(View()), actor, stop, handover, fence, now)
      ensures old(Valid()) && CleanActor(actor) ==> Valid()
    {
      if Valid() && CleanActor(actor) { StartKeepsSafe(View(), actor, stop, handover, fence, now); }
      if !MayReportFromStop(actor, ShipmentView()) { return Some(Forbidden); }
      var at := FindStop(stop);
      if at < 0 || stops[at].arrivedAt.None? { return Some(Invalid); }
      if stops[at].startedAt.Some? { return None; }
      if stops[at].kind == Unload && !actor.bypass && actor.role == RoleDriver && !handover { return Some(Invalid); }
      if fence.stop && FenceBinds(actor) { return Some(Invalid); }
      stops := stops[at := stops[at].(startedAt := Some(now))];
      var ignored := WalkShipmentTo(orderStatus, actor, StatusForStop(stops[at].kind), MachineRole(actor, OrderView()),
          fence, now);
      return None;
    }

    method CheckStop(actor: Actor, stop: StopId, answered: bool, now: Time) returns (failure: Option<Failure>)
      modifies this`stops
      ensures Reply(View(), failure) == CheckStopCargo(old(View()), actor, stop, answered, now)
      ensures old(Valid()) ==> Valid()
    {
      if Valid() { CheckStopKeepsSafe(View(), actor, stop, answered, now); }
      if !MayReportFromStop(actor, ShipmentView()) { return Some(Forbidden); }
      var at := FindStop(stop);
      if at < 0 || !answered || stops[at].startedAt.None? { return Some(Invalid); }
      stops := stops[at := stops[at].(cargoCheckedAt := Some(now))];
      return None;
    }

    method Move(actor: Actor, to: ShipmentStatus, handover: bool, fence: Fence, now: Time)
        returns (failure: Option<Failure>)
      modifies this`status, this`reachedAt, this`orderStatus
      ensures Reply(View(), failure) == Advance(old(View()), actor, to, handover, fence, now)
      ensures old(Valid()) && CleanActor(actor) ==> Valid()
    {
      if Valid() && CleanActor(actor) { MoveKeepsSafe(View(), actor, to, handover, fence, now); }
      if !Involves(OrderView(), actor.company) || !MayAdvance(actor, ShipmentView(), OrderView()) {
        return Some(Forbidden);
      }
      if to == SHIPMENT_UNLOADING && !actor.bypass && actor.role == RoleDriver && !handover { return Some(Invalid); }
      failure := AdvanceTo(orderStatus, actor, to, MachineRole(actor, OrderView()), fence, now);
    }

    method Check(actor: Actor, stage: Kind, now: Time) returns (failure: Option<Failure>)
      modifies this`loadingCheckedAt, this`unloadingCheckedAt
      ensures Reply(View(), failure) == CargoCheck(old(View()), actor, stage, now)
      ensures old(Valid()) ==> Valid()
    {
      if Valid() { CheckKeepsSafe(View(), actor, stage, now); }
      if !Involves(OrderView(), actor.company) { return Some(Forbidden); }
      if stage == Load {
        if !MayAdvance(actor, ShipmentView(), OrderView()) { return Some(Forbidden); }
        if !actor.bypass && actor.role == RoleDriver && !AtOrPast(status, SHIPMENT_LOADING) { return Some(Invalid); }
      } else {
        if actor.role == RoleDriver && !actor.bypass { return Some(Forbidden); }
        if !MayReview(actor, OrderView()) { return Some(Forbidden); }
      }
      if status != StatusForStop(stage) { return Some(BadTransition); }
      if stage == Load { loadingCheckedAt := Some(now); } else { unloadingCheckedAt := Some(now); }
      return None;
    }

    method Crossed(side: Kind, entering: bool, now: Time)
      modifies this`reachedAt
      ensures Reply(View(), None) == Evidence(old(View()), side, entering, now)
      ensures old(Valid()) ==> Valid()
    {
      if Valid() { CrossingKeepsSafe(View(), side, entering, now); }
      var reached := if side == Load then SHIPMENT_AT_LOADING else SHIPMENT_AT_UNLOADING;
      if entering && reached !in reachedAt { reachedAt := reachedAt[reached := now]; }
    }

    method Audit(open: bool, now: Time) returns (failure: Option<Failure>)
      modifies this`unloadingCheckedAt
      ensures Reply(View(), failure) == FieldAudit(old(View()), open, now)
      ensures old(Valid()) ==> Valid()
    {
      if Valid() { AuditKeepsSafe(View(), open, now); }
      if !open { return Some(Invalid); }
      if status != SHIPMENT_UNLOADING { return Some(BadTransition); }
      unloadingCheckedAt := Some(now);
      return None;
    }

    // ---- PODs ------------------------------------------------------------------------------

    /** The gate a submission has to pass, resolved before the photos are looked at. */
    method Gate(stage: Kind, stop: Option<StopId>) returns (refusal: Option<Failure>)
      ensures refusal == SubmitRefusal(View(), stage, stop)
    {
      var at := -1;
      if stop.Some? && |stops| > 2 { at := FindStop(stop.value); }
      var driven := false;
      if at >= 0 {
        var first := IsFirstStopOfKind(at);
        driven := !first || stops[at].startedAt.Some?;
      }
      var checked := if stage == Load then loadingCheckedAt else unloadingCheckedAt;
      if driven {
        if stops[at].startedAt.None? { return Some(Invalid); }
        if stops[at].finishedAt.Some? { return Some(BadTransition); }
        checked := stops[at].cargoCheckedAt;
      } else if status != StatusForStop(stage) {
        return Some(BadTransition);
      }
      if checked.None? && (stage == Load || webField) { return Some(Invalid); }
      return None;
    }

    /** A submission that names a stop names one of this journey and of its stage. */
    ghost predicate NamesItsKind(stage: Kind, named: Option<StopId>) reads this {
      named.Some? ==> exists i :: 0 <= i < |stops| && stops[i].id == named.value && stops[i].kind == stage
    }

    method SubmitPhotos(actor: Actor, stage: Kind, named: Option<StopId>, photos: bool, id: PodId)
        returns (failure: Option<Failure>)
      modifies this`pods
      ensures Reply(View(), failure) == SubmitPod(old(View()), actor, stage, named, photos, id)
      ensures old(Valid() && NamesItsKind(stage, named)) && id !in old(pods) ==> Valid()
    {
      if Valid() && NamesItsKind(stage, named) && id !in pods {
        SubmitKeepsSafe(View(), actor, stage, named, photos, id);
      }
      if !Involves(OrderView(), actor.company) || !MayAdvance(actor, ShipmentView(), OrderView()) {
        return Some(Forbidden);
      }
      var stop := ResolvedStop(stage, named);
      failure := Gate(stage, stop);
      if failure.Some? { return; }
      if !photos { return Some(Invalid); }
      if HasApproved(pods, stage, stop) { return Some(BadTransition); }
      var kept := map p | p in pods && !(pods[p].stage == stage && pods[p].status == PodSubmitted) :: pods[p];
      pods := kept[id := Pod(stage, stop, PodSubmitted)];
    }

    /** Finishes the stop the POD names and counts what is left of its stage. */
    method CloseStop(pod: PodId, now: Time) returns (done: bool)
      requires pod in pods
      modifies this`stops
      ensures View() == Closed(old(View()), pod, now)
      ensures done == StageDone(View(), pod)
    {
      var p := pods[pod];
      if p.stopId.None? { return true; }
      var at := FindStop(p.stopId.value);
      if at >= 0 { stops := stops[at := stops[at].(finishedAt := Some(now), podId := Some(pod))]; }
      var remaining := 0;
      for i := 0 to |stops|
        invariant remaining >= 0
        invariant remaining == 0 <==>
          forall k :: 0 <= k < i && stops[k].kind == p.stage && Some(stops[k].id) != p.stopId ==>
              stops[k].finishedAt.Some?
      {
        if stops[i].kind == p.stage && stops[i].finishedAt.None? && Some(stops[i].id) != p.stopId {
          remaining := remaining + 1;
        }
      }
      done := remaining == 0;
    }

    method SignOff(known: OrderStatus, actor: Actor, stage: Kind, now: Time) returns (failure: Option<Failure>)
      modifies this`status, this`reachedAt, this`orderStatus
      ensures Reply(View(), failure) == EndStage(old(View()), known, actor, stage, now)
    {
      failure := WalkShipmentTo(known, actor, StageEnds(stage).0, RoleSystem, NO_POSITION, now);
      if failure.Some? { return; }
      failure := WalkShipmentTo(known, actor, StageEnds(stage).1, RoleSystem, NO_POSITION, now);
    }

    method Review(actor: Actor, pod: PodId, approve: bool, reason: bool, now: Time) returns (failure: Option<Failure>)
      modifies this`pods, this`stops, this`status, this`reachedAt, this`orderStatus
      ensures Reply(View(), failure) == ReviewPod(old(View()), actor, pod, approve, reason, now)
      ensures old(Valid()) ==> Valid()
    {
      if Valid() { ReviewKeepsSafe(View(), actor, pod, approve, reason, now); }
      if !Involves(OrderView(), actor.company) || !MayReview(actor, OrderView()) { return Some(Forbidden); }
      if pod !in pods { return Some(NotFound); }
      if pods[pod].status != PodSubmitted { return Some(Conflict); }
      var stage := pods[pod].stage;
      if !approve {
        if !reason { return Some(Invalid); }
        pods := pods[pod := pods[pod].(status := PodRejected)];
        return None;
      }
      var known := orderStatus;
      pods := pods[pod := pods[pod].(status := PodApproved)];
      var done := CloseStop(pod, now);
      if !done { return None; }
      failure := SignOff(known, actor, stage, now);
    }
  }
}
