/** The multi-stop journey: stop rows, PODs, the shipment status and the order status, and what
    each service call does to them. One order, one shipment. Every call is one atomic step, and a
    call that fails keeps the writes it had already made. */
module Journey {
  import opened Status
  import opened Stops

  type UserId = nat
  type CompanyId = nat

  datatype Actor = Actor(user: UserId, company: CompanyId, role: Role, bypass: bool)
  datatype Order = Order(status: OrderStatus, shipper: CompanyId, transporter: Option<CompanyId>)
  datatype Shipment = Shipment(
    status: ShipmentStatus, driver: Option<UserId>, reachedAt: map<ShipmentStatus, Time>,
    loadingCheckedAt: Option<Time>, unloadingCheckedAt: Option<Time>)

  datatype PodStatus = PodSubmitted | PodApproved | PodRejected
  datatype Pod = Pod(stage: Kind, stopId: Option<StopId>, status: PodStatus)

  datatype World = World(
    stops: seq<Stop>, pods: map<PodId, Pod>, shipment: Shipment, order: Order,
    webField: bool) // WebFieldEnabled

  datatype Failure = NotFound | Forbidden | Invalid | BadTransition | Conflict

  /** What a call leaves behind, and how it failed if it did. A failed call keeps its writes. */
  datatype Reply = Reply(world: World, failure: Option<Failure>)

  /** What the geofence would refuse for this report: an arbitrary answer per gated step. */
  datatype Fence = Fence(atLoading: bool, loading: bool, atUnloading: bool, unloading: bool, stop: bool)

  // ---- Who may do what ---------------------------------------------------------------------

  predicate Involves(order: Order, company: CompanyId) {
    order.shipper == company || order.transporter == Some(company)
  }

  function MachineRole(actor: Actor, order: Order): Role {
    if actor.bypass then RoleAdmin
    else if IsPlatform(actor.role) || actor.role == RoleDriver || actor.role == RoleWarehousePic
        || actor.role == RoleManager then actor.role
    else if order.transporter == Some(actor.company) then RoleTransporter
    else if order.shipper == actor.company then RoleShipper
    else actor.role
  }

  predicate MayAdvance(actor: Actor, shipment: Shipment, order: Order) {
    if IsPlatform(actor.role) then true
    else if actor.bypass then Involves(order, actor.company)
    else if actor.role == RoleDriver then shipment.driver == Some(actor.user)
    else Involves(order, actor.company)
  }

  predicate MayReview(actor: Actor, order: Order) {
    IsPlatform(actor.role) || actor.bypass || (actor.role != RoleDriver && Involves(order, actor.company))
  }

  predicate MayReportFromStop(actor: Actor, shipment: Shipment) {
    shipment.driver == Some(actor.user) || actor.bypass || actor.role == RoleAdmin
  }

  predicate FenceBinds(actor: Actor) { !actor.bypass && !IsPlatform(actor.role) }

  /** recordArrival and assertAtSite: arrivals bind everybody but the bypass and administrators,
      the start of work binds the driver's role alone. */
  predicate FenceRefuses(actor: Actor, fence: Fence, to: ShipmentStatus, role: Role) {
    if to == SHIPMENT_AT_LOADING then FenceBinds(actor) && fence.atLoading
    else if to == SHIPMENT_AT_UNLOADING then FenceBinds(actor) && fence.atUnloading
    else if to == SHIPMENT_LOADING then role == RoleDriver && !actor.bypass && fence.loading
    else if to == SHIPMENT_UNLOADING then role == RoleDriver && !actor.bypass && fence.unloading
    else false
  }

  // ---- One step of the shipment, and the walk ------------------------------------------------

  /** `known` is the order status the caller holds in memory, which a walk never refreshes. */
  function MoveOrder(w: World, known: OrderStatus, target: OrderStatus, role: Role): Reply {
    if known == target then Reply(w, None)
    else if CanTransitionOrder(known, target, role) != Allowed then Reply(w, Some(BadTransition))
    else if w.order.status != known then Reply(w, Some(Conflict))
    else Reply(w.(order := w.order.(status := target)), None)
  }

  function SyncOrder(w: World, known: OrderStatus, actor: Actor, reached: ShipmentStatus): Reply {
    if reached == SHIPMENT_TO_LOADING then MoveOrder(w, known, OrderInTransit, MachineRole(actor, w.order))
    else if reached == SHIPMENT_FINISHED then MoveOrder(w, known, OrderCompleted, MachineRole(actor, w.order))
    else Reply(w, None)
  }

  /** timestampColumn has an entry for every step of the chain after the first. */
  predicate IsStamped(to: ShipmentStatus) { OnChain(to) && !IsLegacy(to) && to != SHIPMENT_ASSIGNED }

  function Entered(w: World, to: ShipmentStatus, now: Time): World {
    var reachedAt := if IsStamped(to) then w.shipment.reachedAt[to := now] else w.shipment.reachedAt;
    w.(shipment := w.shipment.(status := to, reachedAt := reachedAt))
  }

  function Step(w: World, known: OrderStatus, actor: Actor, to: ShipmentStatus, role: Role, fence: Fence,
      now: Time): Reply {
    if CanTransitionShipment(w.shipment.status, to, role) != Allowed then Reply(w, Some(BadTransition))
    else if FenceRefuses(actor, fence, to, role) then Reply(w, Some(Invalid))
    else SyncOrder(Entered(w, to, now), known, actor, to)
  }

  /** One step towards the target at a time, until there is none or one is refused; the steps
      taken before a refusal stay stored. */
  function Walk(w: World, known: OrderStatus, actor: Actor, to: ShipmentStatus, role: Role, fence: Fence,
      now: Time): Reply
    decreases SHIPMENT_UNKNOWN - w.shipment.status
  {
    match NextTowards(w.shipment.status, to)
    case None => Reply(w, None)
    case Some(next) =>
      var moved := Step(w, known, actor, next, role, fence, now);
      if moved.failure.Some? then moved
      else Walk(moved.world, known, actor, to, role, fence, now)
  }

  /** The shipment's status and stamps and the order's status may differ; nothing else does. */
  predicate SameButMoved(w: World, v: World) {
    v == World(w.stops, w.pods,
               Shipment(v.shipment.status, w.shipment.driver, v.shipment.reachedAt, w.shipment.loadingCheckedAt,
                   w.shipment.unloadingCheckedAt),
               Order(v.order.status, w.order.shipper, w.order.transporter),
               w.webField)
  }

  // ---- The driver's visit to one stop --------------------------------------------------------

  function WithStop(w: World, i: nat, stop: Stop): World
    requires i < |w.stops|
  {
    w.(stops := w.stops[i := stop])
  }

  /** assertStopIsNext: every earlier point has been reached or finished. */
  predicate IsNext(stops: seq<Stop>, i: nat)
    requires i < |stops|
  {
    forall k :: 0 <= k < i ==> stops[k].Visited()
  }

  function ArriveAtStop(w: World, actor: Actor, stop: StopId, fence: Fence, now: Time): Reply {
    var i := IndexOf(w.stops, stop);
    if !MayReportFromStop(actor, w.shipment) then Reply(w, Some(Forbidden))
    else if i < 0 then Reply(w, Some(Invalid))
    else if w.stops[i].arrivedAt.Some? then Reply(w, None)
    else if !IsNext(w.stops, i) then Reply(w, Some(Invalid))
    else if fence.stop && FenceBinds(actor) then Reply(w, Some(Invalid))
    else Reply(WithStop(w, i, w.stops[i].(arrivedAt := Some(now))), None)
  }

  function StatusForStop(kind: Kind): ShipmentStatus {
    if kind == Load then SHIPMENT_LOADING else SHIPMENT_UNLOADING
  }

  /** The walk's own failure is logged and dropped; its completed steps stay. */
  function StartStop(w: World, actor: Actor, stop: StopId, handover: bool, fence: Fence, now: Time): Reply {
    var i := IndexOf(w.stops, stop);
    if !MayReportFromStop(actor, w.shipment) then Reply(w, Some(Forbidden))
    else if i < 0 || w.stops[i].arrivedAt.None? then Reply(w, Some(Invalid))
    else if w.stops[i].startedAt.Some? then Reply(w, None)
    else if w.stops[i].kind == Unload && !actor.bypass && actor.role == RoleDriver && !handover then
      Reply(w, Some(Invalid))
    else if fence.stop && FenceBinds(actor) then Reply(w, Some(Invalid))
    else
      var started := WithStop(w, i, w.stops[i].(startedAt := Some(now)));
      var walked := Walk(started, w.order.status, actor, StatusForStop(w.stops[i].kind),
                         MachineRole(actor, w.order), fence, now);
      Reply(walked.world, None)
  }

  function CheckStopCargo(w: World, actor: Actor, stop: StopId, answered: bool, now: Time): Reply {
    var i := IndexOf(w.stops, stop);
    if !MayReportFromStop(actor, w.shipment) then Reply(w, Some(Forbidden))
    else if i < 0 || !answered || w.stops[i].startedAt.None? then Reply(w, Some(Invalid))
    else Reply(WithStop(w, i, w.stops[i].(cargoCheckedAt := Some(now))), None)
  }

  // ---- The driver's shipment-level reports ---------------------------------------------------

  function Advance(w: World, actor: Actor, to: ShipmentStatus, handover: bool, fence: Fence, now: Time): Reply {
    if !Involves(w.order, actor.company) then Reply(w, Some(Forbidden))
    else if !MayAdvance(actor, w.shipment, w.order) then Reply(w, Some(Forbidden))
    else if to == SHIPMENT_UNLOADING && !actor.bypass && actor.role == RoleDriver && !handover then
      Reply(w, Some(Invalid))
    else Step(w, w.order.status, actor, to, MachineRole(actor, w.order), fence, now)
  }

  function CargoCheck(w: World, actor: Actor, stage: Kind, now: Time): Reply {
    if !Involves(w.order, actor.company) then Reply(w, Some(Forbidden))
    else if stage == Load && !MayAdvance(actor, w.shipment, w.order) then Reply(w, Some(Forbidden))
    else if stage == Load && !actor.bypass && actor.role == RoleDriver
        && !AtOrPast(w.shipment.status, SHIPMENT_LOADING) then
      Reply(w, Some(Invalid))
    else if stage == Unload && actor.role == RoleDriver && !actor.bypass then Reply(w, Some(Forbidden))
    else if stage == Unload && !MayReview(actor, w.order) then Reply(w, Some(Forbidden))
    else if w.shipment.status != StatusForStop(stage) then Reply(w, Some(BadTransition))
    else if stage == Load then Reply(w.(shipment := w.shipment.(loadingCheckedAt := Some(now))), None)
    else Reply(w.(shipment := w.shipment.(unloadingCheckedAt := Some(now))), None)
  }

  /** RecordFieldAudit: the receiver's own answer at unloading, from a page that needs no login. Whether
      the page's token is good and the manifest still open is an arbitrary answer. */
  function FieldAudit(w: World, open: bool, now: Time): Reply {
    if !open then Reply(w, Some(Invalid))
    else if w.shipment.status != SHIPMENT_UNLOADING then Reply(w, Some(BadTransition))
    else Reply(w.(shipment := w.shipment.(unloadingCheckedAt := Some(now))), None)
  }

  /** ReportGeofenceEvent: a crossing is evidence. It can stamp a first arrival, never move a status. */
  function Evidence(w: World, side: Kind, entering: bool, now: Time): Reply {
    var reached := if side == Load then SHIPMENT_AT_LOADING else SHIPMENT_AT_UNLOADING;
    if entering && reached !in w.shipment.reachedAt then
      Reply(w.(shipment := w.shipment.(reachedAt := w.shipment.reachedAt[reached := now])), None)
    else Reply(w, None)
  }

  // ---- PODs ----------------------------------------------------------------------------------

  function ResolveStop(w: World, stage: Kind, named: Option<StopId>): Option<StopId> {
    if named.Some? then named
    else
      var i := FirstOpen(w.stops, stage);
      if i < 0 then None else Some(w.stops[i].id)
  }

  /** stopByID: -1 for a POD without a stop, a journey of two ends, or an unknown id. */
  function StopByID(w: World, stop: Option<StopId>): (i: int)
    ensures i < |w.stops|
    ensures i >= 0 ==> stop == Some(w.stops[i].id)
  {
    if stop.None? || |w.stops| <= 2 then -1 else IndexOf(w.stops, stop.value)
  }

  /** Whether the stop row, not the shipment status, is the gate for this POD. */
  predicate StopDriven(w: World, i: int)
    requires i < |w.stops|
  {
    i >= 0 && (FirstOfKind(w.stops, w.stops[i].kind) != i || w.stops[i].startedAt.Some?)
  }

  predicate HasApproved(pods: map<PodId, Pod>, stage: Kind, stop: Option<StopId>) {
    exists p :: p in pods && IsApprovedFor(pods[p], stage, stop)
  }

  predicate IsApprovedFor(pod: Pod, stage: Kind, stop: Option<StopId>) {
    pod.status == PodApproved && pod.stage == stage && (stop.Some? ==> pod.stopId == stop)
  }

  /** The gate of PodService.Submit, before the photos and the approved-already check. */
  function SubmitRefusal(w: World, stage: Kind, stop: Option<StopId>): Option<Failure> {
    var i := StopByID(w, stop);
    var driven := StopDriven(w, i);
    var checked :=
      if driven then w.stops[i].cargoCheckedAt
      else if stage == Load then w.shipment.loadingCheckedAt else w.shipment.unloadingCheckedAt;
    if driven && w.stops[i].startedAt.None? then Some(Invalid)
    else if driven && w.stops[i].finishedAt.Some? then Some(BadTransition)
    else if !driven && w.shipment.status != StatusForStop(stage) then Some(BadTransition)
    else if checked.None? && (stage == Load || w.webField) then Some(Invalid)
    else None
  }

  /** A new submission replaces the one still open for its stage. */
  function WithSubmission(pods: map<PodId, Pod>, id: PodId, stage: Kind, stop: Option<StopId>): map<PodId, Pod> {
    (map p | p in pods && !(pods[p].stage == stage && pods[p].status == PodSubmitted) :: pods[p])
      [id := Pod(stage, stop, PodSubmitted)]
  }

  function SubmitPod(w: World, actor: Actor, stage: Kind, named: Option<StopId>, photos: bool, id: PodId): Reply {
    var stop := ResolveStop(w, stage, named);
    if !Involves(w.order, actor.company) then Reply(w, Some(Forbidden))
    else if !MayAdvance(actor, w.shipment, w.order) then Reply(w, Some(Forbidden))
    else if SubmitRefusal(w, stage, stop).Some? then Reply(w, SubmitRefusal(w, stage, stop))
    else if !photos then Reply(w, Some(Invalid))
    else if HasApproved(w.pods, stage, stop) then Reply(w, Some(BadTransition))
    else Reply(w.(pods := WithSubmission(w.pods, id, stage, stop)), None)
  }

  /** closeStop's write: the visit the POD names is finished by it. */
  function Closed(w: World, pod: PodId, now: Time): World
    requires pod in w.pods
  {
    match w.pods[pod].stopId
    case None => w
    case Some(id) =>
      var i := IndexOf(w.stops, id);
      if i < 0 then w
      else WithStop(w, i, w.stops[i].(finishedAt := Some(now), podId := Some(pod)))
  }

  /** closeStop's answer: no other point of the POD's kind is still open. */
  predicate StageDone(w: World, pod: PodId)
    requires pod in w.pods
  {
    w.pods[pod].stopId.None? ||
    forall i :: 0 <= i < |w.stops| && w.stops[i].kind == w.pods[pod].stage && Some(w.stops[i].id) != w.pods[pod].stopId
      ==> w.stops[i].finishedAt.Some?
  }

  function StageEnds(stage: Kind): (ShipmentStatus, ShipmentStatus) {
    if stage == Load then (SHIPMENT_LOADED, SHIPMENT_TO_UNLOADING) else (SHIPMENT_UNLOADED, SHIPMENT_FINISHED)
  }

  const NO_POSITION := Fence(true, true, true, true, true)

  /** The two walks an approval that ends a stage takes as the system; no position is given, so a
      gated step would be refused. The order in memory is the one read when the call began. */
  function EndStage(w: World, known: OrderStatus, actor: Actor, stage: Kind, now: Time): Reply {
    var first := Walk(w, known, actor, StageEnds(stage).0, RoleSystem, NO_POSITION, now);
    if first.failure.Some? then first
    else Walk(first.world, known, actor, StageEnds(stage).1, RoleSystem, NO_POSITION, now)
  }

  function Decided(w: World, pod: PodId, status: PodStatus): World
    requires pod in w.pods
  {
    w.(pods := w.pods[pod := w.pods[pod].(status := status)])
  }

  function ReviewPod(w: World, actor: Actor, pod: PodId, approve: bool, reason: bool, now: Time): Reply {
    if !Involves(w.order, actor.company) || !MayReview(actor, w.order) then Reply(w, Some(Forbidden))
    else if pod !in w.pods then Reply(w, Some(NotFound))
    else if w.pods[pod].status != PodSubmitted then Reply(w, Some(Conflict))
    else if !approve && !reason then Reply(w, Some(Invalid))
    else if !approve then Reply(Decided(w, pod, PodRejected), None)
    else
      var closed := Closed(Decided(w, pod, PodApproved), pod, now);
      if StageDone(closed, pod) then EndStage(closed, w.order.status, actor, w.pods[pod].stage, now)
      else Reply(closed, None)
  }

  // ---- Runs ----------------------------------------------------------------------------------

  datatype Event =
    | Arrive(actor: Actor, stop: StopId, fence: Fence)
    | Start(actor: Actor, stop: StopId, handover: bool, fence: Fence)
    | CheckStop(actor: Actor, stop: StopId, answered: bool)
    | Check(actor: Actor, stage: Kind)
    | Move(actor: Actor, to: ShipmentStatus, handover: bool, fence: Fence)
    | Submit(actor: Actor, stage: Kind, named: Option<StopId>, photos: bool, pod: PodId)
    | Review(actor: Actor, pod: PodId, approve: bool, reason: bool)
    | Crossing(side: Kind, entering: bool)
    | Audit(open: bool)

  function Apply(w: World, e: Event, now: Time): Reply {
    match e
    case Arrive(a, stop, fence) => ArriveAtStop(w, a, stop, fence, now)
    case Start(a, stop, handover, fence) => StartStop(w, a, stop, handover, fence, now)
    case CheckStop(a, stop, answered) => CheckStopCargo(w, a, stop, answered, now)
    case Check(a, stage) => CargoCheck(w, a, stage, now)
    case Move(a, to, handover, fence) => Advance(w, a, to, handover, fence, now)
    case Submit(a, stage, named, photos, pod) => SubmitPod(w, a, stage, named, photos, pod)
    case Review(a, pod, approve, reason) => ReviewPod(w, a, pod, approve, reason, now)
    case Crossing(side, entering) => Evidence(w, side, entering, now)
    case Audit(open) => FieldAudit(w, open, now)
  }

  /** Time is the number of calls made so far. */
  function Run(w: World, events: seq<Event>): World {
    if events == [] then w
    else
      var before := events[..|events| - 1];
      Apply(Run(w, before), events[|events| - 1], |before|).world
  }
}
