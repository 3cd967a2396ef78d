/** Roles, statuses and the two transition tables of internal/models/status.go.
    The tables are functions from a pair of states to the roles that may make that move. */
module Status {

  datatype Option<+T> = None | Some(value: T)

  datatype Role =
    | RoleSuperadmin | RoleAdmin | RoleShipper | RoleTransporter | RoleDriver
    | RoleManager | RoleWarehousePic | RoleSystem
    | RoleOther // any other role name a token may carry

  datatype OrderStatus =
    | OrderDraft | OrderSubmitted | OrderApproved | OrderReadyToPlan | OrderAssigned
    | OrderInTransit | OrderDelivered | OrderCompleted | OrderCancelled
    | OrderCancelRequested | OrderRejected
    | OrderUnknown // every other code

  /** Shipment statuses are numbered by their position on shipmentChain; `cancelled` is an end, not
      a position, and every code the source does not know is `SHIPMENT_UNKNOWN`. */
  type ShipmentStatus = s: int | 0 <= s < 14
  const SHIPMENT_ASSIGNED: ShipmentStatus := 0
  const SHIPMENT_TO_LOADING: ShipmentStatus := 1
  const SHIPMENT_AT_LOADING: ShipmentStatus := 2
  const SHIPMENT_LOADING_APPROVED: ShipmentStatus := 3
  const SHIPMENT_LOADING: ShipmentStatus := 4
  const SHIPMENT_LOADED: ShipmentStatus := 5
  const SHIPMENT_TO_UNLOADING: ShipmentStatus := 6
  const SHIPMENT_AT_UNLOADING: ShipmentStatus := 7
  const SHIPMENT_UNLOADING_APPROVED: ShipmentStatus := 8
  const SHIPMENT_UNLOADING: ShipmentStatus := 9
  const SHIPMENT_UNLOADED: ShipmentStatus := 10
  const SHIPMENT_FINISHED: ShipmentStatus := 11
  const SHIPMENT_CANCELLED: ShipmentStatus := 12
  const SHIPMENT_UNKNOWN: ShipmentStatus := 13

  /** The roles one entry of a transition table lists. */
  datatype Roles =
    | Carriers       // transporter, manager, admin, superadmin
    | Shippers       // shipper, admin, superadmin
    | Receivers      // shipper, warehouse PIC, admin, superadmin
    | ShipperAlone
    | Platform       // admin, superadmin
    | DriverAlone
    | DriverOrSystem
    | SignOff        // system, admin, superadmin
    | Finishers      // system, warehouse PIC, admin, superadmin

  predicate IsPlatform(role: Role) { role == RoleAdmin || role == RoleSuperadmin }

  predicate IsSignOff(role: Role) { role == RoleSystem || IsPlatform(role) }

  predicate Lists(roles: Roles, role: Role) {
    match roles
    case Carriers => role == RoleTransporter || role == RoleManager || IsPlatform(role)
    case Shippers => role == RoleShipper || IsPlatform(role)
    case Receivers => role == RoleShipper || role == RoleWarehousePic || IsPlatform(role)
    case ShipperAlone => role == RoleShipper
    case Platform => IsPlatform(role)
    case DriverAlone => role == RoleDriver
    case DriverOrSystem => role == RoleDriver || role == RoleSystem
    case SignOff => IsSignOff(role)
    case Finishers => role == RoleWarehousePic || IsSignOff(role)
  }

  /** One entry of a transition table; `AnyParty` is an entry with no roles listed. */
  datatype Edge = NoEdge | AnyParty | Only(roles: Roles)

  datatype Verdict = Allowed | UnknownState | FinalState | RoleRefused | NoSuchTransition

  function OrderEdge(from: OrderStatus, to: OrderStatus): Edge {
    match from
    case OrderDraft =>
      if to == OrderSubmitted then Only(Shippers)
      else if to == OrderCancelled then Only(Shippers)
      else NoEdge
    case OrderSubmitted =>
      if to == OrderApproved then Only(Carriers)
      else if to == OrderRejected then Only(Carriers)
      else if to == OrderCancelled then Only(Shippers)
      else NoEdge
    case OrderApproved =>
      if to == OrderReadyToPlan then Only(Carriers)
      else if to == OrderAssigned then Only(Carriers)
      else if to == OrderCancelRequested then Only(ShipperAlone)
      else if to == OrderCancelled then Only(Platform)
      else NoEdge
    case OrderReadyToPlan =>
      if to == OrderAssigned then Only(Carriers)
      else if to == OrderCancelRequested then Only(ShipperAlone)
      else if to == OrderCancelled then Only(Platform)
      else NoEdge
    case OrderAssigned =>
      if to == OrderInTransit then AnyParty
      else if to == OrderReadyToPlan then Only(Carriers)
      else if to == OrderCancelRequested then Only(ShipperAlone)
      else if to == OrderCancelled then Only(Platform)
      else NoEdge
    case OrderInTransit =>
      if to == OrderCompleted then AnyParty
      else if to == OrderDelivered then AnyParty
      else if to == OrderCancelled then Only(Platform)
      else NoEdge
    case OrderDelivered =>
      if to == OrderCompleted then Only(Receivers)
      else NoEdge
    case OrderCancelRequested =>
      if to == OrderCancelled then Only(Carriers)
      else if to == OrderReadyToPlan then Only(Carriers)
      else if to == OrderAssigned then Only(Carriers)
      else NoEdge
    case _ => NoEdge
  }

  predicate OrderIsFinal(status: OrderStatus) {
    status == OrderCompleted || status == OrderCancelled || status == OrderRejected
  }

  function ShipmentEdge(from: ShipmentStatus, to: ShipmentStatus): Edge {
    if from == SHIPMENT_ASSIGNED then
      if to == SHIPMENT_TO_LOADING then Only(DriverAlone)
      else if to == SHIPMENT_CANCELLED then Only(Carriers)
      else NoEdge
    else if from == SHIPMENT_TO_LOADING then
      if to == SHIPMENT_AT_LOADING then Only(DriverAlone)
      else if to == SHIPMENT_CANCELLED then Only(Carriers)
      else NoEdge
    else if from == SHIPMENT_AT_LOADING then
      if to == SHIPMENT_LOADING then Only(DriverAlone) else NoEdge
    else if from == SHIPMENT_LOADING_APPROVED then
      if to == SHIPMENT_LOADING then Only(DriverAlone) else NoEdge
    else if from == SHIPMENT_LOADING then
      if to == SHIPMENT_LOADED then Only(SignOff) else NoEdge
    else if from == SHIPMENT_LOADED then
      if to == SHIPMENT_TO_UNLOADING then Only(DriverOrSystem) else NoEdge
    else if from == SHIPMENT_TO_UNLOADING then
      if to == SHIPMENT_AT_UNLOADING then Only(DriverAlone) else NoEdge
    else if from == SHIPMENT_AT_UNLOADING then
      if to == SHIPMENT_UNLOADING then Only(DriverAlone) else NoEdge
    else if from == SHIPMENT_UNLOADING_APPROVED then
      if to == SHIPMENT_UNLOADING then Only(DriverAlone) else NoEdge
    else if from == SHIPMENT_UNLOADING then
      if to == SHIPMENT_UNLOADED then Only(SignOff) else NoEdge
    else if from == SHIPMENT_UNLOADED then
      if to == SHIPMENT_FINISHED then Only(Finishers) else NoEdge
    else NoEdge
  }

  predicate ShipmentIsFinal(status: ShipmentStatus) {
    status == SHIPMENT_FINISHED || status == SHIPMENT_CANCELLED
  }

  /** What canTransition answers about one entry: administrators may take any listed move. */
  function Judge(known: bool, final: bool, edge: Edge, role: Role): Verdict {
    if !known then UnknownState
    else if final then FinalState
    else match edge
      case NoEdge => NoSuchTransition
      case AnyParty => Allowed
      case Only(roles) => if IsPlatform(role) || Lists(roles, role) then Allowed else RoleRefused
  }

  function CanTransitionOrder(from: OrderStatus, to: OrderStatus, role: Role): Verdict {
    Judge(!from.OrderUnknown?, OrderIsFinal(from), OrderEdge(from, to), role)
  }

  function CanTransitionShipment(from: ShipmentStatus, to: ShipmentStatus, role: Role): Verdict {
    Judge(from != SHIPMENT_UNKNOWN, ShipmentIsFinal(from), ShipmentEdge(from, to), role)
  }

  /** No table entry leaves a final state, and a final or unknown state lets nobody out. */
  lemma FinalStatesHaveNoSuccessor(from: OrderStatus, to: OrderStatus, role: Role)
    requires OrderIsFinal(from) || from.OrderUnknown?
    ensures OrderEdge(from, to) == NoEdge && CanTransitionOrder(from, to, role) != Allowed
  {
  }

  // ---- The chain ---------------------------------------------------------------------------

  predicate OnChain(status: ShipmentStatus) { status <= SHIPMENT_FINISHED }

  predicate IsLegacy(status: ShipmentStatus) {
    status == SHIPMENT_LOADING_APPROVED || status == SHIPMENT_UNLOADING_APPROVED
  }

  predicate AtOrPast(status: ShipmentStatus, mark: ShipmentStatus) {
    OnChain(status) && OnChain(mark) && status >= mark
  }

  /** NextShipmentStatusTowards: the first status after `from`, up to `to`, that is not a legacy
      approval state. */
  function NextTowards(from: ShipmentStatus, to: ShipmentStatus): (next: Option<ShipmentStatus>)
    ensures next.Some? ==> from < next.value <= to && OnChain(to)
  {
    if !OnChain(from) || !OnChain(to) || from >= to then None else FirstLive(from + 1, to)
  }

  function FirstLive(i: ShipmentStatus, to: ShipmentStatus): (next: Option<ShipmentStatus>)
    requires OnChain(to)
    ensures next.Some? ==> i <= next.value <= to
    decreases SHIPMENT_UNKNOWN - i
  {
    if i > to then None
    else if IsLegacy(i) then FirstLive(i + 1, to)
    else Some(i)
  }

  /** One step towards a later, non-legacy target exists, is an edge of the table, enters no legacy
      state and skips nothing but legacy states. */
  lemma NextTowardsIsAnEdge(from: ShipmentStatus, to: ShipmentStatus)
    requires OnChain(from) && OnChain(to) && !IsLegacy(to)
    ensures NextTowards(from, to).None? <==> AtOrPast(from, to)
    ensures NextTowards(from, to).Some? ==>
      var next := NextTowards(from, to).value;
      && ShipmentEdge(from, next) != NoEdge
      && !IsLegacy(next)
      && (forall s: ShipmentStatus :: from < s < next ==> IsLegacy(s))
  {
  }
}
